/**
 * The records the content service returns, as the page reads them. Every
 * field the page only displays is a JsValue, because the service may omit it
 * (undefined) or send null. A skill's category is kept as the property key it
 * becomes when used to index an object (ToPropertyKey: a missing category is
 * the key "undefined").
 */
module Content {
  import opened Js

  datatype Skill = Skill(name: JsValue, category: string, level: JsValue)

  /** An experience record (role, company, summary) or an education record (degree, school, details). */
  datatype TimelineEntry = TimelineEntry(
    role: JsValue, degree: JsValue,
    company: JsValue, school: JsValue,
    start: JsValue, end: JsValue,
    summary: JsValue, details: JsValue)

  datatype Project = Project(
    title: JsValue, name: JsValue, description: JsValue, tags: seq<string>,
    link: JsValue, demo: JsValue, repo: JsValue)

  /** An entry's role line, the same in both copies of the page: `role || degree`. */
  function RoleOrDegree(e: TimelineEntry): (r: JsValue)
    ensures Truthy(r) <==> Truthy(e.role) || Truthy(e.degree)
    ensures Truthy(e.role) ==> r == e.role
    ensures !Truthy(e.role) ==> r == e.degree
  {
    Or(e.role, e.degree)
  }

  /** An entry's organisation line, the same in both copies of the page: `company || school`. */
  function CompanyOrSchool(e: TimelineEntry): (r: JsValue)
    ensures Truthy(r) <==> Truthy(e.company) || Truthy(e.school)
    ensures Truthy(e.company) ==> r == e.company
    ensures !Truthy(e.company) ==> r == e.school
  {
    Or(e.company, e.school)
  }
}
