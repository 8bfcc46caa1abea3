/**
 * The contact form's fields and the abstract outcome of posting them. Both
 * copies of the page hold the four fields in one state object and replace one
 * field per keystroke with `setState(s => ({...s, <field>: value}))`.
 */
module Contact {
  import opened Js

  datatype Message = Message(name: string, email: string, subject: string, message: string)

  /** The fields' initial values: all empty. */
  const Blank: Message := Message("", "", "", "")

  datatype Field = Name | Email | Subject | Body

  function Get(m: Message, f: Field): string {
    match f
    case Name => m.name
    case Email => m.email
    case Subject => m.subject
    case Body => m.message
  }

  /** One onChange handler: replace field f with v. */
  function EditField(m: Message, f: Field, v: string): (r: Message)
    ensures Get(r, f) == v
    ensures forall g :: g != f ==> Get(r, g) == Get(m, g)
  {
    match f
    case Name => m.(name := v)
    case Email => m.(email := v)
    case Subject => m.(subject := v)
    case Body => m.(message := v)
  }

  /** Two messages that agree on every field are the same message. */
  lemma FieldsDetermineMessage(a: Message, b: Message)
    requires forall f :: Get(a, f) == Get(b, f)
    ensures a == b
  {
    assert Get(a, Name) == Get(b, Name) && Get(a, Email) == Get(b, Email);
    assert Get(a, Subject) == Get(b, Subject) && Get(a, Body) == Get(b, Body);
  }

  /** Edits of different fields commute, and a later edit of the same field overrides an earlier one. */
  lemma EditsCompose(m: Message, f: Field, v: string, g: Field, w: string)
    ensures f != g ==> EditField(EditField(m, f, v), g, w) == EditField(EditField(m, g, w), f, v)
    ensures EditField(EditField(m, f, v), f, w) == EditField(m, f, w)
  {
    if f != g {
      FieldsDetermineMessage(EditField(EditField(m, f, v), g, w), EditField(EditField(m, g, w), f, v));
    }
    FieldsDetermineMessage(EditField(EditField(m, f, v), f, w), EditField(m, f, w));
  }

  /** What the POST to the contact endpoint comes back with: `res.ok`, a non-ok status, or a thrown error. */
  datatype Response = Ok | NotOk | Throws(error: JsError)

  /** What the visitor can do: type into a field, or submit. */
  datatype Action = Edit(field: Field, value: string) | Submit(response: Response)
}
