# Portfolio page logic, modelled in Dafny

The repository contains two near-copies of a one-page React portfolio: `frontend/src/App.jsx` and `src/App.jsx`. Most of each page is layout. The logic is small:

- **A resource loader (`useFetch`).** It keeps three state cells: data, loading and error. A liveness flag (`mounted` in one copy, `active` in the other) is cleared by the effect's cleanup, and every setter is guarded by it.
- **A skills grouping.** It folds the skill list into an object keyed by category and reads the groups back with `Object.entries`.
- **Display fallbacks.** These are built with `||`.
- **Merged timeline.** `src/App.jsx` also merges experience and education into one timeline.
- **A contact form.** It has four fields and a `sent` flag. `src/App.jsx` adds an `error` string.
- **A seeding flag** in `src/App.jsx`.

The project is organised by concern:

| file | module | what it holds |
|---|---|---|
| `js.dfy` | `Js` | The parts of JavaScript the page relies on (see the list below). |
| `content.dfy` | `Content` | The records the content service returns. |
| `loader.dfy` | `Loader` | The loader: a pure state machine (`Step`, `Replay`) and the mutable cells and request (`Cell`, `Request`), whose methods are proved against `Step`. |
| `grouping.dfy` | `Grouping` | The grouping fold over a mutable `Accumulator` object. It is proved against an independent definition: the distinct categories in property order, and a stable filter per category. |
| `contact.dfy` | `Contact` | The four form fields, the one-field edit, and the abstract outcome of the POST: `Ok \| NotOk \| Throws(error)`. |
| `frontend_app.dfy` | `FrontendApp` | The logic of `frontend/src/App.jsx`. |
| `portfolio_app.dfy` | `PortfolioApp` | The logic of `src/App.jsx`. |

The JavaScript semantics in `js.dfy` are:

- truthiness and `||`;
- `<` against a value that may convert to NaN;
- `String(err)` for an Error (Error.prototype.toString, section 20.5.3.4 of ECMA-262);
- the order of an ordinary object's own keys: array indices ascending, then the other keys in creation order (OrdinaryOwnPropertyKeys, section 10.1.11.1 of ECMA-262);
- the names every `{}` inherits from Object.prototype (sections 20.1.3 and B.2.2 of ECMA-262).

The network is an input. A fetch outcome is `Body(json) | Threw(error)`, and a contact POST outcome is `Ok | NotOk | Throws(error)`. So is the environment variable behind `API`. React's effect scheduling is a sequence of events: a settlement or a cleanup.

### Behaviour worth knowing
The code behaves as follows, and the model follows it:

- **Re-invoking the loader does not reset its state.** `useState` applies its initial value only on mount. A new url starts a new request while keeping the old data, loading and error.
- **There is no "submitting" state.** Nothing prevents overlapping submissions.
- **Email and required-field validation exist only as browser form attributes.** No code checks them, so the model has no validator.
- **The loader ignores the HTTP status.** A non-2xx response with a JSON body becomes data.

## Model

| member | source | states |
|---|---|---|
| Js.Or | src/App.jsx:148 | `a \|\| b` is truthy iff either operand is; it is `a` when `a` is truthy and otherwise `b`. |
| Js.ErrorString | src/App.jsx:171 | `String(err)` of an Error. It is empty iff both name and message are. It is the message alone if the name is empty, and the name alone if the message is empty. Otherwise it starts with the name, ends with the message, and is two characters (": ") longer than both together. |
| Js.ToNumber | frontend/src/App.jsx:140 | The number a value converts to before `<`. A number is itself. null, false and "" give 0, true gives 1, and a non-empty digit string gives its decimal value. It is NaN exactly for undefined and for a non-empty string that is not all digits. A converted non-number is never negative. |
| Js.LessThan | frontend/src/App.jsx:140 | `idx < level` holds iff the level converts to a number greater than idx. It is false whenever the level converts to NaN. |
| Js.SortByIndexSorted | src/App.jsx:107 | Array-index keys come out sorted by numeric value. |
| Js.PropertyOrder | frontend/src/App.jsx:130 | The order Object.entries lists an object's own keys in. It is a permutation of the creation order. |
| Js.IndexKeysFirstAscending | frontend/src/App.jsx:130 | Object.entries order puts every array-index key before every other key, in ascending numeric order. |
| Js.PropertyOrderPermutes | src/App.jsx:107 | Object.entries lists exactly the own keys, each as often as created: the order is a permutation of the creation order. |
| Js.PropertyOrderWithoutIndexKeys | src/App.jsx:107 | When no key is an array index, Object.entries order is creation order. |
| Js.PropertyOrderDistinct | frontend/src/App.jsx:130 | Distinct own keys stay distinct in Object.entries order. |
| Js.PropertyOrderIdempotent | src/App.jsx:107 | Creating keys in the order an object lists them gives an object that lists them in that same order. |
| Grouping.FirstOccurrences | src/App.jsx:100 | The categories, without repeats, and exactly the categories of the input. |
| Grouping.Filter | src/App.jsx:101 | A group holds only input skills of its own category. |
| Grouping.Grouped | src/App.jsx:97-107 | The intended grouping: one entry per key in Object.entries order, holding that category's skills. |
| Grouping.FirstInheritedKey | frontend/src/App.jsx:124 | None iff no category names a property `{}` inherits. Otherwise it is such a name: the category of a skill before which no skill has such a category. |
| Grouping.GroupedAsWritten | src/App.jsx:97-104 | The grouping as written. It throws iff some category names an inherited property, and the key it throws at is such a name. Otherwise it gives the intended groups. |
| Grouping.Accumulator.constructor | src/App.jsx:98 | The accumulator starts with no own properties. |
| Grouping.Accumulator.Lookup | frontend/src/App.jsx:124 | `acc[k]` is an own array iff `k` is an own key, and then it is that key's array. It is an inherited non-array iff `k` is not own, the object has Object.prototype, and `k` is one of its names. |
| Grouping.Accumulator.Push | src/App.jsx:100-101 | One fold step. It succeeds iff `acc[k]` is not an inherited non-array. An existing group gets the skill appended. A new key is created last, holding only the skill. On failure nothing changes. |
| Grouping.Accumulator.Entries | src/App.jsx:107 | Object.entries(acc): the own keys in property order, each paired with its array. |
| Grouping.Group | src/App.jsx:97-104 | The fold. On `{}` it equals the grouping as written, which throws at the first inherited category. On a prototype-less object it equals the intended grouping. |
| Grouping.FilterCount | src/App.jsx:101 | A group contains each skill of its category exactly as often as the input, and no other skill. |
| Grouping.FilterAppend | frontend/src/App.jsx:125 | A group keeps input order: grouping a concatenation concatenates the groups. |
| Grouping.GroupedPartition | frontend/src/App.jsx:123-127 | The grouping is a partition. Keys are distinct and are exactly the categories that occur. Each skill sits in its own category's group as often as in the input, and in no other group. |
| Grouping.GroupKeysAreCategories | src/App.jsx:100 | The group keys are distinct and are exactly the categories that occur. |
| Grouping.FirstOccurrencesOrder | src/App.jsx:99-100 | Each key is created before the first occurrence of any key created after it. |
| Grouping.GroupedInFirstOccurrenceOrder | frontend/src/App.jsx:123-130 | Without array-index categories, groups are listed in the order their categories first occur. |
| Grouping.AsWrittenAgrees | src/App.jsx:97-104 | When no category names an inherited property, the grouping as written equals the intended one. |
| Grouping.PrototypeCategoryThrows | src/App.jsx:100-101 | A skill in category "constructor" makes the grouping as written throw, while the intended grouping has one group "constructor". |
| Grouping.Flatten | src/App.jsx:107-111 | The groups' skills listed group after group. Each one comes from some group. |
| Grouping.FlattenFirstOccurrences | src/App.jsx:107-111 | A step towards GroupedIdempotent. When the groups are laid out one after the other, the categories first occur in key order. |
| Grouping.FilterFlatten | src/App.jsx:107-111 | A step towards GroupedIdempotent. Filtering the laid-out groups by a key gives back exactly that key's group, and nothing for a key that has no group. |
| Grouping.GroupedIdempotent | frontend/src/App.jsx:123-130 | Grouping is idempotent. Grouping the skills in the order the section lists them gives the same groups, in the same order. |
| Loader.Apply | frontend/src/App.jsx:18-22 | The setters of a settled, mounted request. Loading ends false. A body replaces data and leaves error as it was. A failure sets error and leaves data as it was. |
| Loader.Step | src/App.jsx:13-25 | One event. Cleanup clears the flag and changes nothing else. A settlement ends the request and keeps the flag. It applies its outcome only while the flag is set and the request is pending. With the flag cleared or the request settled, the cells never change. |
| Loader.Frozen | frontend/src/App.jsx:13-26 | Once the flag is cleared, or the request has settled, no later event changes data, loading or error. |
| Loader.ReplayAppend | src/App.jsx:11-26 | Events can be replayed in two parts. |
| Loader.CleanupFreezes | src/App.jsx:25 | Whatever happens after cleanup, the cells stay as they were at cleanup. |
| Loader.RequestOutcome | frontend/src/App.jsx:14-26 | From any state, a request that settles first applies its outcome. If it is cleaned up first, or never settles, the cells stay as they were. |
| Loader.LoadOutcomes | frontend/src/App.jsx:8-22 | From the initial state, there are three cases. A body gives (body, false, null). A failure gives (initial, false, error). Otherwise the state stays (initial, true, null). |
| Loader.Cell.constructor | frontend/src/App.jsx:9-11 | The cells start as data = initial, loading = true, error = null. |
| Loader.Request.constructor | frontend/src/App.jsx:13 | The flag starts set, and a request is in flight iff one was issued. |
| Loader.Request.Resolve | frontend/src/App.jsx:16-18 | One `Step`. While mounted, data becomes the body and loading false, and error is untouched. Otherwise the cells are unchanged. |
| Loader.Request.Fail | frontend/src/App.jsx:19-22 | One `Step`. While mounted, error is set and loading becomes false, and data is untouched. Otherwise the cells are unchanged. |
| Loader.Request.Teardown | frontend/src/App.jsx:26 | One `Step`: the flag is cleared, and nothing else changes. |
| Content.RoleOrDegree | src/App.jsx:148 | `role \|\| degree` (also frontend/src/App.jsx:188): role when truthy, else degree. Truthy iff either is. |
| Content.CompanyOrSchool | frontend/src/App.jsx:187 | `company \|\| school` (also src/App.jsx:148): company when truthy, else school. Truthy iff either is. |
| Contact.EditField | frontend/src/App.jsx:209-212 | An edit sets its own field to the new value and leaves the other three unchanged. |
| Contact.EditsCompose | src/App.jsx:177-180 | Edits of different fields commute, and a later edit of the same field overrides an earlier one. |
| FrontendApp.UseFetch | frontend/src/App.jsx:8-25 | Mounting: cells at (initial, true, null), flag set, and a request issued iff the url is non-empty. |
| FrontendApp.AsSettlement | frontend/src/App.jsx:18-20 | A body resolves with that body. A thrown value is kept as the error itself. |
| FrontendApp.Complete | frontend/src/App.jsx:14-23 | Settling the request is one `Step` with that outcome. |
| FrontendApp.FalsyUrlStaysLoading | frontend/src/App.jsx:25 | With a falsy url no request runs, so the state stays (initial, true, null) whatever happens. |
| FrontendApp.ResourceUrl | frontend/src/App.jsx:222-226 | `${API}/<resource>`, with API the configured backend url or '' (frontend/src/App.jsx:6). It is never empty, so each loader of the page issues its request. Without a configured backend it is the same-origin path. |
| FrontendApp.Skills | frontend/src/App.jsx:122-127 | Null items give no groups. Otherwise the result is the intended grouping, equal to the grouping as written when no category names an inherited property. |
| FrontendApp.LevelDots | frontend/src/App.jsx:139-140 | Five dots. Dot idx is filled iff idx < level, so the filled dots form a prefix. None is filled when the level converts to NaN (undefined, or a non-empty string that is not all digits). |
| FrontendApp.RenderFalsy | frontend/src/App.jsx:137 | A falsy child renders as text exactly when it is a number (the 0), and that text is "0". Every other falsy value renders nothing. |
| FrontendApp.LevelView | frontend/src/App.jsx:137-143 | As written: dots exactly when the level is truthy, and those dots are `LevelDots`. |
| FrontendApp.IntendedLevelView | frontend/src/App.jsx:137-143 | Dots when the level is truthy, and nothing at all otherwise. |
| FrontendApp.ZeroLevelShowsText | frontend/src/App.jsx:137 | Level 0 shows the text "0" where nothing was intended. Every other level agrees with the intent. |
| FrontendApp.EndLabel | frontend/src/App.jsx:189 | `end \|\| 'Heute'` is always truthy, and it is "Heute" exactly when end is falsy. |
| FrontendApp.ProjectHref | frontend/src/App.jsx:157 | `link \|\| '#'` is always truthy, and it is "#" exactly when link is falsy. |
| FrontendApp.SentOnlyByOkResponse | frontend/src/App.jsx:201-205 | `sent` ends true iff it started true or some submission got an ok response, so it is never reset. |
| FrontendApp.ContactStep | frontend/src/App.jsx:202-212 | One visitor action. `sent` is afterwards true iff it was before or the action was a submission with an ok response. A submission leaves the fields alone. An edit changes only its field. |
| FrontendApp.ContactForm.constructor | frontend/src/App.jsx:200-201 | Empty fields and `sent` false. |
| FrontendApp.ContactForm.Edit | frontend/src/App.jsx:209-212 | One `ContactStep` with that edit. |
| FrontendApp.ContactForm.Submit | frontend/src/App.jsx:202-206 | Posts the current fields. The result is one `ContactStep`: `sent` is set on an ok response, and nothing else changes. |
| PortfolioApp.Api | src/App.jsx:5 | The base url is the configured one when non-empty, else "http://localhost:8000". It is never empty. |
| PortfolioApp.UseFetch | src/App.jsx:7-24 | Mounting: cells at (initial, true, null), flag set, and a request for exactly `API + path`, always issued. |
| PortfolioApp.AsSettlement | src/App.jsx:17-19 | A body resolves with that body. A thrown error is kept as `String(e)`. |
| PortfolioApp.Complete | src/App.jsx:13-23 | Settling the request is one `Step` with that outcome. |
| PortfolioApp.FailureKeepsErrorText | src/App.jsx:18-21 | A first failure leaves (initial, false, `String(e)`), which is "name: message" for an Error with both set, whatever happens later. |
| PortfolioApp.Skills | src/App.jsx:96-107 | The result is the intended grouping, equal to the loop as written when no category names an inherited property. |
| PortfolioApp.MergeTimeline | src/App.jsx:233 | Length \|exp\| + \|edu\|. First the experience entries in order, then the education entries in order. Same multiset: nothing dropped, sorted or deduplicated. |
| PortfolioApp.Details | src/App.jsx:150-152 | The paragraph is shown iff summary or details is truthy. Its text is summary when truthy, else details, and is never falsy. |
| PortfolioApp.ProjectHref | src/App.jsx:128 | Demo when truthy, else repo when truthy, else "#". It is always truthy. |
| PortfolioApp.SubmitError | src/App.jsx:165-171 | The error text a submission leaves. For a non-ok response it is exactly "Error: Fehler beim Senden". For a thrown error it is `String(err)`. It is empty iff the response was ok or the thrown error has neither name nor message. |
| PortfolioApp.ContactStep | src/App.jsx:163-180 | One visitor action. Once sent, nothing changes. `sent` becomes true exactly on a submission with an ok response. A submission keeps the fields and leaves that submission's error text. An edit changes only its field and keeps the error. |
| PortfolioApp.LastSubmitError | src/App.jsx:165-171 | The error left by a sequence of actions, read from its end. If the actions are all edits, it is the starting error. |
| PortfolioApp.LastSubmitErrorIsLast | src/App.jsx:165-171 | It is the error of the submission after which only edits follow. |
| PortfolioApp.ContactRunAppend | src/App.jsx:159-174 | Actions can be replayed in two parts. |
| PortfolioApp.SentIsFinal | src/App.jsx:174 | Once sent, no action changes anything: only the confirmation is rendered. |
| PortfolioApp.SentIffOkResponse | src/App.jsx:168-169 | `sent` ends true iff it started true or some submission got an ok response. |
| PortfolioApp.ErrorOfLastSubmission | src/App.jsx:165-171 | While unsent, the error is that of the last submission: empty, "Error: Fehler beim Senden", or `String(err)` of what was thrown. |
| PortfolioApp.SentMeansNoError | src/App.jsx:165-169 | A sent message never carries an error, because the successful submission cleared it. |
| PortfolioApp.ContactForm.constructor | src/App.jsx:160-162 | Empty fields, `sent` false, and error "". |
| PortfolioApp.ContactForm.Edit | src/App.jsx:177-180 | One `ContactStep` with that edit, possible only while the form is shown. |
| PortfolioApp.ContactForm.Submit | src/App.jsx:163-173 | Posts the current fields. The result is one `ContactStep`: error cleared, then `sent` set on ok, or the caught error's text stored. |
| PortfolioApp.App.constructor | src/App.jsx:188 | `seeded` starts false. |
| PortfolioApp.App.Seed | src/App.jsx:189-193 | `seeded` becomes true: the empty `catch` swallows every failure of the seed request. |

## Left out
- The scroll-linked background animation (`Tunnel`), the 3D scene, and all JSX layout and styling. These are presentation, floating-point interpolation, or calls into libraries that are not part of this model. `frontend/tailwind.config.js` is theme configuration.
- `fetch`, `res.json()` and `JSON.stringify` are foreign calls. Their results are inputs to the model.
- React effect scheduling and the interleaving of the page's five loads are not modelled. Each request is a sequential event list, and its cleanup is a flag flip.
- Re-running the effect for a changed url is not modelled. It would be a new `Request` on the same `Cell`; the cells are not reset.
- Numbers are integers. NaN, fractions and the full string-to-number grammar (whitespace, signs, exponents, hex) are not modelled. A string level converts only when it is plain decimal digits.
- Response bodies that are not arrays are not modelled. In `src/App.jsx` such a body makes the skills loop or the timeline spread throw, or, for a string body, iterate its characters. Null skills in `src/App.jsx` are not modelled either.
- Overlapping submissions of the contact form are not modelled; each submission settles before the next action.
- Email and required-field checks are browser form attributes, not code, and are not modelled.
- The seed POST in `frontend/src/App.jsx` keeps no state, so there is nothing to model.
- The "about" text fallbacks (`profile?.bio || …`, `profile?.[0]?.bio || …`) are not modelled. They use the same `||` as `Js.Or`.
- The frontend timeline summary (`{e.summary && …}`) is not modelled separately. It shows the summary exactly when it is truthy. Like the level, a numeric summary 0 would render as "0"; summaries are strings.
- Grouping.Accumulator.Push: when the lookup finds an inherited value, the assignment before the throw stores it as an own property. For `__proto__` it instead calls the setter with Object.prototype and creates no own property. The model leaves the object unchanged in both cases, because the thrown exception abandons it.
- FrontendApp.Skills, PortfolioApp.Skills: they return the corrected grouping (see Findings). The grouping as written is `Grouping.GroupedAsWritten`. The two are proved equal unless a category names an inherited property.

## Findings

| source | as written | input that shows it | evidently intended | confidence | as-written member | corrected member |
|---|---|---|---|---|---|---|
| src/App.jsx:100-101 (also frontend/src/App.jsx:124-125) | `acc[k] = acc[k] \|\| []; acc[k].push(s)` on `{}` finds an inherited property when the category names one, and `push` throws a TypeError | one skill with category "constructor" (or "toString", "valueOf", "__proto__", …) | every category becomes its own group | not executed; high | Grouping.PrototypeCategoryThrows | Grouping.GroupedPartition |
| frontend/src/App.jsx:137 | `{s.level && (…)}` renders the number 0 as the text "0" | a skill with level 0 | no dots and no text for a falsy level | not executed; medium | FrontendApp.ZeroLevelShowsText | FrontendApp.IntendedLevelView |
