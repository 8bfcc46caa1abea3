/**
 * The logic of frontend/src/App.jsx: its useFetch (liveness flag `mounted`,
 * request only for a truthy url, the thrown value kept as the error), the
 * Skills grouping by `reduce` with its five-dot level display, the Timeline
 * and Projects fallbacks, and the Contact form whose `sent` flag is the only
 * outcome it records.
 */
module FrontendApp {
  import opened Js
  import opened Content
  import opened Loader
  import opened Grouping
  import opened Contact

  // ---------------------------------------------------------------------------
  // useFetch

  /** Mounting the hook: the cells start at `initial`, and the effect issues a request only for a truthy url. */
  method UseFetch<T>(url: string, initial: T) returns (cell: Cell<T, JsError>, request: Request<T, JsError>)
    ensures fresh(cell) && fresh(request) && request.cell == cell
    ensures cell.Current() == Initial(initial)
    ensures request.mounted && request.pending == (url != "")
  {
    cell := new Cell(initial);
    request := new Request(cell, url != "");
  }

  /** The error cell keeps the thrown value itself. */
  function AsSettlement<T>(outcome: FetchOutcome<T>): (r: Settlement<T, JsError>)
    ensures outcome.Body? <==> r.Resolved?
    ensures outcome.Body? ==> r.body == outcome.json
    ensures outcome.Threw? ==> r.err == outcome.thrown
  {
    match outcome
    case Body(json) => Resolved(json)
    case Threw(e) => Rejected(e)
  }

  /** The request settles: the try block's setData, or the catch block's setError, then the finally block. */
  method Complete<T>(request: Request<T, JsError>, outcome: FetchOutcome<T>)
    requires request.pending
    modifies request, request.cell
    ensures request.State() == Step(old(request.State()), Settle(AsSettlement(outcome)))
  {
    match outcome
    case Body(json) => request.Resolve(json);
    case Threw(e) => request.Fail(e);
  }

  /**
   * With a falsy url no request is issued: whatever happens, the cells keep
   * the initial data, no error, and loading stays true.
   */
  lemma FalsyUrlStaysLoading<T>(initial: T, evs: seq<Event<T, JsError>>)
    ensures Replay(RequestState(Initial(initial), true, false), evs).cells == LoadState(initial, true, None)
  {
    Frozen(RequestState(Initial(initial), true, false), evs);
  }

  /**
   * The url of one resource: `${API}/<resource>` with API the configured
   * backend url or ''. It is never empty, so each of the page's loaders issues
   * its request; without a configured backend it is the same-origin path.
   */
  function ResourceUrl(env: Option<string>, resource: string): (r: string)
    ensures r != ""
    ensures env.Some? && env.value != "" ==> r == env.value + "/" + resource
    ensures env.None? || env.value == "" ==> r == "/" + resource
  {
    var api := if env.Some? && env.value != "" then env.value else "";
    api + "/" + resource
  }

  // ---------------------------------------------------------------------------
  // Skills

  /**
   * `items?.reduce(..., {}) || {}`: no items give no groups; otherwise the fold,
   * here on an object without inherited properties (see GroupedAsWritten for
   * the fold over `{}`, which agrees unless a category names an inherited one).
   */
  method Skills(items: Option<seq<Skill>>) returns (r: GroupResult)
    ensures items.None? ==> r == Entries([])
    ensures items.Some? ==> r == Entries(Grouped(items.value))
    ensures items.Some? && (forall j :: 0 <= j < |items.value| ==> items.value[j].category !in ObjectPrototypeNames) ==>
      r == GroupedAsWritten(items.value)
  {
    match items
    case None =>
      r := Entries([]);
    case Some(xs) =>
      r := Group(xs, false);
      if forall j :: 0 <= j < |xs| ==> xs[j].category !in ObjectPrototypeNames {
        AsWrittenAgrees(xs);
      }
  }

  /** How a skill's level shows: five dots, a stray text node, or nothing. */
  datatype LevelDisplay = Dots(filled: seq<bool>) | Text(text: string) | Nothing

  /** Five dots; dot idx is filled when `idx < level`. */
  function LevelDots(level: JsValue): (r: seq<bool>)
    ensures |r| == 5
    ensures forall i, j :: 0 <= i <= j < 5 && r[j] ==> r[i]
    ensures ToNumber(level).Some? ==>
      forall idx :: 0 <= idx < 5 ==> (r[idx] <==> idx < ToNumber(level).value)
    ensures ToNumber(level).None? ==> forall idx :: 0 <= idx < 5 ==> !r[idx]
  {
    seq(5, idx requires 0 <= idx < 5 => LessThan(idx, level))
  }

  /** What React renders for a falsy child: the number 0 as the text "0", anything else as nothing visible. */
  function RenderFalsy(v: JsValue): (r: LevelDisplay)
    requires !Truthy(v)
    ensures r.Text? <==> v.Num?
    ensures v.Num? ==> r == Text("0")
    ensures !v.Num? ==> r == Nothing
  {
    match v
    case Num(_) => Text("0")
    case _ => Nothing
  }

  /** `{s.level && <dots/>}` as written. */
  function LevelView(level: JsValue): (r: LevelDisplay)
    ensures r.Dots? <==> Truthy(level)
    ensures r.Dots? ==> r.filled == LevelDots(level)
  {
    if Truthy(level) then Dots(LevelDots(level)) else RenderFalsy(level)
  }

  /** The level display as intended: dots for a truthy level, nothing otherwise. */
  function IntendedLevelView(level: JsValue): (r: LevelDisplay)
    ensures r.Dots? <==> Truthy(level)
    ensures r.Nothing? <==> !Truthy(level)
    ensures r.Dots? ==> r.filled == LevelDots(level)
  {
    if Truthy(level) then Dots(LevelDots(level)) else Nothing
  }

  /** Level 0 shows the text "0" where no dots and no text were meant; every other level agrees with the intent. */
  lemma ZeroLevelShowsText(level: JsValue)
    ensures LevelView(Num(0)) == Text("0") && IntendedLevelView(Num(0)) == Nothing
    ensures level != Num(0) ==> LevelView(level) == IntendedLevelView(level)
  {
  }

  // ---------------------------------------------------------------------------
  // Timeline and Projects fallbacks

  /** The end of the period: `end || 'Heute'`, so an entry without an end reads as ongoing. */
  function EndLabel(e: TimelineEntry): (r: JsValue)
    ensures Truthy(r)
    ensures Truthy(e.end) ==> r == e.end
    ensures !Truthy(e.end) ==> r == Str("Heute")
  {
    Or(e.end, Str("Heute"))
  }

  /** A project links to `link || '#'`, so every card has a truthy href. */
  function ProjectHref(p: Project): (r: JsValue)
    ensures Truthy(r)
    ensures Truthy(p.link) ==> r == p.link
    ensures !Truthy(p.link) ==> r == Str("#")
  {
    Or(p.link, Str("#"))
  }

  // ---------------------------------------------------------------------------
  // Contact

  datatype ContactState = ContactState(form: Message, sent: bool)

  /**
   * One visitor action. The form stays on screen after sending, so edits and
   * submissions remain possible. Only an ok response sets `sent`; a non-ok
   * response is ignored and a thrown error escapes the handler unhandled.
   */
  function ContactStep(s: ContactState, a: Action): (r: ContactState)
    ensures r.sent <==> s.sent || a == Submit(Ok)
    ensures a.Submit? ==> r.form == s.form
    ensures a.Edit? ==> r.form == EditField(s.form, a.field, a.value)
  {
    match a
    case Edit(f, v) => s.(form := EditField(s.form, f, v))
    case Submit(response) => if response.Ok? then s.(sent := true) else s
  }

  function ContactRun(s: ContactState, acts: seq<Action>): ContactState
    decreases |acts|
  {
    if acts == [] then s else ContactRun(ContactStep(s, acts[0]), acts[1..])
  }

  /** `sent` ends true exactly when it started true or some submission got an ok response: it is never reset. */
  lemma {:induction false} SentOnlyByOkResponse(s: ContactState, acts: seq<Action>)
    ensures ContactRun(s, acts).sent <==> s.sent || exists i :: 0 <= i < |acts| && acts[i] == Submit(Ok)
    decreases |acts|
  {
    if acts != [] {
      SentOnlyByOkResponse(ContactStep(s, acts[0]), acts[1..]);
      if exists i :: 0 <= i < |acts[1..]| && acts[1..][i] == Submit(Ok) {
        var i :| 0 <= i < |acts[1..]| && acts[1..][i] == Submit(Ok);
        assert acts[i + 1] == Submit(Ok);
      }
      if exists i :: 0 <= i < |acts| && acts[i] == Submit(Ok) {
        var i :| 0 <= i < |acts| && acts[i] == Submit(Ok);
        if i > 0 {
          assert acts[1..][i - 1] == Submit(Ok);
        }
      }
    }
  }

  /** The Contact component: the fields' state object and the `sent` flag. */
  class ContactForm {
    var form: Message
    var sent: bool

    function State(): ContactState
      reads this
    {
      ContactState(form, sent)
    }

    constructor ()
      ensures State() == ContactState(Blank, false)
    {
      form, sent := Blank, false;
    }

    /** An onChange handler. */
    method Edit(f: Field, v: string)
      modifies this
      ensures State() == ContactStep(old(State()), Action.Edit(f, v))
    {
      form := EditField(form, f, v);
    }

    /** onSubmit: post the fields as they are, then `if (res.ok) setSent(true)`. */
    method Submit(response: Response) returns (posted: Message)
      modifies this
      ensures posted == old(form)
      ensures State() == ContactStep(old(State()), Action.Submit(response))
      ensures old(sent) ==> sent
    {
      posted := form;
      if response.Ok? {
        sent := true;
      }
    }
  }
}
