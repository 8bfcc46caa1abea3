/**
 * The logic of src/App.jsx: its useFetch (always requests `API + path`, keeps
 * `String(e)` as the error, liveness flag `active`), the Skills grouping by a
 * `for` loop, the timeline `[...exp, ...edu]`, the Timeline and Projects
 * fallbacks, the Contact form with its `sent` and `error` cells, and the
 * `seeded` flag of App.
 */
module PortfolioApp {
  import opened Js
  import opened Content
  import opened Loader
  import opened Grouping
  import opened Contact

  /** `import.meta.env.VITE_BACKEND_URL || 'http://localhost:8000'`. */
  function Api(env: Option<string>): (r: string)
    ensures r != ""
    ensures env.Some? && env.value != "" ==> r == env.value
    ensures env.None? || env.value == "" ==> r == "http://localhost:8000"
  {
    if env.Some? && env.value != "" then env.value else "http://localhost:8000"
  }

  // ---------------------------------------------------------------------------
  // useFetch

  /** Mounting the hook: the cells start at `initial` and a request for `API + path` is always issued. */
  method UseFetch<T>(api: string, path: string, initial: T) returns (url: string, cell: Cell<T, string>, request: Request<T, string>)
    ensures url == api + path
    ensures fresh(cell) && fresh(request) && request.cell == cell
    ensures cell.Current() == Initial(initial)
    ensures request.mounted && request.pending
  {
    url := api + path;
    cell := new Cell(initial);
    request := new Request(cell, true);
  }

  /** The error cell keeps `String(e)`, the thrown error's text. */
  function AsSettlement<T>(outcome: FetchOutcome<T>): (r: Settlement<T, string>)
    ensures outcome.Body? <==> r.Resolved?
    ensures outcome.Body? ==> r.body == outcome.json
    ensures outcome.Threw? ==> r.err == ErrorString(outcome.thrown)
  {
    match outcome
    case Body(json) => Resolved(json)
    case Threw(e) => Rejected(ErrorString(e))
  }

  /** The request settles: `if (active) setData(json)` or `if (active) setError(String(e))`, then the finally block. */
  method Complete<T>(request: Request<T, string>, outcome: FetchOutcome<T>)
    requires request.pending
    modifies request, request.cell
    ensures request.State() == Step(old(request.State()), Settle(AsSettlement(outcome)))
  {
    match outcome
    case Body(json) => request.Resolve(json);
    case Threw(e) => request.Fail(ErrorString(e));
  }

  /**
   * A request that fails first leaves the initial data, loading false, and as
   * error the thrown error's text (for a non-empty message, "name: message").
   */
  lemma FailureKeepsErrorText<T>(initial: T, e: JsError, later: seq<Event<T, string>>)
    ensures Replay(RequestState(Initial(initial), true, true), [Settle(AsSettlement(Threw(e)))] + later).cells
      == LoadState(initial, false, Some(ErrorString(e)))
    ensures e.name != "" && e.message != "" ==>
      Replay(RequestState(Initial(initial), true, true), [Settle(AsSettlement(Threw(e)))] + later).cells.error
      == Some(e.name + ": " + e.message)
  {
    LoadOutcomes(initial, [Settle(AsSettlement(Threw(e)))] + later);
  }

  // ---------------------------------------------------------------------------
  // Skills

  /**
   * The memoised `for (const s of items)` loop, read back with Object.entries,
   * here on an object without inherited properties (see GroupedAsWritten for
   * the loop over `{}`, which agrees unless a category names an inherited one).
   */
  method Skills(items: seq<Skill>) returns (r: GroupResult)
    ensures r == Entries(Grouped(items))
    ensures (forall j :: 0 <= j < |items| ==> items[j].category !in ObjectPrototypeNames) ==> r == GroupedAsWritten(items)
  {
    r := Group(items, false);
    if forall j :: 0 <= j < |items| ==> items[j].category !in ObjectPrototypeNames {
      AsWrittenAgrees(items);
    }
  }

  // ---------------------------------------------------------------------------
  // Timeline and Projects

  /** `[...exp, ...edu]`: experience first, then education, each in its own order, nothing dropped or reordered. */
  function MergeTimeline(exp: seq<TimelineEntry>, edu: seq<TimelineEntry>): (r: seq<TimelineEntry>)
    ensures |r| == |exp| + |edu|
    ensures forall i :: 0 <= i < |exp| ==> r[i] == exp[i]
    ensures forall j :: 0 <= j < |edu| ==> r[|exp| + j] == edu[j]
    ensures multiset(r) == multiset(exp) + multiset(edu)
  {
    exp + edu
  }

  /** The paragraph `summary || details`, rendered only when one of them is truthy. */
  function Details(e: TimelineEntry): (r: Option<JsValue>)
    ensures r.Some? <==> Truthy(e.summary) || Truthy(e.details)
    ensures r.Some? ==> Truthy(r.value)
    ensures Truthy(e.summary) ==> r == Some(e.summary)
    ensures !Truthy(e.summary) && Truthy(e.details) ==> r == Some(e.details)
  {
    var text := Or(e.summary, e.details);
    if Truthy(text) then Some(text) else None
  }

  /** A project links to its demo, else its repository, else `'#'`. */
  function ProjectHref(p: Project): (r: JsValue)
    ensures Truthy(r)
    ensures Truthy(p.demo) ==> r == p.demo
    ensures !Truthy(p.demo) && Truthy(p.repo) ==> r == p.repo
    ensures !Truthy(p.demo) && !Truthy(p.repo) ==> r == Str("#")
  {
    Or(Or(p.demo, p.repo), Str("#"))
  }

  // ---------------------------------------------------------------------------
  // Contact

  /** What a non-ok response throws. */
  const SendFailure: JsError := JsError("Error", "Fehler beim Senden")

  datatype ContactState = ContactState(form: Message, sent: bool, error: string)

  /** What the error cell holds after a submission with this response: empty on success, else `String(err)`. */
  function SubmitError(response: Response): (r: string)
    ensures r == "" <==> response.Ok? || (response.Throws? && response.error.name == "" && response.error.message == "")
    ensures response == NotOk ==> r == "Error: Fehler beim Senden"
    ensures response.Throws? ==> r == ErrorString(response.error)
  {
    match response
    case Ok => ""
    case NotOk => SendFailureText(); ErrorString(SendFailure)
    case Throws(e) => ErrorString(e)
  }

  lemma SendFailureText()
    ensures ErrorString(SendFailure) == "Error: Fehler beim Senden"
  {
    assert SendFailure.name + ": " + SendFailure.message == "Error: Fehler beim Senden";
  }

  /**
   * One visitor action. Once `sent` holds only the confirmation is rendered,
   * so no action reaches the form. A submission clears the error, then an ok
   * response sets `sent`; a non-ok response or a thrown error is caught and
   * its text stored as the error.
   */
  function ContactStep(s: ContactState, a: Action): (r: ContactState)
    ensures s.sent ==> r == s
    ensures r.sent <==> s.sent || a == Submit(Ok)
    ensures !s.sent && a.Submit? ==> r.form == s.form && r.error == SubmitError(a.response)
    ensures !s.sent && a.Edit? ==> r.form == EditField(s.form, a.field, a.value) && r.error == s.error
  {
    if s.sent then s
    else
      match a
      case Edit(f, v) => s.(form := EditField(s.form, f, v))
      case Submit(response) =>
        if response.Ok? then s.(sent := true, error := "") else s.(error := SubmitError(response))
  }

  function ContactRun(s: ContactState, acts: seq<Action>): ContactState
    decreases |acts|
  {
    if acts == [] then s else ContactRun(ContactStep(s, acts[0]), acts[1..])
  }

  /** The error a sequence of actions leaves, read from its end: that of the last submission, if any. */
  function LastSubmitError(start: string, acts: seq<Action>): (r: string)
    ensures (forall i :: 0 <= i < |acts| ==> acts[i].Edit?) ==> r == start
    decreases |acts|
  {
    if acts == [] then start
    else if acts[|acts| - 1].Submit? then SubmitError(acts[|acts| - 1].response)
    else LastSubmitError(start, acts[..|acts| - 1])
  }

  /** LastSubmitError is the error of the submission after which only edits follow. */
  lemma {:induction false} LastSubmitErrorIsLast(start: string, acts: seq<Action>, i: nat)
    requires i < |acts| && acts[i].Submit?
    requires forall j :: i < j < |acts| ==> acts[j].Edit?
    ensures LastSubmitError(start, acts) == SubmitError(acts[i].response)
    decreases |acts|
  {
    if i < |acts| - 1 {
      var init := acts[..|acts| - 1];
      assert init[i] == acts[i];
      LastSubmitErrorIsLast(start, init, i);
    }
  }

  lemma {:induction false} ContactRunAppend(s: ContactState, a: seq<Action>, b: seq<Action>)
    ensures ContactRun(s, a + b) == ContactRun(ContactRun(s, a), b)
    decreases |a|
  {
    if a != [] {
      assert (a + b)[1..] == a[1..] + b;
      ContactRunAppend(ContactStep(s, a[0]), a[1..], b);
    } else {
      assert a + b == b;
    }
  }

  /** Once the message is sent, nothing the visitor does changes anything. */
  lemma {:induction false} SentIsFinal(s: ContactState, acts: seq<Action>)
    requires s.sent
    ensures ContactRun(s, acts) == s
    decreases |acts|
  {
    if acts != [] {
      SentIsFinal(ContactStep(s, acts[0]), acts[1..]);
    }
  }

  /** The message ends sent exactly when it started sent or some submission got an ok response. */
  lemma {:induction false} SentIffOkResponse(s: ContactState, acts: seq<Action>)
    ensures ContactRun(s, acts).sent <==> s.sent || exists i :: 0 <= i < |acts| && acts[i] == Submit(Ok)
    decreases |acts|
  {
    if acts != [] {
      SentIffOkResponse(ContactStep(s, acts[0]), acts[1..]);
      if exists i :: 0 <= i < |acts[1..]| && acts[1..][i] == Submit(Ok) {
        var i :| 0 <= i < |acts[1..]| && acts[1..][i] == Submit(Ok);
        assert acts[i + 1] == Submit(Ok);
      }
      if exists i :: 0 <= i < |acts| && acts[i] == Submit(Ok) {
        var i :| 0 <= i < |acts| && acts[i] == Submit(Ok);
        if i > 0 {
          assert acts[1..][i - 1] == Submit(Ok);
        }
      }
    }
  }

  /** While the message is unsent, the error shown is that of the last submission (or the starting one if none). */
  lemma {:induction false} ErrorOfLastSubmission(s: ContactState, acts: seq<Action>)
    requires !ContactRun(s, acts).sent
    ensures ContactRun(s, acts).error == LastSubmitError(s.error, acts)
    decreases |acts|
  {
    if acts != [] {
      var init, last := acts[..|acts| - 1], acts[|acts| - 1];
      assert acts == init + [last];
      ContactRunAppend(s, init, [last]);
      var mid := ContactRun(s, init);
      assert ContactRun(mid, [last]) == ContactStep(mid, last);
      if mid.sent {
        SentIsFinal(mid, [last]);
      }
      ErrorOfLastSubmission(s, init);
    }
  }

  /** A sent message never shows an error: the ok submission cleared it. */
  lemma {:induction false} SentMeansNoError(s: ContactState, acts: seq<Action>)
    requires s.sent ==> s.error == ""
    ensures ContactRun(s, acts).sent ==> ContactRun(s, acts).error == ""
    decreases |acts|
  {
    if acts != [] {
      SentMeansNoError(ContactStep(s, acts[0]), acts[1..]);
    }
  }

  /** The Contact component: the fields' state object, `sent` and `error`. */
  class ContactForm {
    var form: Message
    var sent: bool
    var error: string

    function State(): ContactState
      reads this
    {
      ContactState(form, sent, error)
    }

    constructor ()
      ensures State() == ContactState(Blank, false, "")
    {
      form, sent, error := Blank, false, "";
    }

    /** An onChange handler; the form exists only while the message is unsent. */
    method Edit(f: Field, v: string)
      requires !sent
      modifies this
      ensures State() == ContactStep(old(State()), Action.Edit(f, v))
    {
      form := EditField(form, f, v);
    }

    /** onSubmit: clear the error, post the fields, and throw on a non-ok status; the catch block stores `String(err)`. */
    method Submit(response: Response) returns (posted: Message)
      requires !sent
      modifies this
      ensures posted == old(form)
      ensures State() == ContactStep(old(State()), Action.Submit(response))
    {
      error := "";
      posted := form;
      var thrown: Option<JsError> := None;
      match response {
        case Ok =>
        case NotOk => thrown := Some(SendFailure);
        case Throws(e) => thrown := Some(e);
      }
      if thrown.None? {
        sent := true;
      } else {
        error := ErrorString(thrown.value);
      }
    }
  }

  // ---------------------------------------------------------------------------
  // App

  /** App's `seeded` cell. */
  class App {
    var seeded: bool

    constructor ()
      ensures !seeded
    {
      seeded := false;
    }

    /**
     * The seed effect: POST to `/seed`, then `setSeeded(true)`. The empty `catch`
     * swallows every failure of the POST, so its outcome never matters here.
     */
    method Seed()
      modifies this
      ensures seeded
    {
      seeded := true;
    }
  }
}
