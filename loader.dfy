/**
 * The resource loader (`useFetch` in both copies of the page). Three state
 * cells hold (data, loading, error); each run of the effect issues one request
 * and owns one liveness flag (`mounted` in one copy, `active` in the other)
 * that the effect's cleanup clears. When the request settles, every setter is
 * guarded by that flag, so a request whose flag is cleared changes nothing.
 *
 * A pure state machine (LoadState, Step, Replay) specifies the loader; the
 * classes Cell and Request are the mutable version, each method tied to Step.
 */
module Loader {
  import opened Js

  /** The three cells the hook returns. */
  datatype LoadState<T, E> = LoadState(data: T, loading: bool, error: Option<E>)

  /** The state the hook starts in: the caller's initial data, loading, no error. */
  function Initial<T, E>(initial: T): LoadState<T, E> {
    LoadState(initial, true, None)
  }

  /** How a request settles: the parsed body, or the value thrown by fetch or by parsing. */
  datatype Settlement<T, E> = Resolved(body: T) | Rejected(err: E)

  /** The setters a settled request runs while its flag is set: data or error, then loading := false. */
  function Apply<T, E>(s: LoadState<T, E>, outcome: Settlement<T, E>): (r: LoadState<T, E>)
    ensures !r.loading
    ensures outcome.Resolved? ==> r.data == outcome.body && r.error == s.error
    ensures outcome.Rejected? ==> r.data == s.data && r.error == Some(outcome.err)
  {
    match outcome
    case Resolved(body) => s.(data := body, loading := false)
    case Rejected(err) => s.(error := Some(err), loading := false)
  }

  /** One request: the cells it writes to, its liveness flag, and whether it is still in flight. */
  datatype RequestState<T, E> = RequestState(cells: LoadState<T, E>, mounted: bool, pending: bool)

  datatype Event<T, E> = Settle(outcome: Settlement<T, E>) | Cleanup

  /** What one event does to a request. A request settles at most once. */
  function Step<T, E>(r: RequestState<T, E>, ev: Event<T, E>): (r': RequestState<T, E>)
    ensures !r.mounted || !r.pending ==> r'.cells == r.cells
    ensures ev.Cleanup? ==> !r'.mounted && r'.pending == r.pending && r'.cells == r.cells
    ensures ev.Settle? ==> !r'.pending && r'.mounted == r.mounted
    ensures ev.Settle? && r.mounted && r.pending ==> r'.cells == Apply(r.cells, ev.outcome)
  {
    match ev
    case Cleanup => r.(mounted := false)
    case Settle(outcome) =>
      if !r.pending then r
      else RequestState(if r.mounted then Apply(r.cells, outcome) else r.cells, r.mounted, false)
  }

  function Replay<T, E>(r: RequestState<T, E>, evs: seq<Event<T, E>>): RequestState<T, E>
    decreases |evs|
  {
    if evs == [] then r else Replay(Step(r, evs[0]), evs[1..])
  }

  /** What `run()` meets: fetch and parsing gave a body, or one of them threw. */
  datatype FetchOutcome<T> = Body(json: T) | Threw(thrown: JsError)

  // ---------------------------------------------------------------------------
  // Lemmas

  /** Once the flag is cleared or the request has settled, no event changes the cells again. */
  lemma {:induction false} Frozen<T, E>(r: RequestState<T, E>, evs: seq<Event<T, E>>)
    requires !r.mounted || !r.pending
    ensures Replay(r, evs).cells == r.cells
    ensures !r.mounted ==> !Replay(r, evs).mounted
    ensures !r.pending ==> !Replay(r, evs).pending
    decreases |evs|
  {
    if evs != [] {
      Frozen(Step(r, evs[0]), evs[1..]);
    }
  }

  lemma {:induction false} ReplayAppend<T, E>(r: RequestState<T, E>, a: seq<Event<T, E>>, b: seq<Event<T, E>>)
    ensures Replay(r, a + b) == Replay(Replay(r, a), b)
    decreases |a|
  {
    if a != [] {
      assert (a + b)[1..] == a[1..] + b;
      ReplayAppend(Step(r, a[0]), a[1..], b);
    } else {
      assert a + b == b;
    }
  }

  /** Whatever happens after cleanup, the cells stay as they were at cleanup. */
  lemma CleanupFreezes<T, E>(r: RequestState<T, E>, before: seq<Event<T, E>>, after: seq<Event<T, E>>)
    ensures Replay(r, before + [Cleanup] + after).cells == Replay(r, before + [Cleanup]).cells
  {
    ReplayAppend(r, before + [Cleanup], after);
    ReplayAppend(r, before, [Cleanup]);
    Frozen(Replay(r, before + [Cleanup]), after);
  }

  /**
   * A freshly started request, from cells s, ends in one of three ways: it
   * settles first and the cells take its outcome (data or error, loading
   * false), or it is cleaned up first, or it never settles; in the last two
   * cases the cells are exactly s.
   */
  lemma RequestOutcome<T, E>(s: LoadState<T, E>, evs: seq<Event<T, E>>)
    ensures evs != [] && evs[0].Settle? ==> Replay(RequestState(s, true, true), evs).cells == Apply(s, evs[0].outcome)
    ensures (evs == [] || evs[0].Cleanup?) ==> Replay(RequestState(s, true, true), evs).cells == s
  {
    if evs != [] {
      Frozen(Step(RequestState(s, true, true), evs[0]), evs[1..]);
    }
  }

  /**
   * Started from the initial state: a body replaces data and clears loading,
   * leaving error null; a failure sets error and clears loading, leaving the
   * initial data; without a settlement loading stays true.
   */
  lemma LoadOutcomes<T, E>(initial: T, evs: seq<Event<T, E>>)
    ensures evs != [] && evs[0].Settle? && evs[0].outcome.Resolved? ==>
      Replay(RequestState(Initial(initial), true, true), evs).cells == LoadState(evs[0].outcome.body, false, None)
    ensures evs != [] && evs[0].Settle? && evs[0].outcome.Rejected? ==>
      Replay(RequestState(Initial(initial), true, true), evs).cells == LoadState(initial, false, Some(evs[0].outcome.err))
    ensures (evs == [] || evs[0].Cleanup?) ==>
      Replay(RequestState(Initial(initial), true, true), evs).cells == Initial(initial)
  {
    RequestOutcome(Initial(initial), evs);
  }

  // ---------------------------------------------------------------------------
  // The mutable version

  /** The three useState cells of one hook instance. */
  class Cell<T, E> {
    var data: T
    var loading: bool
    var error: Option<E>

    function Current(): LoadState<T, E>
      reads this
    {
      LoadState(data, loading, error)
    }

    constructor (initial: T)
      ensures Current() == Initial(initial)
    {
      data, loading, error := initial, true, None;
    }
  }

  /** One run of the effect: the request it issued (if any) and its liveness flag. */
  class Request<T, E> {
    const cell: Cell<T, E>
    var mounted: bool
    var pending: bool

    function State(): RequestState<T, E>
      reads this, cell
    {
      RequestState(cell.Current(), mounted, pending)
    }

    /** The effect body: set the flag, and issue the request when `issue` holds. */
    constructor (cell: Cell<T, E>, issue: bool)
      ensures this.cell == cell && mounted && pending == issue
    {
      this.cell := cell;
      mounted, pending := true, issue;
    }

    /** The request resolved and its body parsed: `if (mounted) setData(json)`, then the finally block. */
    method Resolve(body: T)
      requires pending
      modifies this, cell
      ensures State() == Step(old(State()), Settle(Resolved(body)))
      ensures old(mounted) ==> cell.data == body && !cell.loading && cell.error == old(cell.error)
      ensures !old(mounted) ==> unchanged(cell)
    {
      if mounted {
        cell.data := body;
      }
      if mounted {
        cell.loading := false;
      }
      pending := false;
    }

    /** fetch or parsing threw: `if (mounted) setError(err)`, then the finally block. */
    method Fail(err: E)
      requires pending
      modifies this, cell
      ensures State() == Step(old(State()), Settle(Rejected(err)))
      ensures old(mounted) ==> cell.data == old(cell.data) && !cell.loading && cell.error == Some(err)
      ensures !old(mounted) ==> unchanged(cell)
    {
      if mounted {
        cell.error := Some(err);
      }
      if mounted {
        cell.loading := false;
      }
      pending := false;
    }

    /** The effect's cleanup: clear the flag. */
    method Teardown()
      modifies this
      ensures State() == Step(old(State()), Cleanup)
      ensures !mounted && pending == old(pending)
    {
      mounted := false;
    }
  }
}
