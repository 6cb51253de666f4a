/**
 * The poller the pull buffer actually uses (`Fetcher2`). Each timer tick
 * dispatches at most one remote `get`, and only while fewer than two are
 * outstanding; successful results accumulate until there are more than
 * `minimumResultSize` of them and nothing is outstanding, and are then handed
 * to `onDone` as one wave.
 *
 * Reading of the callback in `_fetch`: it mentions `me` (never declared in
 * `_fetch`), `fetcher.stop()`, `me.fetch.stop()` and `this.running`. All of
 * `me`, `fetcher` and `this` are read as the fetcher instance itself, and
 * `me.fetch.stop()` as that instance's `stop`.
 *
 * Two quirks are kept as written: the error path does not give its slot back
 * (the counter stays up), and `stop` clears the interval but leaves the handle
 * `__i` set, so a later `start` finds a handle and arms nothing. `armed` below
 * is "`__i` is truthy"; `ticking` is "that interval has not been cleared".
 */
module FetcherV2 {
  import opened Messages

  /** `_fetch` dispatches only while fewer than this many calls are outstanding. */
  const DispatchCeiling := 2

  /**
   * `_outstandingRequestsLimit`, recorded for reference only: the constructor
   * sets it and `_fetch` compares against `DispatchCeiling` instead, so nothing
   * in the model reads it either.
   */
  const OutstandingRequestsLimit := 5

  /** What a completion does with `onDone`: nothing, `onDone(err)`, or `onDone(null, batch)`. */
  datatype Done = NotCalled | DoneError(reason: string) | DoneBatch(batch: seq<Message>)

  /**
   * The fetcher's state. `inFlight` counts the remote calls dispatched and not
   * yet called back (the environment's view); `outstanding` is the source's
   * `_outstandingRequests`, which the error path does not decrement.
   */
  datatype FetcherState = FetcherState(
    running: bool,
    shuttingDown: bool,
    armed: bool,
    ticking: bool,
    outstanding: int,
    inFlight: nat,
    results: seq<Message>)

  function Initial(): FetcherState {
    FetcherState(false, false, false, false, 0, 0, [])
  }

  /** `start`: sets `running`; registers an interval only when no handle is set and not shutting down. */
  function Started(s: FetcherState): FetcherState {
    if !s.armed && !s.shuttingDown then
      s.(running := true, armed := true, ticking := true)
    else
      s.(running := true)
  }

  /** `_fetch`: one dispatch when fewer than two calls are outstanding. */
  function Ticked(s: FetcherState): FetcherState {
    if s.outstanding < DispatchCeiling then
      s.(outstanding := s.outstanding + 1, inFlight := s.inFlight + 1)
    else
      s
  }

  /** `stop`: clears `running` and the interval; the handle itself stays set. */
  function Stopped(s: FetcherState): FetcherState {
    s.(running := false, ticking := if s.armed then false else s.ticking)
  }

  function ShutDown(s: FetcherState): FetcherState {
    Stopped(s.(shuttingDown := true))
  }

  /**
   * The callback of one dispatched call, `minimumResultSize` being `min`.
   * Error: stop, then `onDone(err)`; the counter and the results stay.
   * Success: append, decrement; above `min`, stop if running, and when nothing
   * is outstanding hand the whole accumulation to `onDone` and empty it.
   */
  function Completed(s: FetcherState, min: int, result: FetchResult): (FetcherState, Done)
    requires s.inFlight > 0
  {
    match result
    case FetchFailed(reason) =>
      (Stopped(s).(inFlight := s.inFlight - 1), DoneError(reason))
    case Fetched(p) =>
      var acc := s.results + Flatten(p);
      var s1 := s.(results := acc, outstanding := s.outstanding - 1, inFlight := s.inFlight - 1);
      if |acc| > min then
        var s2 := if s1.running then Stopped(s1) else s1;
        if s2.outstanding == 0 then (s2.(results := []), DoneBatch(acc)) else (s2, NotCalled)
      else
        (s1, NotCalled)
  }

  datatype Event = Start | Tick | Complete(result: FetchResult) | Stop | Shutdown

  /**
   * One event. The interval fires only while it has not been cleared, and a
   * callback only arrives for a call in flight; otherwise nothing happens.
   */
  function Step(s: FetcherState, min: int, e: Event): (FetcherState, Done) {
    match e
    case Start => (Started(s), NotCalled)
    case Tick => (if s.ticking then Ticked(s) else s, NotCalled)
    case Complete(r) => if s.inFlight > 0 then Completed(s, min, r) else (s, NotCalled)
    case Stop => (Stopped(s), NotCalled)
    case Shutdown => (ShutDown(s), NotCalled)
  }

  /** The final state and what each event did with `onDone`, in order. */
  function Run(s: FetcherState, min: int, es: seq<Event>): (r: (FetcherState, seq<Done>))
    ensures |r.1| == |es|
    decreases |es|
  {
    if es == [] then
      (s, [])
    else
      var first := Step(s, min, es[0]);
      var rest := Run(first.0, min, es[1..]);
      (rest.0, [first.1] + rest.1)
  }

  /** How many waves a sequence of `onDone` outcomes delivers. */
  function Waves(ds: seq<Done>): (w: nat)
    ensures w <= |ds|
    ensures w > 0 ==> exists k :: 0 <= k < |ds| && ds[k].DoneBatch?
  {
    if ds == [] then 0 else (if ds[0].DoneBatch? then 1 else 0) + Waves(ds[1..])
  }

  /**
   * The invariant: calls in flight never exceed the counter, which never exceeds
   * two; an active interval belongs to a running fetcher with a handle; a
   * shut-down fetcher has no active interval; before any handle exists nothing
   * has been dispatched or accumulated.
   */
  predicate Inv(s: FetcherState) {
    && s.inFlight <= s.outstanding <= DispatchCeiling
    && (s.ticking ==> s.armed && s.running)
    && (s.shuttingDown ==> !s.ticking)
    && (!s.armed ==> s.outstanding == 0 && s.results == [])
  }

  /** Nothing more can happen: the handle is set, the interval cleared, no call in flight. */
  predicate Quiescent(s: FetcherState) {
    s.armed && !s.ticking && s.inFlight == 0
  }

  lemma StepKeepsInv(s: FetcherState, min: int, e: Event)
    requires Inv(s)
    ensures Inv(Step(s, min, e).0)
  {
  }

  lemma {:induction false} RunKeepsInv(s: FetcherState, min: int, es: seq<Event>)
    requires Inv(s)
    ensures Inv(Run(s, min, es).0)
    decreases |es|
  {
    if es != [] {
      StepKeepsInv(s, min, es[0]);
      RunKeepsInv(Step(s, min, es[0]).0, min, es[1..]);
    }
  }

  /** From a fresh fetcher, ticks alone never push the counter above two. */
  lemma CounterNeverExceedsTwo(min: int, es: seq<Event>)
    ensures 0 <= Run(Initial(), min, es).0.outstanding <= DispatchCeiling
  {
    RunKeepsInv(Initial(), min, es);
  }

  /** A wave leaves the fetcher quiescent: its interval is cleared and nothing is in flight. */
  lemma WaveLeavesQuiescent(s: FetcherState, min: int, r: FetchResult)
    requires Inv(s) && s.inFlight > 0
    requires Completed(s, min, r).1.DoneBatch?
    ensures Quiescent(Completed(s, min, r).0)
  {
  }

  /** A quiescent fetcher stays quiescent and never calls `onDone` again. */
  lemma {:induction false} QuiescentStaysSilent(s: FetcherState, min: int, es: seq<Event>)
    requires Inv(s) && Quiescent(s)
    ensures Quiescent(Run(s, min, es).0)
    ensures forall k :: 0 <= k < |es| ==> Run(s, min, es).1[k] == NotCalled
    decreases |es|
  {
    if es != [] {
      var first := Step(s, min, es[0]);
      QuiescentStaysSilent(first.0, min, es[1..]);
      assert Run(s, min, es).1 == [first.1] + Run(first.0, min, es[1..]).1;
    }
  }

  lemma {:induction false} SilentHasNoWaves(ds: seq<Done>)
    requires forall k :: 0 <= k < |ds| ==> ds[k] == NotCalled
    ensures Waves(ds) == 0
    decreases |ds|
  {
    if ds != [] {
      SilentHasNoWaves(ds[1..]);
    }
  }

  /**
   * However starts, stops, ticks and callbacks interleave, a fetcher delivers at
   * most one wave: the wave's own callback stopped it, its handle stays set, and
   * no later `start` re-arms it.
   */
  lemma {:induction false} AtMostOneWave(s: FetcherState, min: int, es: seq<Event>)
    requires Inv(s)
    ensures Waves(Run(s, min, es).1) <= 1
    decreases |es|
  {
    if es != [] {
      var first := Step(s, min, es[0]);
      var rest := Run(first.0, min, es[1..]);
      assert Run(s, min, es).1 == [first.1] + rest.1;
      assert ([first.1] + rest.1)[1..] == rest.1;
      StepKeepsInv(s, min, es[0]);
      if first.1.DoneBatch? {
        WaveLeavesQuiescent(s, min, es[0].result);
        QuiescentStaysSilent(first.0, min, es[1..]);
        SilentHasNoWaves(rest.1);
      } else {
        AtMostOneWave(first.0, min, es[1..]);
      }
    }
  }

  lemma AtMostOneWaveFromFresh(min: int, es: seq<Event>)
    ensures Waves(Run(Initial(), min, es).1) <= 1
  {
    AtMostOneWave(Initial(), min, es);
  }

  /**
   * Once the interval of a handle has been cleared, it never fires again: `stop`
   * leaves `__i` set, so `start` only sets `running`.
   */
  lemma {:induction false} ClearedIntervalStaysCleared(s: FetcherState, min: int, es: seq<Event>)
    requires Inv(s) && s.armed && !s.ticking
    ensures Run(s, min, es).0.armed && !Run(s, min, es).0.ticking
    ensures Run(s, min, es).0.inFlight <= s.inFlight
    decreases |es|
  {
    if es != [] {
      StepKeepsInv(s, min, es[0]);
      ClearedIntervalStaysCleared(Step(s, min, es[0]).0, min, es[1..]);
    }
  }

  /** `stop` then `start`: running again, but no interval. */
  lemma StartAfterStopArmsNothing(s: FetcherState)
    requires s.armed
    ensures Started(Stopped(s)).running && !Started(Stopped(s)).ticking
  {
  }

  /** A shut-down fetcher never has an active interval again. */
  lemma {:induction false} ShutdownIsFinal(s: FetcherState, min: int, es: seq<Event>)
    requires Inv(s) && s.shuttingDown
    ensures Run(s, min, es).0.shuttingDown && !Run(s, min, es).0.ticking
    decreases |es|
  {
    if es != [] {
      StepKeepsInv(s, min, es[0]);
      ShutdownIsFinal(Step(s, min, es[0]).0, min, es[1..]);
    }
  }

  /**
   * The error path calls `onDone(err)`, keeps the counter and the results, and
   * stops the fetcher; from then on no interval fires again.
   */
  lemma ErrorIsFatal(s: FetcherState, min: int, reason: string, es: seq<Event>)
    requires Inv(s) && s.inFlight > 0
    ensures Completed(s, min, FetchFailed(reason)).1 == DoneError(reason)
    ensures Completed(s, min, FetchFailed(reason)).0.outstanding == s.outstanding
    ensures Completed(s, min, FetchFailed(reason)).0.results == s.results
    ensures !Run(Completed(s, min, FetchFailed(reason)).0, min, es).0.ticking
  {
    var after := Completed(s, min, FetchFailed(reason)).0;
    assert Inv(after) && after.armed && !after.ticking;
    ClearedIntervalStaysCleared(after, min, es);
  }

  /**
   * Success appends the call's results after those already accumulated and gives
   * its slot back; `onDone(null, batch)` fires exactly when the accumulation
   * exceeds `min` and nothing is left outstanding, and then the accumulation is
   * emptied.
   */
  lemma SuccessAccumulates(s: FetcherState, min: int, p: Payload)
    requires Inv(s) && s.inFlight > 0
    ensures var (t, d) := Completed(s, min, Fetched(p));
      && t.outstanding == s.outstanding - 1
      && (d.DoneBatch? <==> |s.results + Flatten(p)| > min && s.outstanding == 1)
      && (d.DoneBatch? ==> d.batch == s.results + Flatten(p) && t.results == [])
      && (!d.DoneBatch? ==> d == NotCalled && t.results == s.results + Flatten(p))
  {
  }

  /** The fetcher object; `onDone` is not stored, its calls are what `Complete` returns. */
  class Fetcher2 {
    const minimumResultSize: int
    var running: bool
    var shuttingDown: bool
    var armed: bool
    var ticking: bool
    var outstandingRequests: int
    ghost var inFlight: nat
    var results: seq<Message>
    /** How many waves this fetcher has delivered. */
    ghost var waves: nat

    ghost function State(): FetcherState
      reads this
    {
      FetcherState(running, shuttingDown, armed, ticking, outstandingRequests, inFlight, results)
    }

    ghost predicate Valid()
      reads this
    {
      Inv(State()) && waves <= 1 && (waves == 1 ==> Quiescent(State()))
    }

    constructor (minimumResultSize: int)
      ensures Valid()
      ensures State() == Initial() && waves == 0
      ensures this.minimumResultSize == minimumResultSize
    {
      this.minimumResultSize := minimumResultSize;
      running := false;
      shuttingDown := false;
      armed := false;
      ticking := false;
      outstandingRequests := 0;
      inFlight := 0;
      results := [];
      waves := 0;
    }

    method Start()
      requires Valid()
      modifies this
      ensures Valid() && waves == old(waves)
      ensures State() == Started(old(State()))
    {
      running := true;
      if !armed && !shuttingDown {
        armed := true;
        ticking := true;
      }
    }

    /** `_fetch`, run by the interval (so only while it is active). */
    method Fetch() returns (dispatched: bool)
      requires Valid() && ticking
      modifies this
      ensures Valid() && waves == old(waves)
      ensures State() == Ticked(old(State()))
      ensures dispatched <==> old(outstandingRequests) < DispatchCeiling
      ensures outstandingRequests <= old(outstandingRequests) + 1
    {
      dispatched := outstandingRequests < DispatchCeiling;
      if dispatched {
        outstandingRequests := outstandingRequests + 1;
        inFlight := inFlight + 1;
      }
    }

    /** The callback of one dispatched call; `done` says what it did with `onDone`. */
    method Complete(result: FetchResult) returns (done: Done)
      requires Valid() && inFlight > 0
      modifies this
      ensures Valid()
      ensures (State(), done) == Completed(old(State()), minimumResultSize, result)
      ensures waves == old(waves) + (if done.DoneBatch? then 1 else 0)
    {
      ghost var before := State();
      inFlight := inFlight - 1;
      match result {
        case FetchFailed(reason) =>
          Stop();
          done := DoneError(reason);
        case Fetched(p) =>
          results := results + Flatten(p);
          outstandingRequests := outstandingRequests - 1;
          done := NotCalled;
          if |results| > minimumResultSize {
            if running {
              Stop();
            }
            if outstandingRequests == 0 {
              var batch := results;
              results := [];
              done := DoneBatch(batch);
            }
          }
      }
      if done.DoneBatch? {
        WaveLeavesQuiescent(before, minimumResultSize, result);
        waves := waves + 1;
      }
    }

    method Stop()
      requires Valid()
      modifies this
      ensures Valid() && waves == old(waves)
      ensures State() == Stopped(old(State()))
    {
      running := false;
      if armed {
        ticking := false;
      }
    }

    method Shutdown()
      requires Valid()
      modifies this
      ensures Valid() && waves == old(waves)
      ensures State() == ShutDown(old(State()))
    {
      shuttingDown := true;
      // the body of `stop`, inlined: the invariant is broken until the interval is cleared
      running := false;
      if armed {
        ticking := false;
      }
    }
  }
}
