/**
 * The first, concurrency-bounded poller (`Fetcher`). Its timer keeps the number
 * of outstanding remote `get` calls topped up to `concurrentRequestLimit`;
 * every completion, success or error, gives one slot back and emits what came
 * in. The timer handle `__i` is `armed`; a tick of the timer is `Fetch`.
 *
 * The pure part (state, steps, traces) is the specification; the class below
 * keeps the source's fields and is proved to follow it step by step.
 */
module FetcherV1 {
  import opened Messages

  /** What a completion emits: `emit("results", results)` or `emit("error", err)`. */
  datatype Emission = EmitResults(results: Payload) | EmitError(reason: string)

  /**
   * The fetcher's observable state. `inFlight` counts the remote calls that have
   * been dispatched and not yet called back; it is the environment's view, kept
   * to say which completions can happen.
   */
  datatype FetcherState = FetcherState(
    running: bool,
    shuttingDown: bool,
    armed: bool,
    outstanding: int,
    inFlight: nat,
    emitted: seq<Emission>)

  /** A fresh fetcher: not running, no timer, nothing outstanding. */
  function Initial(): FetcherState {
    FetcherState(false, false, false, 0, 0, [])
  }

  /** `start`: always sets `running`; registers a timer only if none is set and not shutting down. */
  function Started(s: FetcherState): FetcherState {
    s.(running := true, armed := s.armed || !s.shuttingDown)
  }

  /** One timer tick, as the loop in `_fetch` leaves it: one dispatch per missing slot. */
  function ToppedUp(s: FetcherState, limit: int): FetcherState {
    if s.outstanding < limit then
      s.(outstanding := limit, inFlight := s.inFlight + (limit - s.outstanding))
    else
      s
  }

  /** The `fetch` callback: the counter goes down on both paths, then one emission. */
  function Completed(s: FetcherState, result: FetchResult): FetcherState
    requires s.inFlight > 0
  {
    var emission := match result
      case Fetched(p) => EmitResults(p)
      case FetchFailed(reason) => EmitError(reason);
    s.(outstanding := s.outstanding - 1, inFlight := s.inFlight - 1, emitted := s.emitted + [emission])
  }

  /** `stop`: clears `running`, and clears and forgets the timer if there is one. */
  function Stopped(s: FetcherState): FetcherState {
    s.(running := false, armed := false)
  }

  /** `shutdown`: sets `shuttingDown`, then stops. */
  function ShutDown(s: FetcherState): FetcherState {
    Stopped(s.(shuttingDown := true))
  }

  /** The things that can happen to a fetcher, in whatever order the environment chooses. */
  datatype Event = Start | Tick | Complete(result: FetchResult) | Stop | Shutdown

  /**
   * One event. A tick only fires while a timer is registered, and a completion
   * only arrives for a call that is in flight; otherwise the event is not possible
   * and the state stays as it is.
   */
  function Step(s: FetcherState, limit: int, e: Event): FetcherState {
    match e
    case Start => Started(s)
    case Tick => if s.armed then ToppedUp(s, limit) else s
    case Complete(r) => if s.inFlight > 0 then Completed(s, r) else s
    case Stop => Stopped(s)
    case Shutdown => ShutDown(s)
  }

  /** The state after a whole sequence of events. */
  function Run(s: FetcherState, limit: int, es: seq<Event>): FetcherState
    decreases |es|
  {
    if es == [] then s else Run(Step(s, limit, es[0]), limit, es[1..])
  }

  /**
   * The counter invariant: the counter is exactly the number of calls in flight,
   * it never exceeds the limit (or is 0 when the limit is not positive), and a
   * shut-down fetcher holds no timer.
   */
  predicate Inv(s: FetcherState, limit: int) {
    && 0 <= s.outstanding
    && s.outstanding == s.inFlight
    && (s.outstanding <= limit || s.outstanding == 0)
    && (s.shuttingDown ==> !s.armed)
  }

  lemma StepKeepsInv(s: FetcherState, limit: int, e: Event)
    requires Inv(s, limit)
    ensures Inv(Step(s, limit, e), limit)
  {
  }

  /** Every sequence of events keeps the counter invariant. */
  lemma {:induction false} RunKeepsInv(s: FetcherState, limit: int, es: seq<Event>)
    requires Inv(s, limit)
    ensures Inv(Run(s, limit, es), limit)
    decreases |es|
  {
    if es != [] {
      StepKeepsInv(s, limit, es[0]);
      RunKeepsInv(Step(s, limit, es[0]), limit, es[1..]);
    }
  }

  /** From a fresh fetcher, however ticks and completions interleave, 0 <= counter <= limit. */
  lemma CounterNeverExceedsLimit(limit: int, es: seq<Event>)
    requires limit >= 0
    ensures 0 <= Run(Initial(), limit, es).outstanding <= limit
    ensures Run(Initial(), limit, es).outstanding == Run(Initial(), limit, es).inFlight
  {
    RunKeepsInv(Initial(), limit, es);
  }

  /**
   * Once shut down, a fetcher never registers a timer again and never dispatches
   * another call, whatever happens next.
   */
  lemma {:induction false} ShutdownIsFinal(s: FetcherState, limit: int, es: seq<Event>)
    requires s.shuttingDown && !s.armed
    ensures Run(s, limit, es).shuttingDown
    ensures !Run(s, limit, es).armed
    ensures Run(s, limit, es).inFlight <= s.inFlight
    decreases |es|
  {
    if es != [] {
      ShutdownIsFinal(Step(s, limit, es[0]), limit, es[1..]);
    }
  }

  /** After `shutdown`, `start` sets `running` but registers no timer. */
  lemma StartAfterShutdownArmsNothing(s: FetcherState)
    ensures Started(ShutDown(s)).running
    ensures !Started(ShutDown(s)).armed
  {
  }

  /** `stop` forgets the handle, so a later `start` (not shut down) registers a timer again. */
  lemma StopThenStartRearms(s: FetcherState)
    requires !s.shuttingDown
    ensures Started(Stopped(s)).armed && Started(Stopped(s)).running
  {
  }

  /** `stop` is idempotent, and so is `shutdown`. */
  lemma StopIsIdempotent(s: FetcherState)
    ensures Stopped(Stopped(s)) == Stopped(s)
    ensures ShutDown(ShutDown(s)) == ShutDown(s)
    ensures !Stopped(s).running && !Stopped(s).armed
  {
  }

  /**
   * The fetcher object. `__i` becomes `armed`; the function `fetch` it wraps is
   * the remote call, whose callback is `Complete`.
   */
  class Fetcher {
    const concurrentRequestLimit: int
    var running: bool
    var shuttingDown: bool
    var armed: bool
    var outstandingRequests: int
    ghost var inFlight: nat
    var emitted: seq<Emission>

    ghost function State(): FetcherState
      reads this
    {
      FetcherState(running, shuttingDown, armed, outstandingRequests, inFlight, emitted)
    }

    ghost predicate Valid()
      reads this
    {
      Inv(State(), concurrentRequestLimit)
    }

    constructor (concurrentRequestLimit: int)
      ensures Valid()
      ensures State() == Initial()
      ensures this.concurrentRequestLimit == concurrentRequestLimit
    {
      this.concurrentRequestLimit := concurrentRequestLimit;
      running := false;
      shuttingDown := false;
      armed := false;
      outstandingRequests := 0;
      inFlight := 0;
      emitted := [];
    }

    method Start()
      requires Valid()
      modifies this
      ensures Valid()
      ensures State() == Started(old(State()))
    {
      running := true;
      if !armed && !shuttingDown {
        armed := true;
      }
    }

    /**
     * `_fetch`, run by the timer (so only while a timer is registered): dispatch
     * calls until the counter reaches the limit.
     */
    method Fetch() returns (dispatched: nat)
      requires Valid() && armed
      modifies this
      ensures Valid()
      ensures State() == ToppedUp(old(State()), concurrentRequestLimit)
      ensures old(outstandingRequests) < concurrentRequestLimit ==>
                outstandingRequests == concurrentRequestLimit
                && dispatched == concurrentRequestLimit - old(outstandingRequests)
      ensures old(outstandingRequests) >= concurrentRequestLimit ==> dispatched == 0
    {
      dispatched := 0;
      while outstandingRequests < concurrentRequestLimit
        invariant outstandingRequests == old(outstandingRequests) + dispatched
        invariant inFlight == old(inFlight) + dispatched
        invariant old(outstandingRequests) < concurrentRequestLimit ==>
                    outstandingRequests <= concurrentRequestLimit
        invariant old(outstandingRequests) >= concurrentRequestLimit ==> dispatched == 0
        invariant running == old(running) && shuttingDown == old(shuttingDown)
        invariant armed == old(armed) && emitted == old(emitted)
        decreases concurrentRequestLimit - outstandingRequests
      {
        outstandingRequests := outstandingRequests + 1;
        inFlight := inFlight + 1;
        dispatched := dispatched + 1;
      }
    }

    /** The callback of one dispatched call. */
    method Complete(result: FetchResult)
      requires Valid() && inFlight > 0
      modifies this
      ensures Valid()
      ensures State() == Completed(old(State()), result)
      ensures outstandingRequests == old(outstandingRequests) - 1
    {
      outstandingRequests := outstandingRequests - 1;
      inFlight := inFlight - 1;
      match result {
        case FetchFailed(reason) =>
          emitted := emitted + [EmitError(reason)];
        case Fetched(p) =>
          emitted := emitted + [EmitResults(p)];
      }
    }

    method Stop()
      requires Valid()
      modifies this
      ensures Valid()
      ensures State() == Stopped(old(State()))
    {
      running := false;
      if armed {
        armed := false;
      }
    }

    method Shutdown()
      requires Valid()
      modifies this
      ensures Valid()
      ensures State() == ShutDown(old(State()))
    {
      shuttingDown := true;
      // the body of `stop`, inlined: the invariant is broken until the timer is gone
      running := false;
      if armed {
        armed := false;
      }
    }
  }
}
