/** The client's refresh loop: a tick every second that calls
    `Pitchly.refreshAccessToken` with `{ force: false }` once more than six
    minutes have passed since the last successful call. The state is the
    variable `lastRefreshedAt`, whether the next tick is scheduled, and whether
    a call is waiting for its callback; the calls, callbacks and timers are
    recorded as events. */
module Scheduler {
  import opened Wrappers

  const RefreshEveryMs: int := 360000
  const TickDelayMs: int := 1000

  /** `lastRefreshedAt < Date.now() - 360000` */
  predicate Due(lastRefreshedAt: int, now: int) {
    lastRefreshedAt < now - RefreshEveryMs
  }

  /** The callback's `error` argument. */
  datatype CallOutcome = Succeeded | Failed

  /** What the loop does, in order: a remote call, its callback (with the clock
      read inside it), and the arming of the next tick. */
  datatype Event =
    | CallRefresh(force: bool)
    | CallReturned(failed: bool, at: int)
    | ArmTimer(delayMs: int)

  /** Where the loop stands between events: a tick is coming, a call waits for
      its callback, or the callback has run and not yet armed the next tick. */
  datatype Phase = Waiting | Calling | Answered

  /** The order the source allows: a tick either calls or re-arms its timer;
      a call is followed by its callback, and only the callback arms the next
      tick. Anything else is not a run of the loop. */
  function Next(p: Phase, x: Event): Option<Phase> {
    if p == Waiting && x == CallRefresh(false) then Some(Calling)
    else if p == Waiting && x == ArmTimer(TickDelayMs) then Some(Waiting)
    else if p == Calling && x.CallReturned? then Some(Answered)
    else if p == Answered && x == ArmTimer(TickDelayMs) then Some(Waiting)
    else None
  }

  /** The phase after a history, starting from module load (line 43 runs the
      first tick); `None` when the history is not a run of the loop. */
  function Replay(e: seq<Event>): Option<Phase>
    decreases |e|
  {
    if e == [] then Some(Waiting)
    else
      var p := Replay(e[..|e| - 1]);
      if p.None? then None else Next(p.value, e[|e| - 1])
  }

  /** The number of timers armed. */
  function Timers(e: seq<Event>): nat
    decreases |e|
  {
    if e == [] then 0 else Timers(e[..|e| - 1]) + (if e[|e| - 1].ArmTimer? then 1 else 0)
  }

  /** Calls issued and not yet answered. */
  function InFlight(e: seq<Event>): int
    decreases |e|
  {
    if e == [] then 0
    else InFlight(e[..|e| - 1]) + (if e[|e| - 1].CallRefresh? then 1 else if e[|e| - 1].CallReturned? then -1 else 0)
  }

  /** The time of the last callback without an error, 0 if there is none. */
  function LastSuccessAt(e: seq<Event>): int
    decreases |e|
  {
    if e == [] then 0
    else match e[|e| - 1]
      case CallReturned(false, at) => at
      case _ => LastSuccessAt(e[..|e| - 1])
  }

  /** Appending one event: the four history functions take one step. */
  lemma Snoc(e: seq<Event>, x: Event)
    ensures Replay(e + [x]) == if Replay(e).None? then None else Next(Replay(e).value, x)
    ensures Timers(e + [x]) == Timers(e) + (if x.ArmTimer? then 1 else 0)
    ensures InFlight(e + [x]) == InFlight(e) + (if x.CallRefresh? then 1 else if x.CallReturned? then -1 else 0)
    ensures LastSuccessAt(e + [x]) == if x.CallReturned? && !x.failed then x.at else LastSuccessAt(e)
  {
    assert (e + [x])[..|e|] == e;
  }

  /** In a run of the loop, a call is unanswered exactly while the loop is
      `Calling`. */
  lemma {:induction false} InFlightOfPhase(e: seq<Event>)
    requires Replay(e).Some?
    ensures InFlight(e) == if Replay(e) == Some(Calling) then 1 else 0
    decreases |e|
  {
    if e != [] {
      var init := e[..|e| - 1];
      assert e == init + [e[|e| - 1]];
      Snoc(init, e[|e| - 1]);
      InFlightOfPhase(init);
    }
  }

  /** Every prefix of a run of the loop is a run of the loop. */
  lemma {:induction false} ReplayPrefix(e: seq<Event>, k: nat)
    requires Replay(e).Some? && k <= |e|
    ensures Replay(e[..k]).Some?
    decreases |e|
  {
    if k < |e| {
      var init := e[..|e| - 1];
      assert e == init + [e[|e| - 1]];
      Snoc(init, e[|e| - 1]);
      ReplayPrefix(init, k);
      assert init[..k] == e[..k];
    } else {
      assert e[..k] == e;
    }
  }

  /** At most one call is ever in flight: at every point of a run of the loop,
      every call but possibly the last has had its callback. */
  lemma AtMostOneInFlight(e: seq<Event>, k: nat)
    requires Replay(e).Some? && k <= |e|
    ensures 0 <= InFlight(e[..k]) <= 1
  {
    ReplayPrefix(e, k);
    InFlightOfPhase(e[..k]);
  }

  /** A call is only issued, and a timer only armed, when no call is
      unanswered: the next tick is armed from inside the callback, never
      beside a call in flight. */
  lemma SettledBeforeCallOrTimer(e: seq<Event>, x: Event)
    requires x.CallRefresh? || x.ArmTimer?
    requires Replay(e + [x]).Some?
    ensures InFlight(e) == 0
  {
    Snoc(e, x);
    InFlightOfPhase(e);
  }

  /** Arming the next tick before the callback has run is not a run of the
      loop, and neither is a second call before the first one's callback. */
  lemma OnlyTheCallbackArms()
    ensures Replay([CallRefresh(false), ArmTimer(TickDelayMs)]).None?
    ensures Replay([CallRefresh(false), CallRefresh(false)]).None?
  {
    Snoc([], CallRefresh(false));
    Snoc([CallRefresh(false)], ArmTimer(TickDelayMs));
    Snoc([CallRefresh(false)], CallRefresh(false));
  }

  class RefreshLoop {
    /** `lastRefreshedAt` */
    var lastRefreshedAt: int
    /** A run of `refreshAccessToken` is coming: the direct call at load, or a
        timer armed by the previous tick. */
    var scheduled: bool
    /** A call was issued and its callback has not run yet. */
    var pending: bool
    /** Everything the loop has done so far. */
    ghost var events: seq<Event>
    /** The ticks that have run to the end, callback included. */
    ghost var ticks: nat

    ghost predicate Valid()
      reads this
    {
      scheduled == !pending &&
      Replay(events) == Some(if pending then Calling else Waiting) &&
      Timers(events) == ticks &&
      lastRefreshedAt == LastSuccessAt(events)
    }

    /** Module load: `let lastRefreshedAt = 0`, with the first tick about to run. */
    constructor ()
      ensures Valid() && lastRefreshedAt == 0 && scheduled && !pending && events == [] && ticks == 0
    {
      lastRefreshedAt := 0;
      scheduled := true;
      pending := false;
      events := [];
      ticks := 0;
    }

    /** One run of `refreshAccessToken` at clock reading `now`. It runs only
        when scheduled, so never while a call is pending. A tick that calls
        arms nothing; the callback arms the next tick. */
    method Tick(now: int) returns (called: bool)
      requires Valid() && scheduled
      modifies this
      ensures Valid()
      ensures called <==> Due(old(lastRefreshedAt), now)
      ensures lastRefreshedAt == old(lastRefreshedAt)
      ensures pending == called && scheduled == !called
      ensures events == old(events) + [if called then CallRefresh(false) else ArmTimer(TickDelayMs)]
      ensures ticks == old(ticks) + (if called then 0 else 1)
    {
      called := lastRefreshedAt < now - RefreshEveryMs;
      if called {
        Snoc(events, CallRefresh(false));
        events := events + [CallRefresh(false)];
        pending := true;
        scheduled := false;
      } else {
        Snoc(events, ArmTimer(TickDelayMs));
        events := events + [ArmTimer(TickDelayMs)];
        ticks := ticks + 1;
      }
    }

    /** The callback of the pending call, run at clock reading `at`: only a
        call without an error moves `lastRefreshedAt`, and then the next tick
        is armed. */
    method Callback(outcome: CallOutcome, at: int)
      requires Valid() && pending
      modifies this
      ensures Valid()
      ensures lastRefreshedAt == if outcome == Succeeded then at else old(lastRefreshedAt)
      ensures !pending && scheduled
      ensures events == old(events) + [CallReturned(outcome == Failed, at), ArmTimer(TickDelayMs)]
      ensures ticks == old(ticks) + 1
    {
      ghost var before := events;
      var answer := CallReturned(outcome == Failed, at);
      events := events + [answer];
      if outcome == Succeeded {
        lastRefreshedAt := at;
      }
      ghost var answered := events;
      assert answered == before + [answer];
      Snoc(before, answer);
      events := events + [ArmTimer(TickDelayMs)];
      assert events == answered + [ArmTimer(TickDelayMs)];
      Snoc(answered, ArmTimer(TickDelayMs));
      pending := false;
      scheduled := true;
      ticks := ticks + 1;
      assert events == before + [answer, ArmTimer(TickDelayMs)];
    }
  }

  /** The first tick after load finds `lastRefreshedAt = 0` and calls at any
      clock reading past six minutes after the epoch. */
  method FirstTickCalls(now: int) returns (called: bool)
    requires now > RefreshEveryMs
    ensures called
  {
    var loop := new RefreshLoop();
    called := loop.Tick(now);
  }
}
