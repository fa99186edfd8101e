/**
 * Reconnecting to one peer (src/net/network.cpp, scheduleReconnect, attemptReconnect, calculateBackoffMs and
 * resetReconnectState): the peer's entries in the tables, and the timers under way.
 */
module Reconnect {
  import opened Text

  const MAX_ATTEMPTS: nat := 50
  const MAX_DELAY: nat := 30000

  function Pow2(k: nat): nat {
    if k == 0 then 1 else 2 * Pow2(k - 1)
  }

  function Min(a: nat, b: nat): nat {
    if a < b then a else b
  }

  /** calculateBackoffMs. */
  function Backoff(attempts: nat): nat {
    Min(1000 * Pow2(Min(attempts, 5)), MAX_DELAY)
  }

  datatype Address = Address(name: string, ip: string, port: nat)

  /**
   * Timers whose handler has not run yet, each marked when cancelled, and history: the delays waited for, the
   * connections tried, and how often the peer was given up.
   */
  datatype Flight = Flight(armed: map<nat, bool>, next: nat, waits: seq<nat>, tries: nat, gaveUp: nat)

  const GROUNDED: Flight := Flight(map[], 0, [], 0, 0)

  datatype Slot = Slot(info: Option<Address>, attempts: Option<nat>, entry: Option<nat>, queue: Option<seq<string>>,
                       flight: Flight)

  function Count(s: Slot): nat {
    if s.attempts.Some? then s.attempts.value else 0
  }

  function Cancelled(f: Flight, entry: Option<nat>): Flight {
    if entry.Some? && entry.value in f.armed then f.(armed := f.armed[entry.value := true]) else f
  }

  function Arm(s: Slot, delay: nat): Slot {
    var f := Cancelled(s.flight, s.entry);
    s.(entry := Some(f.next),
       flight := f.(armed := f.armed[f.next := false], next := f.next + 1, waits := f.waits + [delay]))
  }

  function Schedule(s: Slot): Slot {
    if s.info.None? then s
    else if Count(s) >= MAX_ATTEMPTS then
      s.(info := None, attempts := None, queue := None, flight := s.flight.(gaveUp := s.flight.gaveUp + 1))
    else Arm(s, Backoff(Count(s)))
  }

  function Attempt(s: Slot): Slot {
    if s.info.None? then s
    else s.(attempts := Some(Count(s) + 1), flight := s.flight.(tries := s.flight.tries + 1))
  }

  /** A timer's handler removes the peer's table entry, whichever timer that entry holds. */
  function Fired(s: Slot, timer: nat, aborted: bool): Slot {
    var ran := s.(entry := None, flight := s.flight.(armed := s.flight.armed - {timer}));
    if aborted then ran else Attempt(ran)
  }

  function Reset(s: Slot): Slot {
    s.(attempts := None, entry := None, flight := Cancelled(s.flight, s.entry))
  }

  // A chain of failures

  /** One round: the peer's timer, if there is one, fires, the connection is tried and fails. */
  function Round(s: Slot): Slot {
    if s.entry.None? then s else Schedule(Fired(s, s.entry.value, false))
  }

  function Rounds(s: Slot, k: nat): Slot {
    if k == 0 then Schedule(s) else Round(Rounds(s, k - 1))
  }

  function Delays(k: nat): seq<nat> {
    seq(k, i requires 0 <= i < k => Backoff(i))
  }

  function Sum(xs: seq<nat>): nat {
    if xs == [] then 0 else Sum(xs[..|xs| - 1]) + xs[|xs| - 1]
  }

  /** A peer whose last connection was good, or that was never tried, and for which no timer is under way. */
  predicate Settled(s: Slot) {
    s.info.Some? && s.attempts.None? && s.entry.None? && s.flight.armed == map[]
  }

  lemma BackoffValues(a: nat)
    ensures Backoff(a) == if a == 0 then 1000
                          else if a == 1 then 2000
                          else if a == 2 then 4000
                          else if a == 3 then 8000
                          else if a == 4 then 16000
                          else MAX_DELAY
  {
    assert Pow2(1) == 2 && Pow2(2) == 4 && Pow2(3) == 8 && Pow2(4) == 16 && Pow2(5) == 32;
  }

  lemma DelaysSnoc(k: nat)
    ensures Delays(k) + [Backoff(k)] == Delays(k + 1)
  {}

  /** The chain after k failures that followed the first: one timer is armed, for the k-th delay. */
  lemma {:induction false} ChainAfter(s: Slot, k: nat)
    requires Settled(s) && k < MAX_ATTEMPTS
    ensures var f, timer := s.flight, s.flight.next + k;
      Rounds(s, k) == Slot(s.info, if k == 0 then None else Some(k), Some(timer), s.queue,
                           Flight(map[timer := false], timer + 1, f.waits + Delays(k + 1), f.tries + k, f.gaveUp))
  {
    hide Backoff;
    if k == 0 {
      FirstRound(s);
    } else {
      hide Settled, Schedule, Fired, Delays;
      ChainAfter(s, k - 1);
      NextRound(Rounds(s, k - 1), k - 1, s.flight.next + k - 1, s.flight.waits);
    }
  }

  lemma FirstRound(s: Slot)
    requires Settled(s)
    ensures var f := s.flight;
      Schedule(s) == Slot(s.info, None, Some(f.next), s.queue,
                          Flight(map[f.next := false], f.next + 1, f.waits + Delays(1), f.tries, f.gaveUp))
  {
    hide Backoff;
    assert Delays(1) == [Backoff(0)];
  }

  /** The round after k failures, from the slot those have left. */
  lemma NextRound(s: Slot, k: nat, timer: nat, waits: seq<nat>)
    requires s.info.Some? && s.attempts == (if k == 0 then None else Some(k)) && s.entry == Some(timer)
    requires k + 1 < MAX_ATTEMPTS && s.flight.armed == map[timer := false] && s.flight.next == timer + 1
    requires s.flight.waits == waits + Delays(k + 1)
    ensures var f := s.flight;
      Round(s) == Slot(s.info, Some(k + 1), Some(timer + 1), s.queue,
                       Flight(map[timer + 1 := false], timer + 2, waits + Delays(k + 2), f.tries + 1, f.gaveUp))
  {
    hide Backoff;
    DelaysSnoc(k + 1);
    assert s.flight.armed - {timer} == map[];
    assert waits + Delays(k + 1) + [Backoff(k + 1)] == waits + (Delays(k + 1) + [Backoff(k + 1)]);
  }

  /**
   * After fifty timer-driven attempts, and ever after, nothing is left: no info, counter, queue, table entry or timer.
   */
  lemma {:induction false} ChainEnds(s: Slot, k: nat)
    requires Settled(s) && k >= MAX_ATTEMPTS
    ensures var f := s.flight;
      Rounds(s, k) == Slot(None, None, None, None, Flight(map[], f.next + MAX_ATTEMPTS, f.waits + Delays(MAX_ATTEMPTS),
                                                          f.tries + MAX_ATTEMPTS, f.gaveUp + 1))
  {
    if k == MAX_ATTEMPTS {
      ChainAfter(s, MAX_ATTEMPTS - 1);
      hide Backoff, Delays;
      assert Rounds(s, MAX_ATTEMPTS - 1).flight.armed - {s.flight.next + MAX_ATTEMPTS - 1} == map[];
    } else {
      ChainEnds(s, k - 1);
    }
  }

  lemma {:induction false} TotalDelay(k: nat)
    ensures Sum(Delays(k)) == if k <= 5 then 1000 * (Pow2(k) - 1) else 31000 + MAX_DELAY * (k - 5)
  {
    if k > 0 {
      TotalDelay(k - 1);
      BackoffValues(k - 1);
      assert Delays(k)[..k - 1] == Delays(k - 1);
      assert k <= 6 ==> Pow2(1) == 2 && Pow2(2) == 4 && Pow2(3) == 8 && Pow2(4) == 16 && Pow2(5) == 32;
    }
  }

  /**
   * The whole chain: exactly fifty attempts, after delays that never shrink, each between one and thirty seconds,
   * 1381000 ms in total; then the peer is given up.
   */
  lemma {:induction false} ChainOfFailures(s: Slot, k: nat)
    requires Settled(s) && k >= MAX_ATTEMPTS
    ensures var before, after := s.flight, Rounds(s, k).flight;
      && after.tries == before.tries + MAX_ATTEMPTS && after.gaveUp == before.gaveUp + 1 && before.waits <= after.waits
      && var waits := after.waits[|before.waits|..];
         && |waits| == MAX_ATTEMPTS && Sum(waits) == 1381000
         && (forall i :: 0 <= i < |waits| ==> 1000 <= waits[i] <= MAX_DELAY)
         && (forall i, j :: 0 <= i < j < |waits| ==> waits[i] <= waits[j])
  {
    ChainEnds(s, k);
    TotalDelay(MAX_ATTEMPTS);
    forall i: nat
      ensures 1000 <= Backoff(i) <= MAX_DELAY
    {
      BackoffValues(i);
    }
    forall i: nat, j: nat | i < j
      ensures Backoff(i) <= Backoff(j)
    {
      BackoffValues(i);
      BackoffValues(j);
    }
    hide Backoff, Rounds;
    assert (s.flight.waits + Delays(MAX_ATTEMPTS))[|s.flight.waits|..] == Delays(MAX_ATTEMPTS);
  }

  /** A success at any point of the chain clears the counter and cancels the timer: the next failure waits a second. */
  lemma {:induction false} SuccessStartsOver(s: Slot, k: nat)
    requires Settled(s) && k < MAX_ATTEMPTS
    ensures var r := Reset(Rounds(s, k));
      && r.attempts == None && r.entry == None && r.flight.armed == map[s.flight.next + k := true]
      && Schedule(r).flight.waits == s.flight.waits + Delays(k + 1) + [1000]
  {
    ChainAfter(s, k);
    BackoffValues(0);
    hide Backoff, Rounds, Delays;
  }

  // Timers and the table

  /** Every timer that was not cancelled is the table's entry, so that a success can cancel it. */
  ghost predicate Tracked(s: Slot) {
    && (forall t :: t in s.flight.armed ==> t < s.flight.next)
    && (forall t :: t in s.flight.armed ==> (!s.flight.armed[t] <==> s.entry == Some(t)))
    && (s.entry.Some? ==> s.entry.value in s.flight.armed)
  }

  lemma ScheduleTracks(s: Slot)
    requires Tracked(s)
    ensures Tracked(Schedule(s)) && Tracked(Reset(s))
    ensures forall t :: t in Reset(s).flight.armed ==> Reset(s).flight.armed[t]
  {}

  /**
   * The handler keeps the table in step exactly when the entry it removes is its own, or no timer's: a cancelled
   * timer's handler that runs after a newer timer was armed loses track of it.
   */
  lemma HandlerTracksIff(s: Slot, timer: nat, aborted: bool)
    requires Tracked(s) && timer in s.flight.armed
    ensures Tracked(Fired(s, timer, aborted)) <==> s.entry == None || s.entry == Some(timer)
  {
    var n := Fired(s, timer, aborted);
    if s.entry.Some? && s.entry.value != timer {
      assert s.entry.value in n.flight.armed && !n.flight.armed[s.entry.value];
    }
  }

  /** The case at hand: two failures in a row, the first timer's handler, then a success that leaves a timer running. */
  lemma OrphanSurvivesSuccess(s: Slot)
    requires Settled(s)
    ensures var twice, first, second := Schedule(Schedule(s)), s.flight.next, s.flight.next + 1;
      var after := Reset(Fired(twice, first, true));
      && twice.flight.armed == map[first := true, second := false] && twice.entry == Some(second)
      && after.flight.armed == map[second := false] && after.entry == None && after.attempts == None
      && Fired(after, second, false).attempts == Some(1)
  {
    hide Backoff;
    var twice, first, second := Schedule(Schedule(s)), s.flight.next, s.flight.next + 1;
    assert twice.flight.armed == map[first := true, second := false];
    assert twice.flight.armed - {first} == map[second := false];
  }

  // Runs

  /** A connection fails or succeeds, a timer's handler runs, or the peer's address becomes known. */
  datatype Event = Failed | Succeeded | Handled(timer: nat, aborted: bool) | Known(address: Address)

  /** Only timers under way have a handler to run, and only a cancelled one's can be told that it was aborted. */
  predicate Possible(s: Slot, e: Event) {
    e.Handled? ==> e.timer in s.flight.armed && (e.aborted ==> s.flight.armed[e.timer])
  }

  function Step(s: Slot, e: Event): Slot {
    match e
    case Failed => Schedule(s)
    case Succeeded => Reset(s)
    case Handled(timer, aborted) => Fired(s, timer, aborted)
    case Known(address) => s.(info := Some(address))
  }

  /** The entry that a handler removes is its own, or nobody's. */
  predicate OwnEntry(s: Slot, e: Event) {
    e.Handled? ==> s.entry == None || s.entry == Some(e.timer)
  }

  predicate PossibleRun(s: Slot, es: seq<Event>)
    decreases |es|
  {
    es == [] || (Possible(s, es[0]) && PossibleRun(Step(s, es[0]), es[1..]))
  }

  predicate OwnEntries(s: Slot, es: seq<Event>)
    decreases |es|
  {
    es == [] || (OwnEntry(s, es[0]) && OwnEntries(Step(s, es[0]), es[1..]))
  }

  function Run(s: Slot, es: seq<Event>): Slot
    decreases |es|
  {
    if es == [] then s else Run(Step(s, es[0]), es[1..])
  }

  ghost predicate AlwaysTracked(s: Slot, es: seq<Event>)
    decreases |es|
  {
    Tracked(s) && (es == [] || AlwaysTracked(Step(s, es[0]), es[1..]))
  }

  lemma StepTracksIff(s: Slot, e: Event)
    requires Tracked(s) && Possible(s, e)
    ensures Tracked(Step(s, e)) <==> OwnEntry(s, e)
  {
    match e
    case Handled(timer, aborted) => HandlerTracksIff(s, timer, aborted);
    case _ => ScheduleTracks(s);
  }

  /**
   * Each table changes for its own reason alone: a try is a timer's handler that was not told of an abort, for a peer
   * whose address is known; giving up is a failure after fifty tries; a delay is waited for after any earlier failure.
   */
  lemma StepReasons(s: Slot, e: Event)
    ensures var r, count := Step(s, e), if s.attempts.Some? then s.attempts.value else 0;
      var tries := e.Handled? && !e.aborted && s.info.Some?;
      var fails := e == Failed && s.info.Some?;
      && r.flight.tries == s.flight.tries + (if tries then 1 else 0)
      && r.flight.gaveUp == s.flight.gaveUp + (if fails && count >= 50 then 1 else 0)
      && r.flight.waits == s.flight.waits + (if fails && count < 50 then [Backoff(count)] else [])
      && r.info == (if e.Known? then Some(e.address) else if fails && count >= 50 then None else s.info)
      && r.queue == (if fails && count >= 50 then None else s.queue)
      && r.attempts == if tries then Some(count + 1)
                       else if e == Succeeded || (fails && count >= 50) then None else s.attempts
  {
    hide Backoff;
    assert s.flight.waits + [] == s.flight.waits;
  }

  ghost predicate Counted(f: Flight) {
    (forall t :: t in f.armed ==> t < f.next) && f.tries + |f.armed| <= f.next
  }

  lemma StepNeedsTimers(s: Slot, e: Event)
    requires Possible(s, e) && Counted(s.flight)
    ensures Counted(Step(s, e).flight)
  {
    hide Backoff;
    var armed, r := s.flight.armed, Step(s, e).flight;
    if e.Handled? {
      assert armed.Keys == (armed - {e.timer}).Keys + {e.timer};
    } else {
      assert r.armed.Keys == armed.Keys || r.armed.Keys == armed.Keys + {s.flight.next};
      assert |armed| == |armed.Keys| && |r.armed| == |r.armed.Keys|;
    }
  }

  /** Over every run: the tries and the timers still under way are no more than the timers ever armed. */
  lemma {:induction false} TriesNeedTimers(s: Slot, es: seq<Event>)
    requires PossibleRun(s, es) && Counted(s.flight)
    ensures Counted(Run(s, es).flight)
    decreases |es|
  {
    if es != [] {
      StepNeedsTimers(s, es[0]);
      TriesNeedTimers(Step(s, es[0]), es[1..]);
    }
  }

  /** Over every run: no timer is ever lost track of exactly when every handler finds its own entry, or none. */
  lemma {:induction false} AlwaysTrackedIff(s: Slot, es: seq<Event>)
    requires Tracked(s) && PossibleRun(s, es)
    ensures AlwaysTracked(s, es) <==> OwnEntries(s, es)
    ensures OwnEntries(s, es) ==> Tracked(Run(s, es))
    decreases |es|
  {
    if es != [] {
      StepTracksIff(s, es[0]);
      hide Tracked, Step, Possible, OwnEntry;
      var next := Step(s, es[0]);
      if Tracked(next) {
        AlwaysTrackedIff(next, es[1..]);
      } else {
        assert !AlwaysTracked(next, es[1..]);
      }
    }
  }

  /** Hence, after such a run, a success leaves no timer that could still act: every one under way is cancelled. */
  lemma {:induction false} SuccessStopsTimers(s: Slot, es: seq<Event>)
    requires Tracked(s) && PossibleRun(s, es) && OwnEntries(s, es)
    ensures var after := Step(Run(s, es), Succeeded);
      after.attempts == None && after.entry == None && forall t :: t in after.flight.armed ==> after.flight.armed[t]
  {
    AlwaysTrackedIff(s, es);
    ScheduleTracks(Run(s, es));
    hide Run, Tracked;
  }

  /** The tables of NetworkManager that concern reconnecting. */
  class Reconnector {
    var info: map<string, Address>
    var attempts: map<string, nat>
    var timers: map<string, nat>
    var queues: map<string, seq<string>>
    var flights: map<string, Flight>

    constructor ()
      ensures info == map[] && attempts == map[] && timers == map[] && queues == map[] && flights == map[]
    {
      info, attempts, timers, queues, flights := map[], map[], map[], map[], map[];
    }

    function FlightOf(uuid: string): Flight
      reads this
    {
      if uuid in flights then flights[uuid] else GROUNDED
    }

    ghost function SlotOf(uuid: string): Slot
      reads this
    {
      Slot(if uuid in info then Some(info[uuid]) else None,
           if uuid in attempts then Some(attempts[uuid]) else None,
           if uuid in timers then Some(timers[uuid]) else None,
           if uuid in queues then Some(queues[uuid]) else None,
           FlightOf(uuid))
    }

    /** The handler did this to the peer, and nothing to any other. */
    twostate predicate Did(uuid: string, s: Slot)
      reads this
    {
      && SlotOf(uuid) == s
      && info - {uuid} == old(info) - {uuid} && attempts - {uuid} == old(attempts) - {uuid}
      && timers - {uuid} == old(timers) - {uuid} && queues - {uuid} == old(queues) - {uuid}
      && flights - {uuid} == old(flights) - {uuid}
    }

    method CancelEntry(uuid: string)
      modifies this`flights
      ensures FlightOf(uuid) == Cancelled(old(FlightOf(uuid)), old(SlotOf(uuid)).entry)
      ensures flights - {uuid} == old(flights) - {uuid}
    {
      if uuid in timers && timers[uuid] in FlightOf(uuid).armed {
        var f := FlightOf(uuid);
        flights := flights[uuid := f.(armed := f.armed[timers[uuid] := true])];
      }
    }

    method ScheduleReconnect(uuid: string)
      modifies this
      ensures Did(uuid, Schedule(old(SlotOf(uuid))))
    {
      if uuid !in info {
        return;
      }
      var count := if uuid in attempts then attempts[uuid] else 0;
      if count >= MAX_ATTEMPTS {
        flights := flights[uuid := FlightOf(uuid).(gaveUp := FlightOf(uuid).gaveUp + 1)];
        info := info - {uuid};
        attempts := attempts - {uuid};
        queues := queues - {uuid};
        return;
      }
      var delay := Backoff(count);
      CancelEntry(uuid);
      var f := FlightOf(uuid);
      flights := flights[uuid := f.(armed := f.armed[f.next := false], next := f.next + 1, waits := f.waits + [delay])];
      timers := timers[uuid := f.next];
    }

    method TimerFired(uuid: string, timer: nat, aborted: bool)
      requires timer in FlightOf(uuid).armed
      modifies this
      ensures Did(uuid, Fired(old(SlotOf(uuid)), timer, aborted))
    {
      flights := flights[uuid := FlightOf(uuid).(armed := FlightOf(uuid).armed - {timer})];
      timers := timers - {uuid};
      if !aborted {
        AttemptReconnect(uuid);
      }
    }

    method AttemptReconnect(uuid: string)
      modifies this`attempts, this`flights
      ensures Did(uuid, Attempt(old(SlotOf(uuid))))
    {
      if uuid !in info {
        return;
      }
      attempts := attempts[uuid := (if uuid in attempts then attempts[uuid] else 0) + 1];
      flights := flights[uuid := FlightOf(uuid).(tries := FlightOf(uuid).tries + 1)];
    }

    method ResetReconnectState(uuid: string)
      modifies this`attempts, this`timers, this`flights
      ensures Did(uuid, Reset(old(SlotOf(uuid))))
    {
      attempts := attempts - {uuid};
      CancelEntry(uuid);
      timers := timers - {uuid};
    }
  }
}
