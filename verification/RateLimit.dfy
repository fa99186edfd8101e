/** The frame rate limiter of one connection (src/net/network.cpp, handleFrame). Times are in nanoseconds. */
module RateLimit {
  const MAX_FRAMES: nat := 200
  const NS_PER_MS: nat := 1_000_000
  const SECOND: nat := 1000 * NS_PER_MS
  const UINT32: nat := 0x1_0000_0000

  /** `valid`, `start` and `count` are rateWindowValid, rateWindowStart and the 32-bit rateCount. */
  datatype Window = Window(valid: bool, start: nat, count: nat)

  const FRESH: Window := Window(false, 0, 0)

  /** The window a frame at `now` is counted in. */
  function Current(w: Window, now: nat): Window
    requires w.valid ==> w.start <= now
  {
    if !w.valid || (now - w.start) / NS_PER_MS >= 1000 then Window(true, now, 0) else w
  }

  function Counted(w: Window, now: nat): Window
    requires w.valid ==> w.start <= now
  {
    var c := Current(w, now);
    c.(count := (c.count + 1) % UINT32)
  }

  predicate Passes(w: Window, now: nat)
    requires w.valid ==> w.start <= now
  {
    Counted(w, now).count <= MAX_FRAMES
  }

  predicate Ordered(ts: seq<nat>) {
    forall i, j :: 0 <= i < j < |ts| ==> ts[i] <= ts[j]
  }

  /** Frames arrive from now on: not before the window, and not so many that the 32-bit counter wraps. */
  ghost predicate Coming(w: Window, ts: seq<nat>) {
    && Ordered(ts)
    && (w.valid ==> forall t :: t in ts ==> w.start <= t)
    && w.count + |ts| < UINT32
  }

  /** The arrival times that pass. */
  function Passed(w: Window, ts: seq<nat>): seq<nat>
    requires Coming(w, ts)
    decreases |ts|
  {
    if ts == [] then []
    else
      ComingOn(w, ts);
      (if Passes(w, ts[0]) then [ts[0]] else []) + Passed(Counted(w, ts[0]), ts[1..])
  }

  lemma ComingOn(w: Window, ts: seq<nat>)
    requires Coming(w, ts) && ts != []
    ensures w.valid ==> w.start <= ts[0]
    ensures Coming(Counted(w, ts[0]), ts[1..])
  {
    assert ts[0] in ts;
    forall t | t in ts[1..]
      ensures ts[0] <= t && t in ts
    {}
  }

  function Room(w: Window): nat {
    if w.count < MAX_FRAMES then MAX_FRAMES - w.count else 0
  }

  lemma RoomStep(w: Window, now: nat, last: nat)
    requires w.valid && w.start <= now <= last && w.count + 1 < UINT32
    ensures var next := Counted(w, now);
      (if Passes(w, now) then 1 else 0) + Room(next) + MAX_FRAMES * ((last - next.start) / SECOND)
      <= Room(w) + MAX_FRAMES * ((last - w.start) / SECOND)
  {
    if (now - w.start) / NS_PER_MS >= 1000 {
      assert now >= w.start + SECOND;
      assert (last - w.start) / SECOND >= (last - now) / SECOND + 1;
    }
  }

  /** From a window on, what passes until `last` fits in the room left and 200 frames for each further second. */
  lemma {:induction false} PassedUntil(w: Window, ts: seq<nat>, last: nat)
    requires Coming(w, ts) && w.valid && w.start <= last && forall t :: t in ts ==> t <= last
    ensures |Passed(w, ts)| <= Room(w) + MAX_FRAMES * ((last - w.start) / SECOND)
    decreases |ts|
  {
    if ts != [] {
      ComingOn(w, ts);
      assert ts[0] in ts;
      RoomStep(w, ts[0], last);
      var next := Counted(w, ts[0]);
      assert forall t :: t in ts[1..] ==> t in ts;
      hide Counted, Passes, Room, Coming;
      PassedUntil(next, ts[1..], last);
    }
  }

  /** Over T ms from the first frame at most 200 * (T / 1000 + 1) frames pass. */
  lemma {:induction false} PassedOverTime(ts: seq<nat>)
    requires ts != [] && Coming(FRESH, ts)
    ensures |Passed(FRESH, ts)| <= 200 * ((ts[|ts| - 1] - ts[0]) / NS_PER_MS / 1000 + 1)
  {
    ComingOn(FRESH, ts);
    var last := ts[|ts| - 1];
    assert forall t :: t in ts[1..] ==> t <= last;
    PassedUntil(Counted(FRESH, ts[0]), ts[1..], last);
    WholeSeconds(last - ts[0]);
  }

  lemma WholeSeconds(x: nat)
    ensures x / NS_PER_MS / 1000 == x / SECOND
  {}

  /** How many of the times lie in [a, b]. */
  function Within(ts: seq<nat>, a: nat, b: nat): nat {
    if ts == [] then 0 else (if a <= ts[0] <= b then 1 else 0) + Within(ts[1..], a, b)
  }

  /** How many frames can still pass in [a, a + 1000 ms]. */
  function Budget(w: Window, a: nat): nat {
    if !w.valid || w.start + SECOND <= a then 2 * MAX_FRAMES
    else if w.start <= a then Room(w) + MAX_FRAMES
    else Room(w)
  }

  lemma {:induction false} NoneAfter(w: Window, ts: seq<nat>, a: nat, b: nat)
    requires Coming(w, ts) && forall t :: t in ts ==> b < t
    ensures Within(Passed(w, ts), a, b) == 0
    decreases |ts|
  {
    if ts != [] {
      ComingOn(w, ts);
      WithinPassed(w, ts, a, b);
      assert ts[0] in ts && forall t :: t in ts[1..] ==> t in ts;
      hide Passed, Within, Coming;
      NoneAfter(Counted(w, ts[0]), ts[1..], a, b);
    }
  }

  lemma {:induction false} WithinPassed(w: Window, ts: seq<nat>, a: nat, b: nat)
    requires Coming(w, ts) && ts != [] && (w.valid ==> w.start <= ts[0]) && Coming(Counted(w, ts[0]), ts[1..])
    ensures Within(Passed(w, ts), a, b)
         == (if Passes(w, ts[0]) && a <= ts[0] <= b then 1 else 0) + Within(Passed(Counted(w, ts[0]), ts[1..]), a, b)
  {
    var rest := Passed(Counted(w, ts[0]), ts[1..]);
    assert ([ts[0]] + rest)[1..] == rest && [] + rest == rest;
  }

  lemma BudgetStep(w: Window, now: nat, a: nat)
    requires (w.valid ==> w.start <= now) && now <= a + SECOND && w.count + 1 < UINT32
    ensures (if Passes(w, now) && a <= now then 1 else 0) + Budget(Counted(w, now), a) <= Budget(w, a)
  {}

  lemma {:induction false} PassedInBudget(w: Window, ts: seq<nat>, a: nat)
    requires Coming(w, ts)
    ensures Within(Passed(w, ts), a, a + SECOND) <= Budget(w, a)
    decreases |ts|
  {
    if ts != [] {
      ComingOn(w, ts);
      if ts[0] > a + SECOND {
        NoneAfter(w, ts, a, a + SECOND);
      } else {
        WithinPassed(w, ts, a, a + SECOND);
        BudgetStep(w, ts[0], a);
        hide Passed, Within, Coming, Budget, Counted, Passes;
        PassedInBudget(Counted(w, ts[0]), ts[1..], a);
      }
    }
  }

  /** Any 1000 ms pass at most 400 frames, however the arrivals fall. */
  lemma {:induction false} PassedInAnySecond(ts: seq<nat>, a: nat)
    requires Coming(FRESH, ts)
    ensures Within(Passed(FRESH, ts), a, a + SECOND) <= 400
  {
    PassedInBudget(FRESH, ts, a);
  }

  // Who is never cut off

  /** No 201 frames in less than a second. */
  ghost predicate Slow(ts: seq<nat>) {
    Ordered(ts) && forall i :: 0 <= i < |ts| - 200 ==> ts[i + 200] >= ts[i] + SECOND
  }

  /** The window after some frames: opened by frame k, and all frames from there on counted in it. */
  ghost predicate OpenedBy(w: Window, ts: seq<nat>, k: nat, next: nat) {
    k < next <= |ts| && next - k <= MAX_FRAMES && w == Window(true, ts[k], next - k)
  }

  lemma SlowStep(w: Window, ts: seq<nat>, k: nat, next: nat) returns (opener: nat)
    requires Slow(ts) && OpenedBy(w, ts, k, next) && next < |ts|
    ensures w.start <= ts[next] && Passes(w, ts[next])
    ensures OpenedBy(Counted(w, ts[next]), ts, opener, next + 1)
  {
    assert ts[k] <= ts[next];
    if next - k == MAX_FRAMES {
      assert ts[k + MAX_FRAMES] >= ts[k] + SECOND;
    }
    opener := if (ts[next] - w.start) / NS_PER_MS >= 1000 then next else k;
  }

  lemma {:induction false} SlowPasses(w: Window, ts: seq<nat>, k: nat, next: nat)
    requires Slow(ts) && OpenedBy(w, ts, k, next) && Coming(w, ts[next..])
    ensures Passed(w, ts[next..]) == ts[next..]
    decreases |ts| - next
  {
    hide Counted, Passes, Slow, Coming;
    if next < |ts| {
      var opener := SlowStep(w, ts, k, next);
      ComingOn(w, ts[next..]);
      assert ts[next..][1..] == ts[next + 1..];
      SlowPasses(Counted(w, ts[next]), ts, opener, next + 1);
      assert [ts[next]] + ts[next + 1..] == ts[next..];
    }
  }

  /** A sender that never puts 201 frames into one second is never cut off; in particular the first 200 always pass. */
  lemma {:induction false} SlowSenderPasses(ts: seq<nat>)
    requires Coming(FRESH, ts) && Slow(ts)
    ensures Passed(FRESH, ts) == ts
  {
    if ts != [] {
      ComingOn(FRESH, ts);
      assert ts[0..] == ts && OpenedBy(Counted(FRESH, ts[0]), ts, 0, 1);
      SlowPasses(Counted(FRESH, ts[0]), ts, 0, 1);
      assert [ts[0]] + ts[1..] == ts;
    }
  }

  /** The 201st frame within a second of the first of a window does not pass. */
  lemma {:induction false} BurstIsCut(ts: seq<nat>)
    requires Coming(FRESH, ts) && |ts| == 201 && ts[200] < ts[0] + SECOND
    ensures Passed(FRESH, ts) == ts[..200]
  {
    ComingOn(FRESH, ts);
    BurstPasses(Counted(FRESH, ts[0]), ts, 1);
    assert ts[0..] == ts && ts[1..MAX_FRAMES] == ts[..MAX_FRAMES][1..];
  }

  lemma {:induction false} BurstPasses(w: Window, ts: seq<nat>, next: nat)
    requires |ts| == MAX_FRAMES + 1 && Ordered(ts) && ts[MAX_FRAMES] < ts[0] + SECOND
    requires 1 <= next <= |ts| && w == Window(true, ts[0], next) && Coming(w, ts[next..])
    ensures Passed(w, ts[next..]) == if next < MAX_FRAMES then ts[next..MAX_FRAMES] else []
    decreases |ts| - next
  {
    if next < |ts| {
      ComingOn(w, ts[next..]);
      assert ts[0] <= ts[next] <= ts[MAX_FRAMES];
      assert ts[next..][1..] == ts[next + 1..];
      BurstPasses(Counted(w, ts[next]), ts, next + 1);
    }
  }

  /** The rate fields of a connection. */
  class RateGate {
    var valid: bool
    var start: nat
    var count: nat

    constructor ()
      ensures Snapshot() == FRESH
    {
      valid, start, count := false, 0, 0;
    }

    function Snapshot(): Window
      reads this
    {
      Window(valid, start, count)
    }

    /** False when the frame is over the limit and the socket is closed. */
    method CountFrame(now: nat) returns (ok: bool)
      requires valid ==> start <= now
      modifies this
      ensures Snapshot() == Counted(old(Snapshot()), now) && ok == Passes(old(Snapshot()), now)
    {
      if !valid {
        start, valid, count := now, true, 0;
      } else if (now - start) / NS_PER_MS >= 1000 {
        start, count := now, 0;
      }
      count := (count + 1) % UINT32;
      ok := count <= MAX_FRAMES;
    }
  }
}
