/**
 * The ban record of an IP address (src/net/network.cpp, handleFrame and recordUuidFailure). Times are epoch
 * milliseconds of a clock that never goes back.
 */
module IpBan {
  const MAX_FAILURES: nat := 5
  const BAN: nat := 30 * 60 * 1000

  datatype Record = Record(failures: nat, firstFail: nat, bannedUntil: nat)

  const CLEAN: Record := Record(0, 0, 0)

  /** recordUuidFailure. */
  function Fail(r: Record, now: nat): Record {
    var kept := if 0 < r.bannedUntil <= now then CLEAN else r;
    var failures := kept.failures + 1;
    Record(failures, if kept.firstFail == 0 then now else kept.firstFail,
           if failures >= MAX_FAILURES then now + BAN else kept.bannedUntil)
  }

  /**
   * A frame that passed the rate limiter: when its ban was checked, and when handling it records a failure, if it does.
   */
  datatype Arrival = Arrival(ip: string, at: nat, fails: bool, recordedAt: nat)

  type Bans = map<string, Record>

  function Of(bans: Bans, ip: string): Record {
    if ip in bans then bans[ip] else CLEAN
  }

  predicate Banned(bans: Bans, ip: string, now: nat) {
    ip in bans && bans[ip].bannedUntil > now
  }

  function Arrive(bans: Bans, a: Arrival): Bans {
    if Banned(bans, a.ip, a.at) || !a.fails then bans else bans[a.ip := Fail(Of(bans, a.ip), a.recordedAt)]
  }

  predicate Ordered(run: seq<Arrival>) {
    && (forall i :: 0 <= i < |run| ==> run[i].at <= run[i].recordedAt)
    && (forall i, j :: 0 <= i < j < |run| ==> run[i].recordedAt <= run[j].at)
  }

  function After(bans: Bans, run: seq<Arrival>): Bans
    decreases |run|
  {
    if run == [] then bans else After(Arrive(bans, run[0]), run[1..])
  }

  /** The frames that are handled, in order. */
  function Handled(bans: Bans, run: seq<Arrival>): seq<Arrival>
    decreases |run|
  {
    if run == [] then []
    else (if Banned(bans, run[0].ip, run[0].at) then [] else [run[0]]) + Handled(Arrive(bans, run[0]), run[1..])
  }

  /** The counter stays below five until the ban, and is five exactly as long as the ban is on record. */
  predicate RecordOk(r: Record) {
    r.failures <= MAX_FAILURES && (r.failures == MAX_FAILURES <==> r.bannedUntil > 0)
  }

  ghost predicate BansOk(bans: Bans) {
    forall ip :: ip in bans ==> RecordOk(bans[ip])
  }

  lemma {:induction false} CounterStaysInRange(bans: Bans, run: seq<Arrival>)
    requires BansOk(bans) && Ordered(run)
    ensures BansOk(After(bans, run))
    decreases |run|
  {
    if run != [] {
      assert Ordered(run[1..]);
      assert RecordOk(Of(bans, run[0].ip));
      CounterStaysInRange(Arrive(bans, run[0]), run[1..]);
    }
  }

  /** The fifth failure in a row bans for thirty minutes; fewer never do. */
  lemma FifthFailureBans(bans: Bans, a: Arrival)
    requires BansOk(bans) && a.fails && a.at <= a.recordedAt && !Banned(bans, a.ip, a.at)
    ensures var before, after := Of(bans, a.ip), Of(Arrive(bans, a), a.ip);
      && after.failures == (if before.failures == 5 then 1 else before.failures + 1)
      && after.bannedUntil == (if before.failures == 4 then a.recordedAt + 1800000 else 0)
  {
    assert RecordOk(Of(bans, a.ip));
  }

  /** While a ban runs, no frame from the address is handled and its record stands; other addresses do not matter. */
  lemma {:induction false} NothingHandledWhileBanned(bans: Bans, run: seq<Arrival>, ip: string)
    requires ip in bans && forall i :: 0 <= i < |run| && run[i].ip == ip ==> run[i].at < bans[ip].bannedUntil
    ensures forall a :: a in Handled(bans, run) ==> a.ip != ip
    ensures ip in After(bans, run) && After(bans, run)[ip] == bans[ip]
    decreases |run|
  {
    if run != [] {
      assert run[0].ip == ip ==> Banned(bans, ip, run[0].at);
      NothingHandledWhileBanned(Arrive(bans, run[0]), run[1..], ip);
    }
  }

  function Failures(handled: seq<Arrival>, ip: string): nat {
    if handled == [] then 0 else (if handled[0].fails && handled[0].ip == ip then 1 else 0) + Failures(handled[1..], ip)
  }

  /** How many failures an address can still record from `now` to `last`. */
  function Budget(r: Record, now: nat, last: nat): nat
    requires r.failures <= MAX_FAILURES
  {
    if r.bannedUntil > now then (if last < r.bannedUntil then 0 else MAX_FAILURES * ((last - r.bannedUntil) / BAN + 1))
    else (if r.failures == MAX_FAILURES then MAX_FAILURES else MAX_FAILURES - r.failures)
         + MAX_FAILURES * (if now <= last then (last - now) / BAN else 0)
  }

  lemma BudgetStep(r: Record, now: nat, at: nat, recordedAt: nat, last: nat)
    requires RecordOk(r) && now <= at <= recordedAt <= last && r.bannedUntil <= at
    ensures RecordOk(Fail(r, recordedAt)) && 1 + Budget(Fail(r, recordedAt), recordedAt, last) <= Budget(r, now, last)
  {
    var x := last - recordedAt;
    assert x < BAN ==> x / BAN == 0;
    assert x >= BAN ==> (x - BAN) / BAN + 1 == x / BAN;
    Shrinks(last - now, x);
    if r.bannedUntil > now {
      Shrinks(last - r.bannedUntil, x);
    }
  }

  lemma Shrinks(x: nat, y: nat)
    requires y <= x
    ensures y / BAN <= x / BAN
  {}

  lemma BudgetShrinks(r: Record, now: nat, later: nat, last: nat)
    requires RecordOk(r) && now <= later <= last
    ensures Budget(r, later, last) <= Budget(r, now, last)
  {
    Shrinks(last - now, last - later);
    if now < r.bannedUntil <= later {
      Shrinks(last - r.bannedUntil, last - later);
    }
  }

  lemma {:induction false} FailuresInBudget(bans: Bans, run: seq<Arrival>, ip: string, now: nat, last: nat)
    requires BansOk(bans) && Ordered(run) && now <= last
    requires forall i :: 0 <= i < |run| ==> now <= run[i].at && run[i].recordedAt <= last
    ensures RecordOk(Of(bans, ip)) && Failures(Handled(bans, run), ip) <= Budget(Of(bans, ip), now, last)
    decreases |run|
  {
    assert RecordOk(Of(bans, ip));
    if run != [] {
      var a, next := run[0], Arrive(bans, run[0]);
      assert Ordered(run[1..]);
      assert RecordOk(Of(bans, a.ip));
      FailuresInBudget(next, run[1..], ip, a.recordedAt, last);
      CountStep(bans, run, ip);
      if a.ip == ip && a.fails && !Banned(bans, ip, a.at) {
        BudgetStep(Of(bans, ip), now, a.at, a.recordedAt, last);
      } else {
        BudgetShrinks(Of(bans, ip), now, a.recordedAt, last);
      }
    }
  }

  lemma {:induction false} CountStep(bans: Bans, run: seq<Arrival>, ip: string)
    requires run != []
    ensures Failures(Handled(bans, run), ip)
         == (if run[0].ip == ip && run[0].fails && !Banned(bans, ip, run[0].at) then 1 else 0)
            + Failures(Handled(Arrive(bans, run[0]), run[1..]), ip)
  {
    var rest := Handled(Arrive(bans, run[0]), run[1..]);
    assert ([run[0]] + rest)[1..] == rest && [] + rest == rest;
  }

  /** Over T ms from its first recorded failure an address records at most 5 * (T / 1800000 + 1) failures. */
  lemma {:induction false} FailuresOverTime(bans: Bans, run: seq<Arrival>, ip: string)
    requires BansOk(bans) && Ordered(run) && run != [] && ip !in bans
    requires run[0].ip == ip && run[0].fails
    ensures Failures(Handled(bans, run), ip)
         <= 5 * ((run[|run| - 1].recordedAt - run[0].recordedAt) / 1800000 + 1)
  {
    var first, last := run[0].recordedAt, run[|run| - 1].recordedAt;
    var next := Arrive(bans, run[0]);
    assert Ordered(run[1..]);
    forall i | 0 <= i < |run[1..]|
      ensures first <= run[1..][i].at && run[1..][i].recordedAt <= last
    {
      assert run[1..][i] == run[i + 1];
    }
    CountStep(bans, run, ip);
    FailuresInBudget(next, run[1..], ip, first, last);
  }

  // When a ban holds

  /** The times at which failures of an address were recorded. */
  function FailTimes(bans: Bans, run: seq<Arrival>, ip: string): seq<nat>
    decreases |run|
  {
    if run == [] then []
    else
      (if run[0].ip == ip && run[0].fails && !Banned(bans, ip, run[0].at) then [run[0].recordedAt] else [])
      + FailTimes(Arrive(bans, run[0]), run[1..], ip)
  }

  /**
   * The counter and the end of the ban that belong to the failures so far: every fifth bans, and the one after it
   * starts again.
   */
  function RecordOf(fails: seq<nat>): (nat, nat) {
    var n := |fails|;
    if n == 0 then (0, 0)
    else ((n - 1) % MAX_FAILURES + 1, if n % MAX_FAILURES == 0 then fails[n - 1] + BAN else 0)
  }

  ghost predicate Records(bans: Bans, ip: string, fails: seq<nat>) {
    (Of(bans, ip).failures, Of(bans, ip).bannedUntil) == RecordOf(fails)
  }

  lemma FailRecords(bans: Bans, a: Arrival, fails: seq<nat>)
    requires Records(bans, a.ip, fails) && a.fails && a.at <= a.recordedAt && !Banned(bans, a.ip, a.at)
    ensures Records(Arrive(bans, a), a.ip, fails + [a.recordedAt])
  {
    var n := |fails|;
    assert n > 0 ==> (n % MAX_FAILURES == 0 <==> (n - 1) % MAX_FAILURES == MAX_FAILURES - 1);
    assert n > 0 && n % MAX_FAILURES != 0 ==> n % MAX_FAILURES == (n - 1) % MAX_FAILURES + 1;
  }

  lemma OthersKeepRecords(bans: Bans, a: Arrival, ip: string, fails: seq<nat>)
    requires Records(bans, ip, fails) && !(a.ip == ip && a.fails && !Banned(bans, ip, a.at))
    ensures Records(Arrive(bans, a), ip, fails)
  {}

  lemma {:induction false} RecordsFollow(bans: Bans, run: seq<Arrival>, ip: string, fails: seq<nat>)
    requires Ordered(run) && Records(bans, ip, fails)
    ensures Records(After(bans, run), ip, fails + FailTimes(bans, run, ip))
    decreases |run|
  {
    hide Records, RecordOf, Fail;
    if run == [] {
      assert fails + [] == fails;
    } else {
      var a, next := run[0], Arrive(bans, run[0]);
      assert Ordered(run[1..]);
      if a.ip == ip && a.fails && !Banned(bans, ip, a.at) {
        FailRecords(bans, a, fails);
        RecordsFollow(next, run[1..], ip, fails + [a.recordedAt]);
        assert fails + ([a.recordedAt] + FailTimes(next, run[1..], ip))
            == fails + [a.recordedAt] + FailTimes(next, run[1..], ip);
      } else {
        OthersKeepRecords(bans, a, ip, fails);
        RecordsFollow(next, run[1..], ip, fails);
        assert [] + FailTimes(next, run[1..], ip) == FailTimes(next, run[1..], ip);
      }
    }
  }

  /**
   * Over every run: an address is banned exactly while its failures so far are a multiple of five and the last of
   * them is less than thirty minutes old. A frame of an address with any other history is handled.
   */
  lemma {:induction false} BannedIff(run: seq<Arrival>, ip: string, now: nat)
    requires Ordered(run)
    ensures var fails := FailTimes(map[], run, ip);
      Banned(After(map[], run), ip, now)
      <==> fails != [] && |fails| % 5 == 0 && now < fails[|fails| - 1] + 1800000
  {
    RecordsFollow(map[], run, ip, []);
    var fails := FailTimes(map[], run, ip);
    assert [] + fails == fails;
  }

  /** Hence with fewer than five failures recorded an address is handled whatever it sends. */
  lemma {:induction false} FewFailuresNeverBan(run: seq<Arrival>, a: Arrival)
    requires Ordered(run) && |FailTimes(map[], run, a.ip)| < 5
    ensures Handled(After(map[], run), [a]) == [a]
  {
    BannedIff(run, a.ip, a.at);
    assert [a][1..] == [];
  }

  /** The table of ban records. */
  class IpBans {
    var records: Bans

    constructor ()
      ensures records == map[]
    {
      records := map[];
    }

    /** The ban check of handleFrame and, for a frame whose handling fails, the record of the failure. */
    method HandleFrame(a: Arrival) returns (handled: bool)
      modifies this
      ensures records == Arrive(old(records), a) && handled == !Banned(old(records), a.ip, a.at)
    {
      if a.ip in records && records[a.ip].bannedUntil > a.at {
        return false;
      }
      handled := true;
      if a.fails {
        RecordUuidFailure(a.ip, a.recordedAt);
      }
    }

    method RecordUuidFailure(ip: string, now: nat)
      modifies this
      ensures records == old(records)[ip := Fail(Of(old(records), ip), now)]
    {
      var rec := if ip in records then records[ip] else CLEAN;
      if rec.bannedUntil > 0 && rec.bannedUntil <= now {
        rec := CLEAN;
      }
      if rec.firstFail == 0 {
        rec := rec.(firstFail := now);
      }
      rec := rec.(failures := rec.failures + 1);
      if rec.failures >= MAX_FAILURES {
        rec := rec.(bannedUntil := now + BAN);
      }
      records := records[ip := rec];
    }
  }
}
