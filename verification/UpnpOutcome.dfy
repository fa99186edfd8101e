/** What the result of a mapPort means (src/net/upnp.cpp): success exactly for a mapping that the router confirmed. */
module UpnpOutcome {
  import opened UpnpModel

  /** The handler is about the newest mapPort, and nothing raced ahead of it. */
  predicate Due(m: Mapper, op: Op) {
    match op
    case SsdpReceive(g, q) => g == m.generation && q !in m.done
    case SsdpTimer(g, q, _) => g == m.generation && q !in m.done
    case RetryTimer(g, _) => g == m.generation
    case Http(g, q, _, _) => g == m.generation && q !in m.done
    case HttpTimer(_) => false
  }

  /** The last answer of a request was read, with a status of success. */
  predicate AnsweredWell(op: Op, env: Env) {
    op.Http? && op.phase == Reading && env.io && env.status2xx
  }

  /** The router confirms the mapping. */
  predicate Confirms(op: Op, env: Env) {
    op.Http? && op.stage == AddMapping && AnsweredWell(op, env)
  }

  /** The router's description arrives and names a control URL. */
  predicate Describes(op: Op, env: Env) {
    op.Http? && op.stage == Describe && AnsweredWell(op, env) && env.found
  }

  /** A router answers the search with its location. */
  predicate Locates(op: Op, env: Env) {
    op.SsdpReceive? && env.io && env.found
  }

  /** The mapping cannot succeed any more: something failed, or the third search was not answered in time. */
  predicate Fails(m: Mapper, op: Op, env: Env) {
    match op
    case SsdpReceive(_, _) => !Locates(op, env)
    case SsdpTimer(_, _, _) => env.expired && m.retryCount == MAX_RETRIES - 1
    case RetryTimer(_, _) => !env.bound
    case Http(_, _, stage, phase) =>
      if phase != Reading then !env.io else if stage == Describe then !Describes(op, env) else !Confirms(op, env)
    case HttpTimer(_) => false
  }

  /** A handler reports success exactly when the router confirms the newest mapping, failure exactly when it fails. */
  lemma ReportsIff(m: Mapper, op: Op, env: Env)
    requires MapperInv(m) && op in m.pending
    ensures var n, yes, no := RunOp(m, op, env), Result(m.generation, m.onResult, true),
                              Result(m.generation, m.onResult, false);
      && (n.results == m.results + [yes] <==> Due(m, op) && Confirms(op, env))
      && (n.results == m.results + [no] <==> Due(m, op) && Fails(m, op, env))
      && (n.results == m.results + [yes] || n.results == m.results + [no] || n.results == m.results)
  {
    ResultsDiffer(m.results, Result(m.generation, m.onResult, true), Result(m.generation, m.onResult, false));
  }

  lemma ResultsDiffer(results: seq<Result>, a: Result, b: Result)
    requires a != b
    ensures results + [a] != results + [b] && results + [a] != results && results + [b] != results
  {
    assert (results + [a])[|results|] == a && (results + [b])[|results|] == b;
    assert |results + [a]| == |results| + 1;
  }

  /** A call itself reports nothing but the failure to start. */
  lemma MapReportsIff(m: Mapper, callback: int, env: Env)
    ensures var n := MapPort(m, callback, env);
      n.results == if env.bound then m.results else m.results + [Result(n.generation, callback, false)]
  {}

  // Over runs

  datatype Milestone = Located | Described | Confirmed

  /** Running op brings the newest mapPort, of generation g, to the milestone. */
  predicate Reaches(m: Mapper, op: Op, env: Env, goal: Milestone, g: int) {
    && g == m.generation && Due(m, op)
    && match goal
       case Located => Locates(op, env)
       case Described => Describes(op, env)
       case Confirmed => Confirms(op, env)
  }

  /** Somewhere along the run a handler brought mapPort number g to the milestone. */
  ghost predicate Reached(m: Mapper, es: seq<(Event, Env)>, goal: Milestone, g: int)
    requires PossibleRun(m, es)
    decreases |es|
  {
    && es != []
    && ((es[0].0.Run? && Reaches(m, es[0].0.op, es[0].1, goal, g))
        || Reached(Step(m, es[0].0, es[0].1), es[1..], goal, g))
  }

  ghost predicate ToldYes(m: Mapper, g: int) {
    exists callback :: Result(g, callback, true) in m.results
  }

  lemma StepSaysYesIff(m: Mapper, e: Event, env: Env, g: int)
    requires MapperInv(m) && Possible(m, e)
    ensures ToldYes(Step(m, e, env), g) <==> ToldYes(m, g) || (e.Run? && Reaches(m, e.op, env, Confirmed, g))
  {
    hide MapperInv, MapPort, RunOp, Due, Confirms, Fails;
    match e
    case Map(callback) => MapReportsIff(m, callback, env);
    case Run(op) =>
      ReportsIff(m, op, env);
      var yes := Result(m.generation, m.onResult, true);
      assert yes in m.results + [yes];
  }

  lemma {:induction false} SaidYesIff(m: Mapper, es: seq<(Event, Env)>, g: int)
    requires MapperInv(m) && PossibleRun(m, es)
    ensures ToldYes(StepAll(m, es), g) <==> ToldYes(m, g) || Reached(m, es, Confirmed, g)
    decreases |es|
  {
    hide MapperInv, Step, Possible, ToldYes, Reaches;
    if es != [] {
      var (e, env) := es[0];
      StepSaysYesIff(m, e, env, g);
      StepInv(m, e, env);
      SaidYesIff(Step(m, e, env), es[1..], g);
    }
  }

  lemma StepInv(m: Mapper, e: Event, env: Env)
    requires MapperInv(m) && Possible(m, e)
    ensures MapperInv(Step(m, e, env))
  {
    hide MapperInv, MapPort, RunOp;
    match e
    case Map(callback) => MapPortInv(m, callback, env);
    case Run(op) => RunOpInv(m, op, env);
  }

  /** An exchange of one kind is under way for mapPort number g. */
  ghost predicate Asking(m: Mapper, stage: Stage, g: int) {
    exists op :: op in m.pending && op.Http? && op.stage == stage && op.generation == g
  }

  /** What a handler can start: a description once located, a mapping once described, or its own next phase. */
  lemma RunStarts(m: Mapper, op: Op, env: Env, made: Op)
    requires op in m.pending && made in RunOp(m, op, env).pending && made.Http?
    ensures || made in m.pending
            || (op.Http? && made.stage == op.stage && made.generation == op.generation)
            || (made.generation == m.generation
                && Reaches(m, op, env, if made.stage == AddMapping then Described else Located, m.generation))
  {
    match op
    case SsdpReceive(_, _) => ReceiveStarts(m, op, env);
    case SsdpTimer(_, _, _) => TimerStartsNoRequest(m, op, env, made);
    case RetryTimer(_, _) => TimerStartsNoRequest(m, op, env, made);
    case Http(_, _, _, _) => HttpStarts(m, op, env);
    case HttpTimer(_) =>
  }

  lemma ReceiveStarts(m: Mapper, op: Op, env: Env)
    requires op in m.pending && op.SsdpReceive?
    ensures var rest, n, q := m.pending - multiset{op}, RunOp(m, op, env).pending, |m.requests|;
      n == if Reaches(m, op, env, Located, m.generation)
           then rest + multiset{HttpTimer(q), Http(m.generation, q, Describe, Resolving)} else rest
  {}

  lemma HttpStarts(m: Mapper, op: Op, env: Env)
    requires op in m.pending && op.Http?
    ensures var rest, n, q := m.pending - multiset{op}, RunOp(m, op, env).pending, |m.requests|;
      n == if Reaches(m, op, env, Described, m.generation)
           then rest + multiset{HttpTimer(q), Http(m.generation, q, AddMapping, Resolving)}
           else if op.request !in m.done && env.io && op.phase != Reading
           then rest + multiset{op.(phase := NextPhase(op.phase))} else rest
  {}

  lemma TimerStartsNoRequest(m: Mapper, op: Op, env: Env, made: Op)
    requires op in m.pending && (op.SsdpTimer? || op.RetryTimer?)
    requires made in RunOp(m, op, env).pending && made.Http?
    ensures made in m.pending
  {}

  lemma MapStartsNoRequest(m: Mapper, callback: int, env: Env, made: Op)
    requires made in MapPort(m, callback, env).pending && made.Http?
    ensures made in m.pending
  {}

  /** A request of either kind is only made once its predecessor succeeded. */
  lemma StepAsksOnlyAfter(m: Mapper, e: Event, env: Env, g: int)
    requires Possible(m, e)
    ensures Asking(Step(m, e, env), AddMapping, g) ==>
      Asking(m, AddMapping, g) || (e.Run? && Reaches(m, e.op, env, Described, g))
    ensures Asking(Step(m, e, env), Describe, g) ==>
      Asking(m, Describe, g) || (e.Run? && Reaches(m, e.op, env, Located, g))
  {
    hide RunOp, MapPort, Due;
    forall made | made in Step(m, e, env).pending && made.Http? && made.generation == g
      ensures Asking(m, made.stage, g)
           || (e.Run? && Reaches(m, e.op, env, if made.stage == AddMapping then Described else Located, g))
    {
      if e.Map? {
        MapStartsNoRequest(m, e.onResult, env, made);
      } else {
        RunStarts(m, e.op, env, made);
      }
    }
  }

  lemma {:induction false} AsksOnlyAfter(m: Mapper, es: seq<(Event, Env)>, g: int)
    requires PossibleRun(m, es)
    ensures Asking(StepAll(m, es), AddMapping, g) ==> Asking(m, AddMapping, g) || Reached(m, es, Described, g)
    ensures Asking(StepAll(m, es), Describe, g) ==> Asking(m, Describe, g) || Reached(m, es, Located, g)
    decreases |es|
  {
    hide Step, Possible, Asking, Reaches;
    if es != [] {
      StepAsksOnlyAfter(m, es[0].0, es[0].1, g);
      AsksOnlyAfter(Step(m, es[0].0, es[0].1), es[1..], g);
    }
  }

  /** What a milestone takes for granted: the request whose answer it is. */
  lemma ReachesByAsking(m: Mapper, op: Op, env: Env, g: int)
    requires op in m.pending
    ensures Reaches(m, op, env, Confirmed, g) ==> Asking(m, AddMapping, g)
    ensures Reaches(m, op, env, Described, g) ==> Asking(m, Describe, g)
  {}

  lemma {:induction false} MilestonesInOrder(m: Mapper, es: seq<(Event, Env)>, g: int)
    requires PossibleRun(m, es)
    ensures Reached(m, es, Confirmed, g) ==> Asking(m, AddMapping, g) || Reached(m, es, Described, g)
    ensures Reached(m, es, Described, g) ==> Asking(m, Describe, g) || Reached(m, es, Located, g)
    decreases |es|
  {
    hide Step, Asking, Reaches;
    if es != [] {
      var (e, env) := es[0];
      if e.Run? {
        ReachesByAsking(m, e.op, env, g);
      }
      StepAsksOnlyAfter(m, e, env, g);
      MilestonesInOrder(Step(m, e, env), es[1..], g);
    }
  }

  /**
   * Over every run from the start: mapPort number g is told of success if and only if, while it was the newest, the
   * router confirmed its mapping; and that is preceded by a description with a control URL and, before it, by an
   * answer to the search. A mapping request exists only after such a description, whatever the run.
   */
  lemma {:induction false} SuccessIff(es: seq<(Event, Env)>, g: int)
    requires PossibleRun(INITIAL, es)
    ensures ToldYes(StepAll(INITIAL, es), g) <==> Reached(INITIAL, es, Confirmed, g)
    ensures Reached(INITIAL, es, Confirmed, g) ==> Reached(INITIAL, es, Described, g)
    ensures Reached(INITIAL, es, Described, g) ==> Reached(INITIAL, es, Located, g)
    ensures Asking(StepAll(INITIAL, es), AddMapping, g) ==> Reached(INITIAL, es, Described, g)
    ensures Asking(StepAll(INITIAL, es), Describe, g) ==> Reached(INITIAL, es, Located, g)
  {
    NothingYet(g);
    hide MapperInv, StepAll, Reached, PossibleRun, ToldYes, Asking;
    SaidYesIff(INITIAL, es, g);
    MilestonesInOrder(INITIAL, es, g);
    AsksOnlyAfter(INITIAL, es, g);
  }

  lemma NothingYet(g: int)
    ensures MapperInv(INITIAL) && !ToldYes(INITIAL, g)
    ensures !Asking(INITIAL, Describe, g) && !Asking(INITIAL, AddMapping, g)
  {}

  // Whom a result is told

  /** The callbacks of the calls of a run, in order: the g-th call is mapPort number g. */
  function Callers(es: seq<(Event, Env)>): seq<int> {
    if es == [] then [] else (if es[0].0.Map? then [es[0].0.onResult] else []) + Callers(es[1..])
  }

  /** Every result is told to the callback that came with its own call. */
  ghost predicate ToldTheirCaller(m: Mapper, callers: seq<int>) {
    && m.generation == |callers| && (callers != [] ==> m.onResult == callers[|callers| - 1])
    && forall r :: r in m.results ==> 1 <= r.generation <= |callers| && r.callback == callers[r.generation - 1]
  }

  lemma StepTellsCaller(m: Mapper, e: Event, env: Env, callers: seq<int>)
    requires MapperInv(m) && Possible(m, e) && ToldTheirCaller(m, callers)
    ensures ToldTheirCaller(Step(m, e, env), callers + if e.Map? then [e.onResult] else [])
  {
    hide MapperInv, MapPort, RunOp, Due, Confirms, Fails;
    GenerationGrows(m, e, env);
    match e
    case Map(callback) =>
      MapReportsIff(m, callback, env);
      MapTakesCallback(m, callback, env);
    case Run(op) =>
      ReportsIff(m, op, env);
      OneCallMade(m, op);
      RunKeepsCallback(m, op, env);
      assert callers + [] == callers;
  }

  lemma MapTakesCallback(m: Mapper, callback: int, env: Env)
    ensures MapPort(m, callback, env).onResult == callback && MapPort(m, callback, env).generation == m.generation + 1
  {}

  lemma RunKeepsCallback(m: Mapper, op: Op, env: Env)
    requires op in m.pending
    ensures RunOp(m, op, env).onResult == m.onResult && RunOp(m, op, env).generation == m.generation
  {}

  /** Before the first call no handler is there to report. */
  lemma OneCallMade(m: Mapper, op: Op)
    requires MapperInv(m) && op in m.pending
    ensures Due(m, op) && !op.SsdpTimer? ==> m.generation > 0
    ensures Due(m, op) && op.SsdpTimer? ==> m.generation > 0
  {
    assert OpOk(m, op);
    assert m.generation == 0 ==> NothingOwed(m);
    if op.SsdpTimer? && Due(m, op) {
      assert Live(m, SsdpReceive(op.generation, op.request));
    }
  }

  lemma {:induction false} RunTellsCallers(m: Mapper, es: seq<(Event, Env)>, callers: seq<int>)
    requires MapperInv(m) && PossibleRun(m, es) && ToldTheirCaller(m, callers)
    ensures ToldTheirCaller(StepAll(m, es), callers + Callers(es))
    decreases |es|
  {
    hide MapperInv, Step, Possible, ToldTheirCaller;
    if es == [] {
      assert callers + Callers(es) == callers;
    } else {
      var (e, env) := es[0];
      StepTellsCaller(m, e, env, callers);
      StepInv(m, e, env);
      var more := if e.Map? then [e.onResult] else [];
      RunTellsCallers(Step(m, e, env), es[1..], callers + more);
      assert callers + Callers(es) == callers + more + Callers(es[1..]);
    }
  }

  /** Over every run from the start, each result goes to the callback of the very call it answers. */
  lemma {:induction false} ResultsReachTheirCallers(es: seq<(Event, Env)>)
    requires PossibleRun(INITIAL, es)
    ensures ToldTheirCaller(StepAll(INITIAL, es), Callers(es))
  {
    assert MapperInv(INITIAL) && ToldTheirCaller(INITIAL, []);
    assert [] + Callers(es) == Callers(es);
    RunTellsCallers(INITIAL, es, []);
  }

  // Two routers

  const FINE: Env := Env(true, true, true, true, true)

  /** Each handler is pending when its turn comes. */
  predicate CanRun(m: Mapper, ops: seq<Op>)
    decreases |ops|
  {
    ops == [] || (ops[0] in m.pending && CanRun(RunOp(m, ops[0], FINE), ops[1..]))
  }

  /** Handlers run one after another, everything succeeds, and every timer runs out. */
  function RunFine(m: Mapper, ops: seq<Op>): Mapper
    requires CanRun(m, ops)
    decreases |ops|
  {
    if ops == [] then m else RunFine(RunOp(m, ops[0], FINE), ops[1..])
  }

  /** The phases of a request from a given one on: resolve, connect, write and read. */
  function Phases(g: int, q: nat, stage: Stage, phase: Phase): seq<Op>
    decreases 4 - Index(phase)
  {
    [Http(g, q, stage, phase)] + if phase == Reading then [] else Phases(g, q, stage, NextPhase(phase))
  }

  lemma {:induction false} PhasesUnfold(g: int, q: nat, stage: Stage, phase: Phase)
    ensures var ops := Phases(g, q, stage, phase);
      ops != [] && ops[0] == Http(g, q, stage, phase)
      && ops[1..] == if phase == Reading then [] else Phases(g, q, stage, NextPhase(phase))
  {}

  /** What the answer of a request that is due leads to when all goes well. */
  function Answered(m: Mapper, op: Op): Mapper
    requires op.Http?
  {
    var rest := m.(pending := m.pending - multiset{op}, done := m.done + {op.request});
    if op.stage == AddMapping then Finish(rest, m.generation, true) else HttpRequest(rest, m.generation, AddMapping)
  }

  /** One phase: the last one leads to the answer, any other to the next. */
  lemma PhaseRuns(m: Mapper, op: Op)
    requires op.Http? && op.generation == m.generation && op in m.pending && op.request !in m.done
    ensures var n, next := RunOp(m, op, FINE), op.(phase := NextPhase(op.phase));
      if op.phase == Reading then n == Answered(m, op)
      else next in n.pending && n.generation == m.generation && n.done == m.done && Answered(n, next) == Answered(m, op)
  {
    var next := op.(phase := NextPhase(op.phase));
    assert m.pending - multiset{op} + multiset{next} - multiset{next} == m.pending - multiset{op};
  }

  lemma {:induction false} PhasesRun(m: Mapper, q: nat, stage: Stage, phase: Phase)
    requires Http(m.generation, q, stage, phase) in m.pending && q !in m.done
    ensures CanRun(m, Phases(m.generation, q, stage, phase))
    ensures RunFine(m, Phases(m.generation, q, stage, phase)) == Answered(m, Http(m.generation, q, stage, phase))
    decreases 4 - Index(phase)
  {
    hide RunOp, Phases, Answered;
    var op := Http(m.generation, q, stage, phase);
    PhasesUnfold(m.generation, q, stage, phase);
    PhaseRuns(m, op);
    if phase != Reading {
      PhasesRun(RunOp(m, op, FINE), q, stage, NextPhase(phase));
    }
  }

  function Index(p: Phase): nat {
    match p case Resolving => 0 case Connecting => 1 case Writing => 2 case Reading => 3
  }

  /** The answer to a search that is due leads to the request for the description. */
  lemma LocatedAsks(m: Mapper, q: nat)
    requires SsdpReceive(m.generation, q) in m.pending && q !in m.done
    ensures var n := RunOp(m, SsdpReceive(m.generation, q), FINE);
      && Http(m.generation, |m.requests|, Describe, Resolving) in n.pending && n.done == m.done + {q}
      && n.generation == m.generation && n.onResult == m.onResult && n.results == m.results
      && |n.requests| == |m.requests| + 1
  {}

  lemma AnsweredAsks(m: Mapper, op: Op)
    requires op.Http? && op in m.pending
    ensures var n := Answered(m, op);
      && n.generation == m.generation && n.onResult == m.onResult && n.done == m.done + {op.request}
      && (op.stage == AddMapping ==> n.results == m.results + [Result(m.generation, m.onResult, true)])
      && (op.stage == Describe ==>
            n.results == m.results && Http(m.generation, |m.requests|, AddMapping, Resolving) in n.pending)
  {}

  lemma SearchAsks(m: Mapper, callback: int, env: Env)
    requires MapperInv(m) && env.bound
    ensures var n := MapPort(m, callback, env);
      && SsdpReceive(m.generation + 1, |m.requests|) in n.pending && n.done == m.done && n.results == m.results
      && n.onResult == callback && n.generation == m.generation + 1 && |n.requests| == |m.requests| + 1
    ensures forall d :: d in m.done ==> d < |m.requests|
  {}

  /**
   * A router that answers the search, describes itself and confirms the mapping: the call succeeds, whatever else
   * was under way before.
   */
  lemma AnsweringRouterMaps(m: Mapper, callback: int, env: Env)
    requires MapperInv(m) && env.bound
    ensures var g, q := m.generation + 1, |m.requests|;
      var searching := MapPort(m, callback, env);
      && SsdpReceive(g, q) in searching.pending
      && var located := RunOp(searching, SsdpReceive(g, q), FINE);
         && CanRun(located, Phases(g, q + 1, Describe, Resolving))
         && var described := RunFine(located, Phases(g, q + 1, Describe, Resolving));
            && CanRun(described, Phases(g, q + 2, AddMapping, Resolving))
            && RunFine(described, Phases(g, q + 2, AddMapping, Resolving)).results
               == m.results + [Result(g, callback, true)]
  {
    hide *;
    SearchAsks(m, callback, env);
    var g, q, searching := m.generation + 1, |m.requests|, MapPort(m, callback, env);
    LocatedAsks(searching, q);
    var located := RunOp(searching, SsdpReceive(g, q), FINE);
    PhasesRun(located, q + 1, Describe, Resolving);
    var describing := Http(g, q + 1, Describe, Resolving);
    AnsweredAsks(located, describing);
    var described := RunFine(located, Phases(g, q + 1, Describe, Resolving));
    PhasesRun(described, q + 2, AddMapping, Resolving);
    AnsweredAsks(described, Http(g, q + 2, AddMapping, Resolving));
  }

  /** Attempt number k + 1 of a call that nobody has answered yet. */
  ghost predicate Searching(m: Mapper, callback: int, q: nat, k: nat) {
    && m.retryCount == k && m.attempts == k + 1 && m.onResult == callback && |m.requests| == q + 1
    && SsdpTimer(m.generation, q, k) in m.pending && forall d :: d in m.done ==> d < q
  }

  lemma SearchStarts(m: Mapper, callback: int, env: Env)
    requires MapperInv(m) && env.bound
    ensures Searching(MapPort(m, callback, env), callback, |m.requests|, 0)
    ensures MapPort(m, callback, env).results == m.results
  {}

  /** A search that runs out of time is repeated after a pause, two times, and then given up. */
  lemma SearchRunsOut(m: Mapper, callback: int, q: nat, k: nat)
    requires Searching(m, callback, q, k)
    ensures var timedOut := RunOp(m, SsdpTimer(m.generation, q, k), FINE);
      if k + 1 < 3 then
        && RetryTimer(m.generation, k + 1) in timedOut.pending
        && var again := RunOp(timedOut, RetryTimer(m.generation, k + 1), FINE);
           Searching(again, callback, q + 1, k + 1) && again.results == m.results && again.generation == m.generation
      else timedOut.results == m.results + [Result(m.generation, callback, false)] && timedOut.attempts == m.attempts
  {}

  /** A router that never answers: three attempts, no more and no fewer, and then the call fails. */
  lemma SilentRouterFails(m: Mapper, callback: int, env: Env)
    requires MapperInv(m) && env.bound
    ensures var g, q := m.generation + 1, |m.requests|;
      var first := MapPort(m, callback, env);
      && SsdpTimer(g, q, 0) in first.pending
      && var pause := RunOp(first, SsdpTimer(g, q, 0), FINE);
         && RetryTimer(g, 1) in pause.pending
         && var second := RunOp(pause, RetryTimer(g, 1), FINE);
            && SsdpTimer(g, q + 1, 1) in second.pending
            && var longer := RunOp(second, SsdpTimer(g, q + 1, 1), FINE);
               && RetryTimer(g, 2) in longer.pending
               && var third := RunOp(longer, RetryTimer(g, 2), FINE);
                  && SsdpTimer(g, q + 2, 2) in third.pending && third.attempts == 3
                  && RunOp(third, SsdpTimer(g, q + 2, 2), FINE).results == m.results + [Result(g, callback, false)]
  {
    hide MapPort, RunOp;
    var g, q := m.generation + 1, |m.requests|;
    var first := MapPort(m, callback, env);
    SearchStarts(m, callback, env);
    MapTakesCallback(m, callback, env);
    SearchRunsOut(first, callback, q, 0);
    var second := RunOp(RunOp(first, SsdpTimer(g, q, 0), FINE), RetryTimer(g, 1), FINE);
    SearchRunsOut(second, callback, q + 1, 1);
    var third := RunOp(RunOp(second, SsdpTimer(g, q + 1, 1), FINE), RetryTimer(g, 2), FINE);
    SearchRunsOut(third, callback, q + 2, 2);
  }
}
