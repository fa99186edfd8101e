/**
 * UpnpMapper (src/net/upnp.cpp) as a function of the handler that runs. Every asynchronous operation is an entry in
 * `pending` until its handler runs, exactly once; operations that race share a request number whose done flag the
 * first of them sets; `requests` records for which generation each number was taken.
 */
module UpnpModel {

  datatype Stage = Describe | AddMapping

  datatype Phase = Resolving | Connecting | Writing | Reading

  /** `attempt` is the retry count at which the operation was started. */
  datatype Op =
    | SsdpReceive(generation: int, request: nat)
    | SsdpTimer(generation: int, request: nat, attempt: int)
    | RetryTimer(generation: int, attempt: int)
    | Http(generation: int, request: nat, stage: Stage, phase: Phase)
    | HttpTimer(request: nat)

  /** One call of onResult: the callback that was called, and for which mapPort. */
  datatype Result = Result(generation: int, callback: int, ok: bool)

  datatype Mapper = Mapper(
    generation: int, retryCount: int, onResult: int, done: set<nat>, requests: seq<int>,
    pending: multiset<Op>, results: seq<Result>, attempts: nat)

  /** How the operations of one handler turn out. */
  datatype Env = Env(bound: bool, expired: bool, io: bool, found: bool, status2xx: bool)

  const MAX_RETRIES: int := 3

  const INITIAL: Mapper := Mapper(0, 0, 0, {}, [], multiset{}, [], 0)

  function Finish(m: Mapper, generation: int, ok: bool): Mapper {
    if generation != m.generation then m else m.(results := m.results + [Result(generation, m.onResult, ok)])
  }

  function Discover(m: Mapper, generation: int, env: Env): Mapper {
    if generation != m.generation then m
    else
      var tried := m.(attempts := m.attempts + 1);
      if !env.bound then Finish(tried, generation, false) else Attempt(tried)
  }

  /** The receive and the timer of one discovery attempt. */
  function Attempt(m: Mapper): Mapper {
    m.(requests := m.requests + [m.generation],
       pending := m.pending + multiset{SsdpReceive(m.generation, |m.requests|),
                                       SsdpTimer(m.generation, |m.requests|, m.retryCount)})
  }

  function MapPort(m: Mapper, onResult: int, env: Env): Mapper {
    Discover(m.(generation := m.generation + 1, retryCount := 0, onResult := onResult, attempts := 0), m.generation + 1,
             env)
  }

  function HttpRequest(m: Mapper, generation: int, stage: Stage): Mapper {
    m.(requests := m.requests + [generation],
       pending := m.pending + multiset{HttpTimer(|m.requests|), Http(generation, |m.requests|, stage, Resolving)})
  }

  function OnReceive(m: Mapper, op: Op, env: Env): Mapper
    requires op.SsdpReceive?
  {
    if op.request in m.done then m
    else
      var raced := m.(done := m.done + {op.request});
      if op.generation != m.generation then raced
      else if !env.io || !env.found then Finish(raced, op.generation, false)
      else HttpRequest(raced, op.generation, Describe)
  }

  function OnSsdpTimer(m: Mapper, op: Op, env: Env): Mapper
    requires op.SsdpTimer?
  {
    if !env.expired || op.request in m.done then m
    else
      var raced := m.(done := m.done + {op.request});
      if op.generation != m.generation then raced
      else if m.retryCount + 1 < MAX_RETRIES then
        raced.(retryCount := m.retryCount + 1,
               pending := m.pending + multiset{RetryTimer(op.generation, m.retryCount + 1)})
      else Finish(raced, op.generation, false)
  }

  /** The caller's continuation of a finished request. */
  function OnResponse(m: Mapper, op: Op, ok: bool, env: Env): Mapper
    requires op.Http?
  {
    if op.generation != m.generation then m
    else if op.stage == AddMapping then Finish(m, op.generation, ok)
    else if !ok || !env.found then Finish(m, op.generation, false)
    else HttpRequest(m, op.generation, AddMapping)
  }

  function NextPhase(p: Phase): Phase {
    match p case Resolving => Connecting case Connecting => Writing case Writing => Reading case Reading => Reading
  }

  function OnHttp(m: Mapper, op: Op, env: Env): Mapper
    requires op.Http?
  {
    if op.request in m.done then m
    else if env.io && op.phase != Reading then m.(pending := m.pending + multiset{op.(phase := NextPhase(op.phase))})
    else OnResponse(m.(done := m.done + {op.request}), op, env.io && env.status2xx, env)
  }

  /** The handler of a pending operation runs. */
  function RunOp(m: Mapper, op: Op, env: Env): Mapper
    requires op in m.pending
  {
    var taken := m.(pending := m.pending - multiset{op});
    match op
    case SsdpReceive(_, _) => OnReceive(taken, op, env)
    case SsdpTimer(_, _, _) => OnSsdpTimer(taken, op, env)
    case RetryTimer(generation, _) => Discover(taken, generation, env)
    case Http(_, _, _, _) => OnHttp(taken, op, env)
    case HttpTimer(_) => taken
  }

  // Exactly one obligation or one result

  /** An operation that still owes the newest mapPort its result. */
  predicate Live(m: Mapper, op: Op) {
    && !op.SsdpTimer? && !op.HttpTimer?
    && op.generation == m.generation
    && (op.RetryTimer? || op.request !in m.done)
  }

  function CountResults(results: seq<Result>, generation: int): nat {
    if results == [] then 0
    else
      CountResults(results[..|results| - 1], generation)
      + if results[|results| - 1].generation == generation then 1 else 0
  }

  lemma {:induction false} CountSnoc(results: seq<Result>, r: Result, generation: int)
    ensures CountResults(results + [r], generation)
         == CountResults(results, generation) + if r.generation == generation then 1 else 0
  {
    assert (results + [r])[..|results|] == results;
  }

  ghost predicate NothingOwed(m: Mapper) {
    forall op :: op in m.pending ==> !Live(m, op)
  }

  ghost predicate OnlyOwed(m: Mapper, op: Op) {
    m.pending[op] == 1 && Live(m, op) && forall other :: other in m.pending && Live(m, other) ==> other == op
  }

  /**
   * Bookkeeping for one pending operation. An unfinished discovery timer races a receive of its own attempt.
   */
  ghost predicate OpOk(m: Mapper, op: Op) {
    match op
    case SsdpReceive(g, q) => g <= m.generation && q < |m.requests| && m.requests[q] == g
    case SsdpTimer(g, q, a) =>
      && g <= m.generation && q < |m.requests| && m.requests[q] == g
      && (g == m.generation && q !in m.done ==> SsdpReceive(g, q) in m.pending && a == m.retryCount)
    case RetryTimer(g, a) => g < m.generation || (g == m.generation && a == m.retryCount)
    case Http(g, q, _, _) => g <= m.generation && q < |m.requests| && m.requests[q] == g
    case HttpTimer(_) => true
  }

  ghost predicate Tidy(m: Mapper) {
    && (forall op :: op in m.pending ==> OpOk(m, op))
    && (forall d :: d in m.done ==> d < |m.requests|)
    && (forall r :: r in m.results ==> r.generation <= m.generation)
    && 0 <= m.retryCount < MAX_RETRIES && 0 <= m.generation
  }

  /** The newest mapPort has neither a result nor anything that owes one: a handler in mid-air. */
  ghost predicate InHand(m: Mapper) {
    && Tidy(m) && m.generation > 0 && NothingOwed(m)
    && (forall g :: CountResults(m.results, g) <= 1) && CountResults(m.results, m.generation) == 0
  }

  ghost predicate Owing(m: Mapper, op: Op) {
    && OnlyOwed(m, op) && CountResults(m.results, m.generation) == 0
    && m.attempts == m.retryCount + if op.RetryTimer? then 0 else 1
  }

  /**
   * At any time after a mapPort, results delivered for it plus operations that still owe it one are exactly 1,
   * and no mapPort ever got more than one result.
   */
  ghost predicate MapperInv(m: Mapper) {
    && Tidy(m)
    && (forall g :: CountResults(m.results, g) <= 1)
    && (m.generation == 0 || CountResults(m.results, m.generation) == 1 ==> NothingOwed(m) && m.attempts <= MAX_RETRIES)
    && (m.generation > 0 && CountResults(m.results, m.generation) == 0 ==> exists op :: Owing(m, op))
  }

  lemma FinishInv(m: Mapper, ok: bool)
    requires InHand(m) && m.attempts <= MAX_RETRIES
    ensures MapperInv(Finish(m, m.generation, ok))
  {
    var r := Result(m.generation, m.onResult, ok);
    forall g
      ensures CountResults(m.results + [r], g) == CountResults(m.results, g) + if g == m.generation then 1 else 0
    {
      CountSnoc(m.results, r, g);
    }
    forall op | op in m.pending
      ensures !Live(Finish(m, m.generation, ok), op)
    {
      assert !Live(m, op);
    }
  }

  lemma OweInv(m: Mapper, n: Mapper, op: Op)
    requires InHand(m) && Tidy(n) && Live(n, op) && op !in m.pending && n.pending[op] == 1
    requires n.generation == m.generation && n.results == m.results && m.done == n.done
    requires forall o :: o in n.pending ==> o == op || o in m.pending || o.HttpTimer? || o.SsdpTimer?
    requires n.attempts == n.retryCount + if op.RetryTimer? then 0 else 1
    ensures MapperInv(n)
  {
    forall o | o in n.pending && Live(n, o)
      ensures o == op
    {
      assert o in m.pending ==> !Live(m, o);
    }
    assert Owing(n, op);
  }

  lemma RequestInv(m: Mapper, stage: Stage)
    requires InHand(m) && m.attempts == m.retryCount + 1
    ensures MapperInv(HttpRequest(m, m.generation, stage))
  {
    OweInv(m, HttpRequest(m, m.generation, stage), Http(m.generation, |m.requests|, stage, Resolving));
  }

  lemma AttemptsCountFreely(m: Mapper, attempts: nat)
    requires InHand(m)
    ensures InHand(m.(attempts := attempts)) && m.retryCount < MAX_RETRIES
  {
    var n := m.(attempts := attempts);
    forall op | op in n.pending
      ensures OpOk(n, op) && !Live(n, op)
    {
      assert OpOk(m, op) && !Live(m, op);
    }
  }

  /** The two operations of a discovery attempt: one owes the result, the other races it. */
  lemma AttemptInv(m: Mapper)
    requires InHand(m) && m.attempts == m.retryCount + 1
    ensures MapperInv(Attempt(m))
  {
    var receive, timer := SsdpReceive(m.generation, |m.requests|), SsdpTimer(m.generation, |m.requests|, m.retryCount);
    var n := Attempt(m);
    forall o | o in n.pending
      ensures o == receive || o == timer || o in m.pending
      ensures OpOk(n, o)
    {
      if o != receive && o != timer {
        assert o in m.pending && OpOk(m, o);
      }
    }
    assert receive !in m.pending && receive != timer;
    OweInv(m, n, receive);
  }

  lemma DiscoverInv(m: Mapper, env: Env)
    requires InHand(m) && m.attempts == m.retryCount
    ensures MapperInv(Discover(m, m.generation, env))
  {
    hide MapperInv, InHand;
    var tried := m.(attempts := m.attempts + 1);
    AttemptsCountFreely(m, m.attempts + 1);
    if !env.bound {
      FinishInv(tried, false);
    } else {
      AttemptInv(tried);
    }
  }

  lemma RetryInv(m: Mapper)
    requires InHand(m) && m.attempts == m.retryCount + 1 && m.retryCount + 1 < MAX_RETRIES
    requires forall op :: op in m.pending && op.RetryTimer? ==> op.generation != m.generation
    requires forall op :: op in m.pending && op.SsdpTimer? && op.generation == m.generation ==> op.request in m.done
    ensures MapperInv(m.(retryCount := m.retryCount + 1,
                         pending := m.pending + multiset{RetryTimer(m.generation, m.retryCount + 1)}))
  {
    var op := RetryTimer(m.generation, m.retryCount + 1);
    var n := m.(retryCount := m.retryCount + 1, pending := m.pending + multiset{op});
    assert forall o :: o in n.pending ==> o == op || o in m.pending;
    OweInv(m, n, op);
  }

  lemma {:induction false} CountNone(results: seq<Result>, generation: int)
    requires forall r :: r in results ==> r.generation != generation
    ensures CountResults(results, generation) == 0
  {
    if results != [] {
      CountNone(results[..|results| - 1], generation);
    }
  }

  lemma SupersedeInHand(m: Mapper, onResult: int)
    requires MapperInv(m)
    ensures InHand(m.(generation := m.generation + 1, retryCount := 0, onResult := onResult, attempts := 0))
  {
    var started := m.(generation := m.generation + 1, retryCount := 0, onResult := onResult, attempts := 0);
    CountNone(m.results, m.generation + 1);
    forall o | o in started.pending
      ensures OpOk(started, o) && !Live(started, o)
    {
      assert OpOk(m, o);
    }
  }

  /** mapPort supersedes whatever was under way and starts owing anew. */
  lemma MapPortInv(m: Mapper, onResult: int, env: Env)
    requires MapperInv(m)
    ensures MapperInv(MapPort(m, onResult, env))
  {
    hide MapperInv, InHand;
    SupersedeInHand(m, onResult);
    DiscoverInv(m.(generation := m.generation + 1, retryCount := 0, onResult := onResult, attempts := 0), env);
  }

  /** Taking the live operation's handler in hand leaves nothing owed. */
  lemma TakeLive(m: Mapper, op: Op)
    requires MapperInv(m) && op in m.pending && Live(m, op)
    ensures Owing(m, op)
    ensures var taken := m.(pending := m.pending - multiset{op});
      InHand(if op.RetryTimer? then taken else taken.(done := m.done + {op.request}))
  {
    var owed :| Owing(m, owed);
    assert owed == op;
    var taken := m.(pending := m.pending - multiset{op});
    var n := if op.RetryTimer? then taken else taken.(done := m.done + {op.request});
    assert forall o :: o in n.pending ==> o in m.pending;
    forall o | o in n.pending
      ensures !Live(n, o)
    {
      assert Live(m, o) ==> o == op;
      assert n.pending[op] == 0;
    }
  }

  lemma ReceiveInv(m: Mapper, op: Op, env: Env)
    requires MapperInv(m) && op in m.pending && op.SsdpReceive? && Live(m, op)
    ensures MapperInv(RunOp(m, op, env))
  {
    TakeLive(m, op);
    var n := m.(pending := m.pending - multiset{op}, done := m.done + {op.request});
    if env.io && env.found {
      RequestInv(n, Describe);
    } else {
      FinishInv(n, false);
    }
  }

  lemma HttpInv(m: Mapper, op: Op, env: Env)
    requires MapperInv(m) && op in m.pending && op.Http? && Live(m, op)
    ensures MapperInv(RunOp(m, op, env))
  {
    TakeLive(m, op);
    var n := m.(pending := m.pending - multiset{op}, done := m.done + {op.request});
    if env.io && op.phase != Reading {
      NextPhaseInv(m, op);
    } else if op.stage == AddMapping {
      FinishInv(n, env.io && env.status2xx);
    } else if !(env.io && env.status2xx) || !env.found {
      FinishInv(n, false);
    } else {
      RequestInv(n, AddMapping);
    }
  }

  lemma NextPhaseInv(m: Mapper, op: Op)
    requires MapperInv(m) && Owing(m, op) && op.Http?
    ensures MapperInv(m.(pending := m.pending - multiset{op} + multiset{op.(phase := NextPhase(op.phase))}))
  {
    var next := op.(phase := NextPhase(op.phase));
    var n := m.(pending := m.pending - multiset{op} + multiset{next});
    assert next != op ==> next !in m.pending;
    forall o | o in n.pending
      ensures o == next || (o in m.pending && o != op)
      ensures OpOk(n, o)
    {
      assert o != next ==> o in m.pending && OpOk(m, o);
      assert OpOk(m, op);
    }
    assert Owing(n, next);
  }

  /** The operations of a pending set without `op`, after its request was marked done, are still in order. */
  lemma RaceLost(m: Mapper, op: Op)
    requires MapperInv(m) && op in m.pending && op.SsdpTimer? && op.request !in m.done && op.generation == m.generation
    ensures Owing(m, SsdpReceive(op.generation, op.request))
    ensures var n := m.(pending := m.pending - multiset{op}, done := m.done + {op.request});
      && InHand(n) && n.attempts == n.retryCount + 1
      && (forall o :: o in n.pending && o.RetryTimer? ==> o.generation != n.generation)
      && (forall o :: o in n.pending && o.SsdpTimer? && o.generation == n.generation ==> o.request in n.done)
  {
    assert OpOk(m, op);
    var receive := SsdpReceive(op.generation, op.request);
    assert Live(m, receive);
    var owed :| Owing(m, owed);
    assert owed == receive;
    var n := m.(pending := m.pending - multiset{op}, done := m.done + {op.request});
    forall o | o in n.pending
      ensures o in m.pending && OpOk(n, o) && !Live(n, o)
      ensures o.SsdpTimer? && o.generation == n.generation ==> o.request in n.done
    {
      assert o in m.pending && OpOk(m, o);
      assert Live(m, o) ==> o == receive;
      if o.SsdpTimer? && o.generation == n.generation && o.request !in m.done {
        assert Live(m, SsdpReceive(o.generation, o.request));
      }
    }
    assert m.generation > 0;
  }

  lemma SsdpTimerInv(m: Mapper, op: Op, env: Env)
    requires MapperInv(m) && op in m.pending && op.SsdpTimer?
    requires env.expired && op.request !in m.done && op.generation == m.generation
    ensures MapperInv(RunOp(m, op, env))
  {
    RaceLost(m, op);
    hide MapperInv, InHand, OnReceive, OnHttp, Discover, Owing;
    var n := m.(pending := m.pending - multiset{op}, done := m.done + {op.request});
    if m.retryCount + 1 < MAX_RETRIES {
      RetryInv(n);
    } else {
      FinishInv(n, false);
    }
  }

  /** Removing an operation that owes nothing, and finishing a request of an older generation, changes no debt. */
  lemma DropInv(m: Mapper, op: Op, finished: set<nat>)
    requires MapperInv(m) && op in m.pending && !Live(m, op)
    requires forall q :: q in finished ==> q < |m.requests| && m.requests[q] != m.generation
    ensures MapperInv(m.(pending := m.pending - multiset{op}, done := m.done + finished))
  {
    var n := m.(pending := m.pending - multiset{op}, done := m.done + finished);
    forall o | o in n.pending
      ensures o in m.pending && OpOk(n, o) && (Live(n, o) ==> Live(m, o))
    {
      assert o in m.pending && OpOk(m, o);
      if o.SsdpTimer? && o.generation == n.generation && o.request !in n.done {
        assert Live(m, SsdpReceive(o.generation, o.request));
      }
    }
    if m.generation > 0 && CountResults(m.results, m.generation) == 0 {
      var owed :| Owing(m, owed);
      assert owed != op && OpOk(m, owed);
      assert Owing(n, owed);
    }
  }

  /** An operation of an older generation adds no debt. */
  lemma AddInv(m: Mapper, op: Op)
    requires MapperInv(m) && OpOk(m, op) && op.Http? && op.generation != m.generation
    ensures MapperInv(m.(pending := m.pending + multiset{op}))
  {
    var n := m.(pending := m.pending + multiset{op});
    forall o | o in n.pending
      ensures (o == op || o in m.pending) && OpOk(n, o) && (Live(n, o) ==> o in m.pending && Live(m, o))
    {
      assert o == op || (o in m.pending && OpOk(m, o));
    }
    if m.generation > 0 && CountResults(m.results, m.generation) == 0 {
      var owed :| Owing(m, owed);
      assert Owing(n, owed);
    }
  }

  /** A handler that owes nothing to the newest mapPort leaves what is owed alone, and reports nothing. */
  lemma BystanderInv(m: Mapper, op: Op, env: Env)
    requires MapperInv(m) && op in m.pending && !Live(m, op)
    requires op.SsdpTimer? && op.generation == m.generation ==> !env.expired || op.request in m.done
    ensures MapperInv(RunOp(m, op, env)) && RunOp(m, op, env).results == m.results
  {
    assert OpOk(m, op);
    DropInv(m, op, {});
    var taken := m.(pending := m.pending - multiset{op});
    assert taken.(done := m.done + {}) == taken;
    if !op.HttpTimer? && !op.RetryTimer? && op.generation != m.generation && op.request !in m.done {
      DropInv(m, op, {op.request});
      if op.Http? {
        AddInv(taken, op.(phase := NextPhase(op.phase)));
      }
    }
  }

  /** Every handler keeps the invariant. */
  lemma RunOpInv(m: Mapper, op: Op, env: Env)
    requires MapperInv(m) && op in m.pending
    ensures MapperInv(RunOp(m, op, env))
  {
    if Live(m, op) {
      match op
      case SsdpReceive(_, _) => ReceiveInv(m, op, env);
      case Http(_, _, _, _) => HttpInv(m, op, env);
      case RetryTimer(_, _) =>
        TakeLive(m, op);
        DiscoverInv(m.(pending := m.pending - multiset{op}), env);
    } else if op.SsdpTimer? && op.generation == m.generation && env.expired && op.request !in m.done {
      SsdpTimerInv(m, op, env);
    } else {
      BystanderInv(m, op, env);
    }
  }

  // Runs

  datatype Event = Map(onResult: int) | Run(op: Op)

  predicate Possible(m: Mapper, e: Event) {
    e.Run? ==> e.op in m.pending
  }

  function Step(m: Mapper, e: Event, env: Env): Mapper
    requires Possible(m, e)
  {
    match e case Map(cb) => MapPort(m, cb, env) case Run(op) => RunOp(m, op, env)
  }

  predicate PossibleRun(m: Mapper, es: seq<(Event, Env)>)
    decreases |es|
  {
    es == [] || (Possible(m, es[0].0) && PossibleRun(Step(m, es[0].0, es[0].1), es[1..]))
  }

  function StepAll(m: Mapper, es: seq<(Event, Env)>): Mapper
    requires PossibleRun(m, es)
    decreases |es|
  {
    if es == [] then m else StepAll(Step(m, es[0].0, es[0].1), es[1..])
  }

  lemma {:induction false} StepAllInv(m: Mapper, es: seq<(Event, Env)>)
    requires MapperInv(m) && PossibleRun(m, es)
    ensures MapperInv(StepAll(m, es))
    decreases |es|
  {
    if es != [] {
      var (e, env) := es[0];
      match e {
        case Map(cb) => MapPortInv(m, cb, env);
        case Run(op) => RunOpInv(m, op, env);
      }
      StepAllInv(Step(m, e, env), es[1..]);
    }
  }

  /**
   * The promise of mapPort, over every run of callbacks, races, retries and superseding calls: the newest call has
   * been answered once or is still owed by exactly one pending operation, no call was ever answered twice, and
   * when no operation is pending the newest one has been answered, after at most three attempts.
   */
  lemma {:induction false} ExactlyOneResult(es: seq<(Event, Env)>)
    requires PossibleRun(INITIAL, es)
    ensures var m := StepAll(INITIAL, es);
      && MapperInv(m)
      && (m.generation > 0 && m.pending == multiset{} ==>
            CountResults(m.results, m.generation) == 1 && m.attempts <= MAX_RETRIES)
  {
    assert MapperInv(INITIAL);
    StepAllInv(INITIAL, es);
    var m := StepAll(INITIAL, es);
    assert m.pending == multiset{} ==> NothingOwed(m);
    if m.generation > 0 && CountResults(m.results, m.generation) == 0 {
      var op :| Owing(m, op);
      assert m.pending[op] == 1;
    }
  }

  /** A step adds at most one result, and only for the newest mapPort, through the newest callback. */
  lemma SupersededStaySilent(m: Mapper, e: Event, env: Env)
    requires Possible(m, e)
    ensures var n := Step(m, e, env);
      n.results == m.results
      || exists ok :: n.results == m.results + [Result(n.generation, n.onResult, ok)]
  {
    var n := Step(m, e, env);
    assert n.results == m.results
        || n.results == m.results + [Result(n.generation, n.onResult, false)]
        || n.results == m.results + [Result(n.generation, n.onResult, true)];
  }

  /** Once superseded, a mapPort never reports again, whatever handlers are still to run. */
  lemma {:induction false} SupersededNeverReports(m: Mapper, es: seq<(Event, Env)>, generation: int)
    requires PossibleRun(m, es) && generation < m.generation
    ensures CountResults(StepAll(m, es).results, generation) == CountResults(m.results, generation)
    decreases |es|
  {
    if es != [] {
      var (e, env) := es[0];
      SupersededStaySilent(m, e, env);
      GenerationGrows(m, e, env);
      var n := Step(m, e, env);
      CountSnoc(m.results, Result(n.generation, n.onResult, true), generation);
      CountSnoc(m.results, Result(n.generation, n.onResult, false), generation);
      hide Step, Possible;
      SupersededNeverReports(n, es[1..], generation);
    }
  }

  lemma GenerationGrows(m: Mapper, e: Event, env: Env)
    requires Possible(m, e)
    ensures Step(m, e, env).generation == m.generation + if e.Map? then 1 else 0
  {}

  // Quiescence is reached

  /** How many handlers an operation can still cause to run, itself included. */
  function Weight(op: Op): nat {
    match op
    case HttpTimer(_) => 1
    case Http(_, _, stage, phase) =>
      (match phase case Resolving => 4 case Connecting => 3 case Writing => 2 case Reading => 1)
      + if stage == Describe then 5 else 0
    case SsdpReceive(_, _) => 11
    case SsdpTimer(_, _, attempt) => TimerWeight(attempt)
    case RetryTimer(_, attempt) => 12 + TimerWeight(attempt)
  }

  /** The discovery timer of attempt k can lead to a retry timer of attempt k + 1, until the attempts are used up. */
  function TimerWeight(attempt: int): nat {
    if attempt <= 0 then 27 else if attempt == 1 then 14 else 1
  }

  ghost function Total(ops: multiset<Op>): nat {
    if ops == multiset{} then 0
    else
      var op :| op in ops;
      Weight(op) + Total(ops - multiset{op})
  }

  lemma {:induction false} TotalRemove(ops: multiset<Op>, op: Op)
    requires op in ops
    ensures Total(ops) == Weight(op) + Total(ops - multiset{op})
    decreases |ops|
  {
    var first :| first in ops && Total(ops) == Weight(first) + Total(ops - multiset{first});
    if first != op {
      TotalRemove(ops - multiset{first}, op);
      TotalRemove(ops - multiset{op}, first);
      assert ops - multiset{first} - multiset{op} == ops - multiset{op} - multiset{first};
    }
  }

  lemma {:induction false} TotalAdd(ops: multiset<Op>, op: Op)
    ensures Total(ops + multiset{op}) == Total(ops) + Weight(op)
  {
    TotalRemove(ops + multiset{op}, op);
    assert ops + multiset{op} - multiset{op} == ops;
  }

  lemma {:induction false} TotalAddTwo(ops: multiset<Op>, a: Op, b: Op)
    ensures Total(ops + multiset{a, b}) == Total(ops) + Weight(a) + Weight(b)
  {
    TotalAdd(ops, a);
    TotalAdd(ops + multiset{a}, b);
    assert ops + multiset{a, b} == ops + multiset{a} + multiset{b};
  }

  lemma TimerLeaves(m: Mapper, op: Op, env: Env)
    requires MapperInv(m) && op in m.pending && op.SsdpTimer?
    ensures var rest, n := m.pending - multiset{op}, RunOp(m, op, env).pending;
      n == rest || (n == rest + multiset{RetryTimer(op.generation, op.attempt + 1)} && 0 <= op.attempt <= 1)
  {
    assert OpOk(m, op);
  }

  lemma RetryLeaves(m: Mapper, op: Op, env: Env)
    requires MapperInv(m) && op in m.pending && op.RetryTimer?
    ensures var rest, n := m.pending - multiset{op}, RunOp(m, op, env).pending;
      n == rest || n == rest + multiset{SsdpReceive(op.generation, |m.requests|),
                                        SsdpTimer(op.generation, |m.requests|, op.attempt)}
  {
    assert OpOk(m, op);
  }

  lemma HttpLeaves(m: Mapper, op: Op, env: Env)
    requires op in m.pending && op.Http?
    ensures var rest, n := m.pending - multiset{op}, RunOp(m, op, env).pending;
      || n == rest
      || (op.phase != Reading && n == rest + multiset{op.(phase := NextPhase(op.phase))})
      || (&& op.stage == Describe
          && n == rest + multiset{HttpTimer(|m.requests|), Http(op.generation, |m.requests|, AddMapping, Resolving)})
  {}

  lemma {:induction false} LighterByOne(ops: multiset<Op>, op: Op, next: Op)
    requires op in ops && Weight(next) < Weight(op)
    ensures Total(ops - multiset{op} + multiset{next}) < Total(ops)
  {
    hide Total;
    TotalRemove(ops, op);
    TotalAdd(ops - multiset{op}, next);
  }

  lemma {:induction false} LighterByTwo(ops: multiset<Op>, op: Op, a: Op, b: Op)
    requires op in ops && Weight(a) + Weight(b) < Weight(op)
    ensures Total(ops - multiset{op} + multiset{a, b}) < Total(ops)
  {
    hide Total;
    TotalRemove(ops, op);
    TotalAddTwo(ops - multiset{op}, a, b);
  }

  lemma TimerProgress(m: Mapper, op: Op, env: Env)
    requires MapperInv(m) && op in m.pending && op.SsdpTimer?
    ensures Total(RunOp(m, op, env).pending) < Total(m.pending)
  {
    hide RunOp, Total, MapperInv;
    TotalRemove(m.pending, op);
    TimerLeaves(m, op, env);
    var next := RetryTimer(op.generation, op.attempt + 1);
    if Weight(next) < Weight(op) {
      LighterByOne(m.pending, op, next);
    }
  }

  lemma RetryProgress(m: Mapper, op: Op, env: Env)
    requires MapperInv(m) && op in m.pending && op.RetryTimer?
    ensures Total(RunOp(m, op, env).pending) < Total(m.pending)
  {
    hide RunOp, Total, MapperInv;
    TotalRemove(m.pending, op);
    RetryLeaves(m, op, env);
    LighterByTwo(m.pending, op, SsdpReceive(op.generation, |m.requests|),
                 SsdpTimer(op.generation, |m.requests|, op.attempt));
  }

  lemma HttpProgress(m: Mapper, op: Op, env: Env)
    requires op in m.pending && op.Http?
    ensures Total(RunOp(m, op, env).pending) < Total(m.pending)
  {
    hide RunOp, Total;
    TotalRemove(m.pending, op);
    HttpLeaves(m, op, env);
    if op.phase != Reading {
      LighterByOne(m.pending, op, op.(phase := NextPhase(op.phase)));
    }
    if op.stage == Describe {
      LighterByTwo(m.pending, op, HttpTimer(|m.requests|), Http(op.generation, |m.requests|, AddMapping, Resolving));
    }
  }

  lemma ReceiveProgress(m: Mapper, op: Op, env: Env)
    requires op in m.pending && op.SsdpReceive?
    ensures Total(RunOp(m, op, env).pending) < Total(m.pending)
  {
    TotalRemove(m.pending, op);
    hide Total;
    LighterByTwo(m.pending, op, HttpTimer(|m.requests|), Http(op.generation, |m.requests|, Describe, Resolving));
  }

  /** Every handler leaves strictly less to run. */
  lemma RunOpProgress(m: Mapper, op: Op, env: Env)
    requires MapperInv(m) && op in m.pending
    ensures Total(RunOp(m, op, env).pending) < Total(m.pending)
  {
    hide Total, MapperInv;
    match op
    case SsdpReceive(_, _) => ReceiveProgress(m, op, env);
    case SsdpTimer(_, _, _) => TimerProgress(m, op, env);
    case RetryTimer(_, _) => RetryProgress(m, op, env);
    case Http(_, _, _, _) => HttpProgress(m, op, env);
    case HttpTimer(_) => TotalRemove(m.pending, op);
  }

  /**
   * Without a further mapPort no more handlers run than the pending operations weigh; a lone mapPort weighs at most 38.
   */
  lemma {:induction false} QuiescenceReached(m: Mapper, es: seq<(Event, Env)>)
    requires MapperInv(m) && PossibleRun(m, es) && forall i :: 0 <= i < |es| ==> es[i].0.Run?
    ensures |es| <= Total(m.pending)
    decreases |es|
  {
    if es != [] {
      RunOpInv(m, es[0].0.op, es[0].1);
      RunOpProgress(m, es[0].0.op, es[0].1);
      QuiescenceReached(Step(m, es[0].0, es[0].1), es[1..]);
    }
  }

  /** A mapPort from rest, whatever happened before, causes at most 38 handlers to run. */
  lemma LoneMapPortWeighs38(m: Mapper, onResult: int, env: Env)
    requires m.pending == multiset{}
    ensures Total(MapPort(m, onResult, env).pending) <= 38
  {
    var receive, timer := SsdpReceive(m.generation + 1, |m.requests|), SsdpTimer(m.generation + 1, |m.requests|, 0);
    TotalAddTwo(multiset{}, receive, timer);
    assert multiset{} + multiset{receive, timer} == multiset{receive, timer};
  }

  /** From rest: after one mapPort and the handlers it causes, at most 38 of them, in any order. */
  lemma {:induction false} LoneMapPortSettles(m: Mapper, onResult: int, env: Env, es: seq<(Event, Env)>)
    requires MapperInv(m) && m.pending == multiset{}
    requires PossibleRun(MapPort(m, onResult, env), es) && forall i :: 0 <= i < |es| ==> es[i].0.Run?
    ensures |es| <= 38
  {
    hide MapperInv, MapPort, PossibleRun;
    MapPortInv(m, onResult, env);
    LoneMapPortWeighs38(m, onResult, env);
    QuiescenceReached(MapPort(m, onResult, env), es);
  }
}
