/**
 * Frames on their way out (src/net/network.cpp, sendFrame, sendViaRelay, drainMessageQueue and the end of
 * scheduleReconnect): posted io tasks run in order, and queues hold what could not be written.
 */
module SendQueue {

  const MAX_QUEUE: nat := 100

  datatype Frame = Frame(to: string, body: string)

  datatype Reason = QueueFull | RelayUnavailable | ReconnectGivenUp

  datatype Drop = Drop(frame: Frame, reason: Reason)

  datatype Net = Net(posted: seq<Frame>, written: seq<Frame>, queues: map<string, seq<Frame>>, dropped: seq<Drop>)

  /** What a task finds: a relayed peer, no open socket, or a socket on which the write succeeds or fails. */
  datatype Link = Relay(up: bool) | Offline | Socket(ok: bool)

  datatype Event = Send(frame: Frame) | RunTask(link: Link) | Drain(to: string) | GiveUp(to: string)

  const INITIAL: Net := Net([], [], map[], [])

  function Queue(n: Net, to: string): seq<Frame> {
    if to in n.queues then n.queues[to] else []
  }

  function Enqueue(n: Net, f: Frame): Net {
    var q := Queue(n, f.to);
    if |q| < MAX_QUEUE then n.(queues := n.queues[f.to := q + [f]])
    else n.(queues := n.queues[f.to := q], dropped := n.dropped + [Drop(f, QueueFull)])
  }

  function Handle(n: Net, f: Frame, link: Link): Net {
    match link
    case Relay(up) =>
      if up then n.(written := n.written + [f]) else n.(dropped := n.dropped + [Drop(f, RelayUnavailable)])
    case Offline => Enqueue(n, f)
    case Socket(ok) => if ok then n.(written := n.written + [f]) else Enqueue(n, f)
  }

  function Drops(fs: seq<Frame>, reason: Reason): seq<Drop> {
    seq(|fs|, i requires 0 <= i < |fs| => Drop(fs[i], reason))
  }

  predicate Possible(n: Net, e: Event) {
    e.RunTask? ==> n.posted != []
  }

  function Step(n: Net, e: Event): Net
    requires Possible(n, e)
  {
    match e
    case Send(f) => n.(posted := n.posted + [f])
    case RunTask(link) => Handle(n.(posted := n.posted[1..]), n.posted[0], link)
    case Drain(to) => if Queue(n, to) == [] then n else n.(posted := n.posted + n.queues[to], queues := n.queues - {to})
    case GiveUp(to) => n.(queues := n.queues - {to}, dropped := n.dropped + Drops(Queue(n, to), ReconnectGivenUp))
  }

  // Every frame is in exactly one place

  /** The frames for one peer, in order. */
  function To(fs: seq<Frame>, to: string): seq<Frame> {
    if fs == [] then [] else (if fs[0].to == to then [fs[0]] else []) + To(fs[1..], to)
  }

  lemma {:induction false} ToSplits(a: seq<Frame>, b: seq<Frame>, to: string)
    ensures To(a + b, to) == To(a, to) + To(b, to)
  {
    if a == [] {
      assert a + b == b;
    } else {
      assert (a + b)[0] == a[0] && (a + b)[1..] == a[1..] + b;
      ToSplits(a[1..], b, to);
    }
  }

  lemma {:induction false} ToAll(fs: seq<Frame>, to: string, other: string)
    requires forall f :: f in fs ==> f.to == to
    ensures To(fs, other) == if to == other then fs else []
  {
    if fs != [] {
      ToAll(fs[1..], to, other);
    }
  }

  function Frames(ds: seq<Drop>): seq<Frame> {
    seq(|ds|, i requires 0 <= i < |ds| => ds[i].frame)
  }

  function Where(n: Net, to: string): multiset<Frame> {
    multiset(To(n.posted, to)) + multiset(To(n.written, to)) + multiset(Queue(n, to))
      + multiset(To(Frames(n.dropped), to))
  }

  /** Queues hold only their peer's frames, and at most a hundred. */
  ghost predicate QueuesOk(n: Net) {
    forall to :: to in n.queues ==> |n.queues[to]| <= MAX_QUEUE && forall f :: f in n.queues[to] ==> f.to == to
  }

  lemma {:induction false} PostedHead(n: Net, to: string)
    requires n.posted != []
    ensures To(n.posted, to) == (if n.posted[0].to == to then [n.posted[0]] else []) + To(n.posted[1..], to)
  {}

  lemma {:induction false} DroppedOne(n: Net, d: Drop, to: string)
    ensures To(Frames(n.dropped + [d]), to) == To(Frames(n.dropped), to) + (if d.frame.to == to then [d.frame] else [])
  {
    assert Frames(n.dropped + [d]) == Frames(n.dropped) + [d.frame];
    ToSplits(Frames(n.dropped), [d.frame], to);
  }

  function One(f: Frame, to: string): seq<Frame> {
    if f.to == to then [f] else []
  }

  lemma EnqueueQueues(n: Net, f: Frame)
    requires QueuesOk(n)
    ensures QueuesOk(Enqueue(n, f))
  {}

  lemma EnqueueWhere(n: Net, f: Frame, to: string)
    ensures Where(Enqueue(n, f), to) == Where(n, to) + multiset(One(f, to))
  {
    DroppedOne(n, Drop(f, QueueFull), to);
    hide To, Frames;
    var d := To(Frames(n.dropped), to);
    assert multiset(Queue(n, to) + [f]) == multiset(Queue(n, to)) + multiset([f]);
    assert multiset(d + One(f, to)) == multiset(d) + multiset(One(f, to));
  }

  lemma WrittenWhere(n: Net, f: Frame, to: string)
    ensures Where(n.(written := n.written + [f]), to) == Where(n, to) + multiset(One(f, to))
  {
    ToSplits(n.written, [f], to);
    assert To([f], to) == One(f, to);
    hide To;
    assert multiset(To(n.written, to) + One(f, to)) == multiset(To(n.written, to)) + multiset(One(f, to));
  }

  lemma DroppedWhere(n: Net, d: Drop, to: string)
    ensures Where(n.(dropped := n.dropped + [d]), to) == Where(n, to) + multiset(One(d.frame, to))
  {
    DroppedOne(n, d, to);
    hide To, Frames;
    var was := To(Frames(n.dropped), to);
    assert multiset(was + One(d.frame, to)) == multiset(was) + multiset(One(d.frame, to));
  }

  lemma PostedWhere(n: Net, f: Frame, to: string)
    ensures Where(n.(posted := n.posted + [f]), to) == Where(n, to) + multiset(One(f, to))
  {
    ToSplits(n.posted, [f], to);
    assert To([f], to) == One(f, to);
    hide To;
    assert multiset(To(n.posted, to) + One(f, to)) == multiset(To(n.posted, to)) + multiset(One(f, to));
  }

  lemma TakenWhere(n: Net, to: string)
    requires n.posted != []
    ensures Where(n, to) == Where(n.(posted := n.posted[1..]), to) + multiset(One(n.posted[0], to))
  {
    PostedHead(n, to);
    hide To;
    var f, rest := n.posted[0], To(n.posted[1..], to);
    assert multiset(One(f, to) + rest) == multiset(One(f, to)) + multiset(rest);
  }

  lemma HandleQueues(n: Net, f: Frame, link: Link)
    requires QueuesOk(n)
    ensures QueuesOk(Handle(n, f, link))
  {
    EnqueueQueues(n, f);
  }

  lemma HandleWhere(n: Net, f: Frame, link: Link, to: string)
    ensures Where(Handle(n, f, link), to) == Where(n, to) + multiset(One(f, to))
  {
    hide Where, Enqueue;
    EnqueueWhere(n, f, to);
    DroppedWhere(n, Drop(f, RelayUnavailable), to);
    WrittenWhere(n, f, to);
  }

  predicate OwnFrames(fs: seq<Frame>, peer: string) {
    forall f :: f in fs ==> f.to == peer
  }

  ghost predicate OwnQueue(n: Net, peer: string) {
    OwnFrames(Queue(n, peer), peer)
  }

  lemma QueuesKept(n: Net, e: Event)
    requires QueuesOk(n) && (e.Drain? || e.GiveUp?)
    ensures QueuesOk(Step(n, e)) && OwnQueue(n, e.to)
  {}

  lemma {:induction false} DrainPlaces(n: Net, peer: string, to: string)
    requires OwnQueue(n, peer)
    ensures var s, q := Step(n, Drain(peer)), if peer == to then Queue(n, to) else [];
      && To(s.posted, to) == To(n.posted, to) + q && s.written == n.written && s.dropped == n.dropped
      && Queue(s, to) == (if peer == to then [] else Queue(n, to))
  {
    ToSplits(n.posted, Queue(n, peer), to);
    ToAll(Queue(n, peer), peer, to);
  }

  lemma Exchanged(p: seq<Frame>, w: multiset<Frame>, q: seq<Frame>, d: multiset<Frame>)
    ensures multiset(p + q) + w + multiset([]) + d == multiset(p) + w + multiset(q) + d
  {
    assert multiset(p + q) == multiset(p) + multiset(q);
  }

  lemma DrainWhere(n: Net, peer: string, to: string)
    requires OwnQueue(n, peer)
    ensures Where(Step(n, Drain(peer)), to) == Where(n, to)
  {
    DrainPlaces(n, peer, to);
    hide To, OwnQueue, Step, Queue, Frames;
    if peer == to {
      Exchanged(To(n.posted, to), multiset(To(n.written, to)), Queue(n, to), multiset(To(Frames(n.dropped), to)));
    } else {
      assert To(n.posted, to) + [] == To(n.posted, to);
    }
  }

  lemma {:induction false} GiveUpDrops(n: Net, peer: string, to: string)
    requires OwnQueue(n, peer)
    ensures To(Frames(Step(n, GiveUp(peer)).dropped), to)
         == To(Frames(n.dropped), to) + if peer == to then Queue(n, peer) else []
  {
    var q := Queue(n, peer);
    assert Frames(n.dropped + Drops(q, ReconnectGivenUp)) == Frames(n.dropped) + q;
    ToSplits(Frames(n.dropped), q, to);
    ToAll(q, peer, to);
  }

  lemma Discarded(p: multiset<Frame>, q: seq<Frame>, d: seq<Frame>)
    ensures p + multiset([]) + multiset(d + q) == p + multiset(q) + multiset(d)
  {
    assert multiset(d + q) == multiset(d) + multiset(q);
  }

  lemma GiveUpWhere(n: Net, peer: string, to: string)
    requires OwnQueue(n, peer)
    ensures Where(Step(n, GiveUp(peer)), to) == Where(n, to)
  {
    GiveUpDrops(n, peer, to);
    assert Queue(Step(n, GiveUp(peer)), to) == if peer == to then [] else Queue(n, to);
    hide To, OwnQueue, Frames, Drops, Queue;
    var was := To(Frames(n.dropped), to);
    if peer == to {
      Discarded(multiset(To(n.posted, to)) + multiset(To(n.written, to)), Queue(n, to), was);
    } else {
      assert was + [] == was;
    }
  }

  function SentBy(e: Event): seq<Frame> {
    if e.Send? then [e.frame] else []
  }

  /** A step moves frames from place to place; only a send adds one. */
  lemma {:induction false} StepWhere(n: Net, e: Event, to: string)
    requires QueuesOk(n) && Possible(n, e)
    ensures QueuesOk(Step(n, e))
    ensures Where(Step(n, e), to) == Where(n, to) + multiset(To(SentBy(e), to))
  {
    hide Where, Handle, OwnQueue;
    match e
    case Send(f) =>
      assert To([f], to) == One(f, to);
      PostedWhere(n, f, to);
    case RunTask(link) =>
      var taken := n.(posted := n.posted[1..]);
      TakenWhere(n, to);
      HandleQueues(taken, n.posted[0], link);
      HandleWhere(taken, n.posted[0], link, to);
    case Drain(peer) =>
      QueuesKept(n, e);
      DrainWhere(n, peer, to);
    case GiveUp(peer) =>
      QueuesKept(n, e);
      GiveUpWhere(n, peer, to);
  }

  predicate PossibleRun(n: Net, es: seq<Event>)
    decreases |es|
  {
    es == [] || (Possible(n, es[0]) && PossibleRun(Step(n, es[0]), es[1..]))
  }

  function Run(n: Net, es: seq<Event>): Net
    requires PossibleRun(n, es)
    decreases |es|
  {
    if es == [] then n else Run(Step(n, es[0]), es[1..])
  }

  function Sent(es: seq<Event>): seq<Frame> {
    if es == [] then [] else SentBy(es[0]) + Sent(es[1..])
  }

  lemma {:induction false} RunWhere(n: Net, es: seq<Event>, to: string)
    requires QueuesOk(n) && PossibleRun(n, es)
    ensures QueuesOk(Run(n, es))
    ensures Where(Run(n, es), to) == Where(n, to) + multiset(To(Sent(es), to))
    decreases |es|
  {
    if es != [] {
      StepWhere(n, es[0], to);
      RunWhere(Step(n, es[0]), es[1..], to);
      ToSplits(SentBy(es[0]), Sent(es[1..]), to);
    }
  }

  /**
   * Over every run, each frame given to sendFrame is in exactly one place: posted, written, queued, or dropped for
   * a named reason; and no queue ever exceeds a hundred frames.
   */
  lemma {:induction false} EveryFrameInOnePlace(es: seq<Event>, to: string)
    requires PossibleRun(INITIAL, es)
    ensures Where(Run(INITIAL, es), to) == multiset(To(Sent(es), to))
    ensures QueuesOk(Run(INITIAL, es)) && |Queue(Run(INITIAL, es), to)| <= MAX_QUEUE
  {
    RunWhere(INITIAL, es, to);
  }

  // Order

  /** The frames of one peer in the order in which they stand: written, then queued, then posted. */
  function Pipeline(n: Net, to: string): seq<Frame> {
    To(n.written, to) + Queue(n, to) + To(n.posted, to)
  }

  /** What a caller can see before a step: nothing overtakes a queue, and a queue is not sent behind newer frames. */
  predicate KeepsTurn(n: Net, e: Event, to: string)
    requires Possible(n, e)
  {
    match e
    case Send(_) => true
    case RunTask(link) =>
      n.posted[0].to == to ==>
        (if link == Relay(true) || link == Socket(true) then Queue(n, to) == []
         else !link.Relay? && |Queue(n, to)| < MAX_QUEUE)
    case Drain(peer) => peer == to ==> Queue(n, to) == [] || To(n.posted, to) == []
    case GiveUp(peer) => peer == to ==> Queue(n, to) == []
  }

  lemma Appended(a: seq<Frame>, b: seq<Frame>, c: seq<Frame>)
    ensures a + (b + c) == (a + b) + c
  {}

  lemma {:induction false} SendKeepsOrder(n: Net, f: Frame, to: string)
    ensures Pipeline(Step(n, Send(f)), to) == Pipeline(n, to) + To([f], to)
  {
    ToSplits(n.posted, [f], to);
    hide To;
    Appended(To(n.written, to) + Queue(n, to), To(n.posted, to), To([f], to));
  }

  /**
   * A task that keeps its turn moves the peer's oldest posted frame to the end of what was written, or of the queue.
   */
  lemma TaskMoves(n: Net, link: Link, to: string)
    requires n.posted != [] && KeepsTurn(n, RunTask(link), to)
    ensures var s, f := Step(n, RunTask(link)), n.posted[0];
      && s.posted == n.posted[1..]
      && ((s.written == n.written && Queue(s, to) == Queue(n, to) + One(f, to))
          || (s.written == n.written + [f] && Queue(s, to) == Queue(n, to) && (f.to == to ==> Queue(n, to) == []))
          || (f.to != to && s.written == n.written && Queue(s, to) == Queue(n, to)))
  {}

  lemma {:induction false} TaskKeepsOrder(n: Net, link: Link, to: string)
    requires n.posted != [] && KeepsTurn(n, RunTask(link), to)
    ensures Pipeline(Step(n, RunTask(link)), to) == Pipeline(n, to)
  {
    var f := n.posted[0];
    TaskMoves(n, link, to);
    PostedHead(n, to);
    ToSplits(n.written, [f], to);
    assert To([f], to) == One(f, to);
    hide To, Step, KeepsTurn, Queue;
    var w, q, rest := To(n.written, to), Queue(n, to), To(n.posted[1..], to);
    Appended(w + q, One(f, to), rest);
    Appended(w, q, One(f, to));
    Appended(w, One(f, to), rest);
  }

  lemma DrainKeepsTurn(n: Net, peer: string, to: string)
    requires QueuesOk(n) && KeepsTurn(n, Drain(peer), to)
    ensures Pipeline(Step(n, Drain(peer)), to) == Pipeline(n, to)
  {
    ToSplits(n.posted, Queue(n, peer), to);
    ToAll(Queue(n, peer), peer, to);
  }

  lemma {:induction false} OrderKept(n: Net, e: Event, to: string)
    requires QueuesOk(n) && Possible(n, e) && KeepsTurn(n, e, to)
    ensures Pipeline(Step(n, e), to) == Pipeline(n, to) + To(SentBy(e), to)
  {
    match e
    case Send(f) => SendKeepsOrder(n, f, to);
    case RunTask(link) => TaskKeepsOrder(n, link, to);
    case Drain(peer) => DrainKeepsTurn(n, peer, to);
    case GiveUp(peer) =>
  }

  ghost predicate Distinct(fs: seq<Frame>) {
    forall i, j :: 0 <= i < j < |fs| ==> fs[i] != fs[j]
  }

  /** Two different frames that change places change the sequence. */
  lemma Swapped(w: seq<Frame>, a: seq<Frame>, b: seq<Frame>, rest: seq<Frame>)
    requires a != [] && b != [] && Distinct(w + a + b + rest)
    ensures w + b + a + rest != w + a + b + rest
  {
    var s, t := w + a + b + rest, w + b + a + rest;
    assert s[|w|] == a[0] && s[|w| + |a|] == b[0] && t[|w|] == b[0];
  }

  lemma TaskBreaksOrder(n: Net, link: Link, to: string)
    requires n.posted != [] && !KeepsTurn(n, RunTask(link), to) && Distinct(Pipeline(n, to))
    ensures Pipeline(Step(n, RunTask(link)), to) != Pipeline(n, to)
  {
    var f := n.posted[0];
    PostedHead(n, to);
    ToSplits(n.written, [f], to);
    assert To([f], to) == [f];
    hide To, Distinct;
    var w, q, rest := To(n.written, to), Queue(n, to), To(n.posted[1..], to);
    Appended(w + q, [f], rest);
    if link == Relay(true) || link == Socket(true) {
      Swapped(w, q, [f], rest);
    }
  }

  lemma {:induction false} DrainBreaksOrder(n: Net, to: string)
    requires QueuesOk(n) && Queue(n, to) != [] && To(n.posted, to) != [] && Distinct(Pipeline(n, to))
    ensures Pipeline(Step(n, Drain(to)), to) != Pipeline(n, to)
  {
    var w, q, p := To(n.written, to), Queue(n, to), To(n.posted, to);
    QueuesKept(n, Drain(to));
    DrainPlaces(n, to, to);
    hide To, Distinct, Step, QueuesOk, Queue, OwnQueue;
    WithoutQueue(w, p, q);
    Swapped(w, q, p, []);
  }

  lemma WithoutQueue(w: seq<Frame>, p: seq<Frame>, q: seq<Frame>)
    ensures w + [] + (p + q) == w + p + q + [] && w + q + p == w + q + p + []
  {}

  /** The condition is exact: as long as a peer's frames are all different, any other step breaks their order. */
  lemma {:induction false} OrderKeptIff(n: Net, e: Event, to: string)
    requires QueuesOk(n) && Possible(n, e) && Distinct(Pipeline(n, to))
    ensures Pipeline(Step(n, e), to) == Pipeline(n, to) + To(SentBy(e), to) <==> KeepsTurn(n, e, to)
  {
    if KeepsTurn(n, e, to) {
      OrderKept(n, e, to);
    } else {
      match e
      case RunTask(link) => TaskBreaksOrder(n, link, to);
      case Drain(_) => DrainBreaksOrder(n, to);
      case GiveUp(_) => assert |Pipeline(Step(n, e), to)| <= |Pipeline(n, to)| - |Queue(n, to)|;
    }
  }

  predicate OrderlyRun(n: Net, es: seq<Event>, to: string)
    requires PossibleRun(n, es)
    decreases |es|
  {
    es == [] || (KeepsTurn(n, es[0], to) && OrderlyRun(Step(n, es[0]), es[1..], to))
  }

  lemma {:induction false} RunKeepsOrder(n: Net, es: seq<Event>, to: string)
    requires QueuesOk(n) && PossibleRun(n, es) && OrderlyRun(n, es, to)
    ensures Pipeline(Run(n, es), to) == Pipeline(n, to) + To(Sent(es), to)
    decreases |es|
  {
    if es != [] {
      StepWhere(n, es[0], to);
      OrderKept(n, es[0], to);
      hide Step, Possible, QueuesOk, Pipeline, To, KeepsTurn;
      RunKeepsOrder(Step(n, es[0]), es[1..], to);
      ToSplits(SentBy(es[0]), Sent(es[1..]), to);
      Appended(Pipeline(n, to), To(SentBy(es[0]), to), To(Sent(es[1..]), to));
    }
  }

  lemma {:induction false} WrittenFirst(n: Net, to: string)
    ensures To(n.written, to) <= Pipeline(n, to)
  {
    Appended(To(n.written, to), Queue(n, to), To(n.posted, to));
  }

  lemma NothingYet(to: string, fs: seq<Frame>)
    ensures Pipeline(INITIAL, to) + fs == fs && QueuesOk(INITIAL)
  {}

  /**
   * Along a run in which every step keeps its turn, a peer is written its frames in the order of sending, without gaps.
   */
  lemma {:induction false} WrittenInOrder(es: seq<Event>, to: string)
    requires PossibleRun(INITIAL, es) && OrderlyRun(INITIAL, es, to)
    ensures To(Run(INITIAL, es).written, to) <= To(Sent(es), to)
    ensures Pipeline(Run(INITIAL, es), to) == To(Sent(es), to)
  {
    hide Run, To, Sent, Pipeline, QueuesOk;
    NothingYet(to, To(Sent(es), to));
    RunKeepsOrder(INITIAL, es, to);
    WrittenFirst(Run(INITIAL, es), to);
  }

  /** In every state of the run the peer's frames stand in the order in which they were sent. */
  ghost predicate AlwaysInOrder(n: Net, sent: seq<Frame>, es: seq<Event>, to: string)
    requires PossibleRun(n, es)
    decreases |es|
  {
    && Pipeline(n, to) == To(sent, to)
    && (es == [] || AlwaysInOrder(Step(n, es[0]), sent + SentBy(es[0]), es[1..], to))
  }

  lemma DistinctFront(a: seq<Frame>, b: seq<Frame>)
    requires Distinct(a + b)
    ensures Distinct(a)
  {
    assert forall i :: 0 <= i < |a| ==> (a + b)[i] == a[i];
  }

  lemma {:induction false} SentSoFar(sent: seq<Frame>, es: seq<Event>, to: string)
    requires es != []
    ensures To(sent + Sent(es), to) == To(sent + SentBy(es[0]) + Sent(es[1..]), to) == To(sent, to) + To(Sent(es), to)
  {
    hide To;
    Appended(sent, SentBy(es[0]), Sent(es[1..]));
    ToSplits(sent, Sent(es), to);
  }

  lemma {:induction false} InOrderIff(n: Net, sent: seq<Frame>, es: seq<Event>, to: string)
    requires QueuesOk(n) && PossibleRun(n, es) && Pipeline(n, to) == To(sent, to) && Distinct(To(sent + Sent(es), to))
    ensures AlwaysInOrder(n, sent, es, to) <==> OrderlyRun(n, es, to)
    decreases |es|
  {
    if es != [] {
      var next, more := Step(n, es[0]), sent + SentBy(es[0]);
      StepWhere(n, es[0], to);
      SentSoFar(sent, es, to);
      ToSplits(sent, SentBy(es[0]), to);
      hide Step, Possible, QueuesOk, Pipeline, To, KeepsTurn, Distinct, SentBy;
      DistinctFront(To(sent, to), To(Sent(es), to));
      OrderKeptIff(n, es[0], to);
      if Pipeline(next, to) == To(more, to) {
        InOrderIff(next, more, es[1..], to);
      } else {
        assert !AlwaysInOrder(next, more, es[1..], to);
      }
    }
  }

  /**
   * Over every run from the start in which a peer's frames are all different: they stay in order exactly if every step
   * keeps its turn.
   */
  lemma {:induction false} AlwaysInOrderIff(es: seq<Event>, to: string)
    requires PossibleRun(INITIAL, es) && Distinct(To(Sent(es), to))
    ensures AlwaysInOrder(INITIAL, [], es, to) <==> OrderlyRun(INITIAL, es, to)
  {
    NothingYet(to, []);
    assert [] + Sent(es) == Sent(es);
    hide Distinct, Sent, Pipeline, QueuesOk;
    InOrderIff(INITIAL, [], es, to);
  }

  /** The condition is needed: a frame sent after the peer came back, but before the drain, overtakes the queue. */
  lemma LateSendOvertakes(a: Frame, b: Frame)
    requires a.to == b.to && a != b
    ensures var s1 := Step(Step(INITIAL, Send(a)), RunTask(Offline));
      var s2 := Step(Step(s1, Send(b)), Drain(a.to));
      var s3 := Step(Step(s2, RunTask(Socket(true))), RunTask(Socket(true)));
      s3.written == [b, a]
  {
    assert Step(Step(INITIAL, Send(a)), RunTask(Offline)) == Net([], [], map[a.to := [a]], []) by {
      assert [] + [a] == [a];
    }
    var s1 := Net([], [], map[a.to := [a]], []);
    assert Step(Step(s1, Send(b)), Drain(a.to)) == Net([b, a], [], map[], []) by {
      assert s1.queues - {a.to} == map[];
    }
    var s2 := Net([b, a], [], map[], []);
    hide Enqueue, Queue;
    assert Step(s2, RunTask(Socket(true))) == Net([a], [b], map[], []);
  }

  // Draining

  datatype Fate = WasWritten | WasQueued | WasDropped

  function FateOf(n: Net, f: Frame, link: Link): Fate {
    if link == Relay(true) || link == Socket(true) then WasWritten
    else if link == Relay(false) || |Queue(n, f.to)| >= MAX_QUEUE then WasDropped
    else WasQueued
  }

  function Fates(n: Net, fs: seq<Frame>, links: seq<Link>): (r: seq<Fate>)
    requires |fs| == |links|
    ensures |r| == |fs|
    decreases |fs|
  {
    if fs == [] then [] else [FateOf(n, fs[0], links[0])] + Fates(Handle(n, fs[0], links[0]), fs[1..], links[1..])
  }

  /** The frames that met one fate, in order. */
  function With(fs: seq<Frame>, fates: seq<Fate>, fate: Fate): seq<Frame>
    requires |fs| == |fates|
  {
    if fs == [] then [] else FirstWith(fs, fates, fate) + With(fs[1..], fates[1..], fate)
  }

  function FirstWith(fs: seq<Frame>, fates: seq<Fate>, fate: Fate): seq<Frame>
    requires |fs| == |fates| && fs != []
  {
    if fates[0] == fate then [fs[0]] else []
  }

  function HandleAll(n: Net, fs: seq<Frame>, links: seq<Link>): Net
    requires |fs| == |links|
    decreases |fs|
  {
    if fs == [] then n else HandleAll(Handle(n, fs[0], links[0]), fs[1..], links[1..])
  }

  /**
   * The tasks of a drain, run one after another whatever each of them meets, keep the order of the frames they
   * release: what is written, what is queued again and what is dropped are each appended in the queue's order.
   */
  lemma {:induction false} DrainKeepsOrder(n: Net, fs: seq<Frame>, links: seq<Link>, to: string)
    requires |fs| == |links| && OwnFrames(fs, to)
    ensures var r, fates := HandleAll(n, fs, links), Fates(n, fs, links);
      && r.written == n.written + With(fs, fates, WasWritten)
      && Queue(r, to) == Queue(n, to) + With(fs, fates, WasQueued)
      && Frames(r.dropped) == Frames(n.dropped) + With(fs, fates, WasDropped)
    decreases |fs|
  {
    if fs != [] {
      var next := Handle(n, fs[0], links[0]);
      hide Handle, FateOf, Fates, Queue, Frames;
      DrainKeepsOrder(next, fs[1..], links[1..], to);
      FatesTail(n, fs, links);
      HandleOne(n, fs[0], links[0]);
      var fates := Fates(n, fs, links);
      Appended(n.written, FirstWith(fs, fates, WasWritten), With(fs[1..], fates[1..], WasWritten));
      Appended(Queue(n, to), FirstWith(fs, fates, WasQueued), With(fs[1..], fates[1..], WasQueued));
      Appended(Frames(n.dropped), FirstWith(fs, fates, WasDropped), With(fs[1..], fates[1..], WasDropped));
    }
  }

  lemma {:induction false} FatesTail(n: Net, fs: seq<Frame>, links: seq<Link>)
    requires |fs| == |links| && fs != []
    ensures Fates(n, fs, links)[0] == FateOf(n, fs[0], links[0])
    ensures Fates(n, fs, links)[1..] == Fates(Handle(n, fs[0], links[0]), fs[1..], links[1..])
  {}

  lemma HandleOne(n: Net, f: Frame, link: Link)
    ensures var r, fate := Handle(n, f, link), FateOf(n, f, link);
      && r.written == n.written + (if fate == WasWritten then [f] else [])
      && Queue(r, f.to) == Queue(n, f.to) + (if fate == WasQueued then [f] else [])
      && Frames(r.dropped) == Frames(n.dropped) + (if fate == WasDropped then [f] else [])
  {
    assert forall d :: Frames(n.dropped + [d]) == Frames(n.dropped) + [d.frame];
  }

  /** The io thread runs a task for each link. */
  function Tasks(links: seq<Link>): seq<Event> {
    seq(|links|, i requires 0 <= i < |links| => RunTask(links[i]))
  }

  lemma HandleLeavesPosted(n: Net, f: Frame, link: Link)
    ensures Handle(n, f, link).posted == n.posted
  {}

  lemma TasksTail(links: seq<Link>)
    requires links != []
    ensures Tasks(links)[0] == RunTask(links[0]) && Tasks(links)[1..] == Tasks(links[1..])
  {}

  /** Running as many tasks as there are links handles that many posted frames, in order. */
  lemma {:induction false} TasksHandle(n: Net, links: seq<Link>)
    requires |links| <= |n.posted|
    ensures PossibleRun(n, Tasks(links))
    ensures Run(n, Tasks(links)) == HandleAll(n.(posted := n.posted[|links|..]), n.posted[..|links|], links)
    decreases |links|
  {
    if links == [] {
      assert n.posted[0..] == n.posted;
    } else {
      var f, rest := n.posted[0], n.posted[1..];
      var next := Step(n, RunTask(links[0]));
      hide Handle;
      assert next == Handle(n.(posted := rest), f, links[0]);
      HandleLeavesPosted(n.(posted := rest), f, links[0]);
      TasksTail(links);
      hide Tasks, Step;
      TasksHandle(next, links[1..]);
      assert rest[|links| - 1..] == n.posted[|links|..] && rest[..|links| - 1] == n.posted[..|links|][1..];
      PostedApart(n.(posted := rest), f, links[0], n.posted[|links|..]);
    }
  }

  lemma PostedApart(n: Net, f: Frame, link: Link, posted: seq<Frame>)
    ensures Handle(n.(posted := posted), f, link) == Handle(n, f, link).(posted := posted)
  {}

  /**
   * A drain behind other posted frames: once the tasks of those have run, the tasks of the drain append what is
   * written, queued again and dropped, each in the order of the queue.
   */
  lemma {:induction false} DrainRuns(n: Net, to: string, before: seq<Link>, links: seq<Link>)
    requires QueuesOk(n) && |before| == |n.posted| && |links| == |Queue(n, to)|
    ensures var q := Queue(n, to);
      && PossibleRun(n, [Drain(to)] + Tasks(before))
      && var mid := Run(n, [Drain(to)] + Tasks(before));
         && mid.posted == q && PossibleRun(mid, Tasks(links))
         && var r, fates := Run(mid, Tasks(links)), Fates(mid.(posted := []), q, links);
            && r.posted == []
            && r.written == mid.written + With(q, fates, WasWritten)
            && Queue(r, to) == Queue(mid, to) + With(q, fates, WasQueued)
            && Frames(r.dropped) == Frames(mid.dropped) + With(q, fates, WasDropped)
  {
    var q, drained := Queue(n, to), Step(n, Drain(to));
    QueuesKept(n, Drain(to));
    assert drained.posted == n.posted + q;
    assert ([Drain(to)] + Tasks(before))[1..] == Tasks(before);
    TasksHandle(drained, before);
    HandleAllLeavesPosted(drained.(posted := drained.posted[|before|..]), drained.posted[..|before|], before);
    var mid := Run(drained, Tasks(before));
    assert drained.posted[|before|..] == q && mid == Run(n, [Drain(to)] + Tasks(before));
    hide Step, Queue, Run, PossibleRun, Fates, With, Frames, HandleAll, QueuesOk;
    DrainTasks(mid, to, links);
  }

  lemma {:induction false} DrainTasks(mid: Net, to: string, links: seq<Link>)
    requires OwnFrames(mid.posted, to) && |links| == |mid.posted|
    ensures PossibleRun(mid, Tasks(links))
    ensures var r, q, fates := Run(mid, Tasks(links)), mid.posted, Fates(mid.(posted := []), mid.posted, links);
      && r.posted == []
      && r.written == mid.written + With(q, fates, WasWritten)
      && Queue(r, to) == Queue(mid, to) + With(q, fates, WasQueued)
      && Frames(r.dropped) == Frames(mid.dropped) + With(q, fates, WasDropped)
  {
    hide Run, Fates, With, Frames, HandleAll;
    TasksHandle(mid, links);
    assert mid.posted[|links|..] == [] && mid.posted[..|links|] == mid.posted;
    HandleAllLeavesPosted(mid.(posted := []), mid.posted, links);
    DrainKeepsOrder(mid.(posted := []), mid.posted, links, to);
  }

  lemma {:induction false} HandleAllLeavesPosted(n: Net, fs: seq<Frame>, links: seq<Link>)
    requires |fs| == |links|
    ensures HandleAll(n, fs, links).posted == n.posted
    decreases |fs|
  {
    if fs != [] {
      HandleLeavesPosted(n, fs[0], links[0]);
      hide Handle;
      HandleAllLeavesPosted(Handle(n, fs[0], links[0]), fs[1..], links[1..]);
    }
  }

  /** What a frame is dropped for is what happened to it, and never less than a hundred frames fill a queue. */
  lemma DroppedFor(n: Net, e: Event, i: nat)
    requires Possible(n, e) && |n.dropped| <= i < |Step(n, e).dropped|
    ensures n.dropped <= Step(n, e).dropped
    ensures var d := Step(n, e).dropped[i];
      match d.reason
      case QueueFull =>
        && (e == RunTask(Offline) || e == RunTask(Socket(false)))
        && d.frame == n.posted[0] && |Queue(n, d.frame.to)| >= 100
      case RelayUnavailable => e == RunTask(Relay(false)) && d.frame == n.posted[0]
      case ReconnectGivenUp => e.GiveUp? && d.frame in Queue(n, e.to)
  {
    if e.GiveUp? {
      assert Step(n, e).dropped[i] == Drops(Queue(n, e.to), ReconnectGivenUp)[i - |n.dropped|];
    }
  }

  // A peer that comes back

  function Sends(fs: seq<Frame>): seq<Event> {
    seq(|fs|, i requires 0 <= i < |fs| => Send(fs[i]))
  }

  function Copies(link: Link, k: nat): seq<Link> {
    seq(k, _ => link)
  }

  lemma {:induction false} SendsPost(n: Net, fs: seq<Frame>)
    ensures PossibleRun(n, Sends(fs)) && Run(n, Sends(fs)) == n.(posted := n.posted + fs)
    decreases |fs|
  {
    if fs == [] {
      assert n.posted + fs == n.posted;
    } else {
      assert Sends(fs)[0] == Send(fs[0]) && Sends(fs)[1..] == Sends(fs[1..]);
      SendsPost(Step(n, Send(fs[0])), fs[1..]);
      assert n.posted + [fs[0]] + fs[1..] == n.posted + fs;
    }
  }

  /** Frames for a peer that cannot be reached join its queue, in order, as long as there is room. */
  lemma {:induction false} OfflineQueues(n: Net, fs: seq<Frame>, to: string)
    requires OwnFrames(fs, to) && |Queue(n, to)| + |fs| <= MAX_QUEUE
    ensures var r := HandleAll(n, fs, Copies(Offline, |fs|));
      && Queue(r, to) == Queue(n, to) + fs
      && r.written == n.written && r.dropped == n.dropped && r.posted == n.posted
      && (QueuesOk(n) ==> QueuesOk(r))
    decreases |fs|
  {
    var links := Copies(Offline, |fs|);
    if fs != [] {
      var next := Handle(n, fs[0], Offline);
      assert links[1..] == Copies(Offline, |fs[1..]|);
      EnqueueKeepsQueues(n, fs[0]);
      OfflineQueues(next, fs[1..], to);
      Appended(Queue(n, to), [fs[0]], fs[1..]);
      assert [fs[0]] + fs[1..] == fs;
    }
  }

  lemma EnqueueKeepsQueues(n: Net, f: Frame)
    ensures QueuesOk(n) ==> QueuesOk(Enqueue(n, f))
  {
    if QueuesOk(n) {
      EnqueueQueues(n, f);
    }
  }

  lemma {:induction false} AllWritten(n: Net, fs: seq<Frame>)
    ensures var fates := Fates(n, fs, Copies(Socket(true), |fs|));
      With(fs, fates, WasWritten) == fs && With(fs, fates, WasQueued) == [] && With(fs, fates, WasDropped) == []
    decreases |fs|
  {
    var links := Copies(Socket(true), |fs|);
    if fs != [] {
      assert links[1..] == Copies(Socket(true), |fs[1..]|) && links[0] == Socket(true);
      FatesTail(n, fs, links);
      AllWritten(Handle(n, fs[0], links[0]), fs[1..]);
      assert [fs[0]] + fs[1..] == fs;
    }
  }

  /** Nothing but a queue: all of these frames, for one peer, in order. */
  ghost predicate Waiting(n: Net, fs: seq<Frame>, to: string) {
    QueuesOk(n) && Queue(n, to) == fs && n.posted == [] && n.written == [] && n.dropped == []
  }

  lemma {:induction false} AwayQueues(fs: seq<Frame>, to: string)
    requires OwnFrames(fs, to) && |fs| <= MAX_QUEUE
    ensures var es := Sends(fs) + Tasks(Copies(Offline, |fs|));
      PossibleRun(INITIAL, es) && Waiting(Run(INITIAL, es), fs, to)
  {
    hide HandleAll, QueuesOk, Handle;
    var away := Copies(Offline, |fs|);
    SendsPost(INITIAL, fs);
    var sent := INITIAL.(posted := fs);
    assert [] + fs == fs;
    TasksHandle(sent, away);
    assert fs[|away|..] == [] && fs[..|away|] == fs;
    NothingYet(to, []);
    OfflineQueues(INITIAL, fs, to);
    RunJoins(INITIAL, Sends(fs), Tasks(away));
  }

  lemma {:induction false} BackWrites(n: Net, fs: seq<Frame>, to: string)
    requires Waiting(n, fs, to)
    ensures var es := [Drain(to)] + Tasks(Copies(Socket(true), |fs|));
      && PossibleRun(n, es)
      && var r := Run(n, es);
         r.written == fs && r.posted == [] && r.dropped == [] && Queue(r, to) == []
  {
    hide HandleAll, Fates, With, QueuesOk, PossibleRun, Run, Step;
    var back := Copies(Socket(true), |fs|);
    assert Tasks([]) == [] && [Drain(to)] + Tasks([]) == [Drain(to)];
    DrainRuns(n, to, [], back);
    DrainAlone(n, to);
    var drained := Run(n, [Drain(to)]);
    AllWritten(drained.(posted := []), fs);
    RunJoins(n, [Drain(to)], Tasks(back));
    assert |Frames(Run(drained, Tasks(back)).dropped)| == |Run(drained, Tasks(back)).dropped|;
  }

  lemma {:induction false} DrainAlone(n: Net, to: string)
    ensures PossibleRun(n, [Drain(to)])
    ensures var r := Run(n, [Drain(to)]);
      Queue(r, to) == [] && r.written == n.written && r.dropped == n.dropped
  {
    assert [Drain(to)][1..] == [];
  }

  /**
   * Up to a hundred frames sent to a peer that is away wait for it: once it is back and its queue is drained, all of
   * them are written, in the order of sending, and none is dropped.
   */
  lemma {:induction false} QueuedFramesArrive(fs: seq<Frame>, to: string)
    requires OwnFrames(fs, to) && |fs| <= MAX_QUEUE
    ensures var es := (Sends(fs) + Tasks(Copies(Offline, |fs|))) + ([Drain(to)] + Tasks(Copies(Socket(true), |fs|)));
      && PossibleRun(INITIAL, es)
      && var r := Run(INITIAL, es);
         r.written == fs && r.posted == [] && r.dropped == [] && Queue(r, to) == []
  {
    hide *;
    AwayQueues(fs, to);
    var away, back := Sends(fs) + Tasks(Copies(Offline, |fs|)), [Drain(to)] + Tasks(Copies(Socket(true), |fs|));
    BackWrites(Run(INITIAL, away), fs, to);
    RunJoins(INITIAL, away, back);
  }

  lemma {:induction false} RunJoins(n: Net, es: seq<Event>, more: seq<Event>)
    requires PossibleRun(n, es) && PossibleRun(Run(n, es), more)
    ensures PossibleRun(n, es + more) && Run(n, es + more) == Run(Run(n, es), more)
    decreases |es|
  {
    if es == [] {
      assert es + more == more;
    } else {
      assert (es + more)[0] == es[0] && (es + more)[1..] == es[1..] + more;
      RunJoins(Step(n, es[0]), es[1..], more);
    }
  }

  /** The sending part of NetworkManager. */
  class Outbox {
    var posted: seq<Frame>
    var written: seq<Frame>
    var queues: map<string, seq<Frame>>
    var dropped: seq<Drop>

    constructor ()
      ensures Snapshot() == INITIAL
    {
      posted, written, queues, dropped := [], [], map[], [];
    }

    ghost function Snapshot(): Net
      reads this
    {
      Net(posted, written, queues, dropped)
    }

    method SendFrame(f: Frame)
      modifies this`posted
      ensures Snapshot() == Step(old(Snapshot()), Send(f))
    {
      posted := posted + [f];
    }

    /** The io thread runs the oldest posted task. */
    method RunPosted(link: Link)
      requires posted != []
      modifies this
      ensures Snapshot() == Step(old(Snapshot()), RunTask(link))
    {
      var f := posted[0];
      posted := posted[1..];
      match link
      case Relay(up) =>
        if up {
          written := written + [f];
        } else {
          dropped := dropped + [Drop(f, RelayUnavailable)];
        }
      case Offline => Push(f);
      case Socket(ok) =>
        if ok {
          written := written + [f];
        } else {
          Push(f);
        }
    }

    method Push(f: Frame)
      modifies this`queues, this`dropped
      ensures Snapshot() == Enqueue(old(Snapshot()), f)
    {
      if f.to !in queues {
        queues := queues[f.to := []];
      }
      if |queues[f.to]| < MAX_QUEUE {
        queues := queues[f.to := queues[f.to] + [f]];
      } else {
        dropped := dropped + [Drop(f, QueueFull)];
      }
    }

    method DrainMessageQueue(to: string)
      modifies this`posted, this`queues
      ensures Snapshot() == Step(old(Snapshot()), Drain(to))
    {
      if to !in queues || queues[to] == [] {
        return;
      }
      var pending := queues[to];
      queues := queues - {to};
      while pending != []
        invariant posted + pending == old(posted) + old(queues[to])
        invariant queues == old(queues) - {to} && written == old(written) && dropped == old(dropped)
        decreases |pending|
      {
        SendFrame(pending[0]);
        pending := pending[1..];
      }
    }

    /** The queue's part of giving up on a peer. */
    method GiveUpOn(to: string)
      modifies this`queues, this`dropped
      ensures Snapshot() == Step(old(Snapshot()), GiveUp(to))
    {
      dropped := dropped + Drops(if to in queues then queues[to] else [], ReconnectGivenUp);
      queues := queues - {to};
    }
  }
}
