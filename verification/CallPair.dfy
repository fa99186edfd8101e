/** Two call managers joined by a signalling link (src/calls/callmanager.cpp). */
module CallPair {
  import opened CallModel

  datatype Party = A | B

  function Other(p: Party): Party {
    if p == A then B else A
  }

  /** The peer identifiers of the two parties. */
  datatype Names = Names(a: string, b: string) {
    function Of(p: Party): string {
      if p == A then a else b
    }
    predicate Valid() {
      a != b && a != "" && b != ""
    }
  }

  datatype Packet = Packet(from: Party, to: string, frame: Frame)

  /** Who issued a call id, and the salt that went with it. */
  datatype Issue = Issue(caller: Party, salt: seq<int>)

  /** A party's media engine started for a call id with a salt. */
  datatype Start = Start(party: Party, callId: string, salt: seq<int>)

  /**
   * The link keeps every packet ever sent: each may be delivered any number of times, in any order, or never.
   * `issued` and `accepted` record the history: ids handed out, and media starts made by acceptCall.
   */
  datatype System = System(a: Call, b: Call, net: set<Packet>, issued: map<string, Issue>, accepted: set<Start>) {
    function At(p: Party): Call {
      if p == A then a else b
    }
    function With(p: Party, c: Call): System {
      if p == A then this.(a := c) else this.(b := c)
    }
  }

  datatype Action = Action(party: Party, event: Event, env: Env)

  function Packets(p: Party, sent: seq<Outbound>): set<Packet> {
    set i | 0 <= i < |sent| :: Packet(p, sent[i].to, sent[i].frame)
  }

  /**
   * A timer fires only if armed, a frame arrives only if the other side sent it here, a new call takes an unused id.
   */
  predicate Possible(s: System, n: Names, act: Action) {
    match act.event
    case Fire(t) => t in s.At(act.party).timers
    case Receive(from, f) => from == n.Of(Other(act.party)) && Packet(Other(act.party), n.Of(act.party), f) in s.net
    case InitiateCall(_, _, callId, _) => callId !in s.issued
    case _ => true
  }

  function Act(s: System, act: Action): System {
    var r := Step(s.At(act.party), act.event, true, act.env);
    var issued :=
      if act.event.InitiateCall? && r.call.state == Calling && s.At(act.party).state == Idle
      then s.issued[act.event.callId := Issue(act.party, act.event.salt)] else s.issued;
    var accepted :=
      if act.event.AcceptCall? && r.starts != []
      then s.accepted + {Start(act.party, r.starts[0].callId, r.starts[0].salt)} else s.accepted;
    s.With(act.party, r.call).(net := s.net + Packets(act.party, r.sent), issued := issued, accepted := accepted)
  }

  /** How one party's call is rooted in the history. */
  ghost predicate Linked(s: System, n: Names, p: Party) {
    var c := s.At(p);
    && (c.state != Idle ==> c.callId in s.issued && c.salt == s.issued[c.callId].salt)
    && (c.state == Calling ==> s.issued[c.callId].caller == p)
    && (c.state == Ringing ==> s.issued[c.callId].caller == Other(p) && c.peer == n.Of(Other(p)))
    && (c.state == InCall ==>
          Start(if s.issued[c.callId].caller == p then Other(p) else p, c.callId, c.salt) in s.accepted)
  }

  ghost predicate Known(s: System, n: Names, p: Party) {
    CallInv(s.At(p), true) && Linked(s, n, p)
  }

  /** An invite states its issuer's id and salt; an accept proves a media start with that id and salt. */
  ghost predicate Truthful(s: System, n: Names, k: Packet) {
    && (k.frame.CallInvite? ==> k.frame.callId in s.issued && s.issued[k.frame.callId] == Issue(k.from, k.frame.salt))
    && (k.frame.CallAccept? ==>
          && k.frame.callId in s.issued && s.issued[k.frame.callId].caller == Other(k.from)
          && Start(k.from, k.frame.callId, s.issued[k.frame.callId].salt) in s.accepted)
  }

  ghost predicate SystemInv(s: System, n: Names) {
    && n.Valid() && Known(s, n, A) && Known(s, n, B)
    && forall k :: k in s.net ==> Truthful(s, n, k)
  }

  /** History only grows, and an id once issued keeps its issuer and salt. */
  ghost predicate Extends(s: System, t: System) {
    && s.accepted <= t.accepted
    && forall c :: c in s.issued ==> c in t.issued && t.issued[c] == s.issued[c]
  }

  lemma ActExtends(s: System, n: Names, act: Action)
    requires Possible(s, n, act)
    ensures Extends(s, Act(s, act))
    ensures Act(s, act).At(Other(act.party)) == s.At(Other(act.party))
    ensures Act(s, act).At(act.party) == Step(s.At(act.party), act.event, true, act.env).call
  {}

  lemma PacketsTruthful(s: System, n: Names, act: Action)
    requires SystemInv(s, n) && Possible(s, n, act)
    ensures forall k :: k in Act(s, act).net ==> Truthful(Act(s, act), n, k)
  {
    ActExtends(s, n, act);
    var t := Act(s, act);
    var r := Step(s.At(act.party), act.event, true, act.env);
    forall k | k in t.net
      ensures Truthful(t, n, k)
    {
      if k in s.net {
        assert Truthful(s, n, k);
      } else {
        var i :| 0 <= i < |r.sent| && k == Packet(act.party, r.sent[i].to, r.sent[i].frame);
        NewPacketTruthful(s, n, act, i);
      }
    }
  }

  lemma NewPacketTruthful(s: System, n: Names, act: Action, i: nat)
    requires SystemInv(s, n) && Possible(s, n, act)
    requires i < |Step(s.At(act.party), act.event, true, act.env).sent|
    ensures var o := Step(s.At(act.party), act.event, true, act.env).sent[i];
      Truthful(Act(s, act), n, Packet(act.party, o.to, o.frame))
  {
    assert Known(s, n, act.party);
  }

  lemma MoverLinked(s: System, n: Names, act: Action)
    requires Linked(s, n, act.party) && Possible(s, n, act)
    requires s.At(act.party).state != InCall ==> s.At(act.party).media.None?
    requires act.event.Receive? ==> Truthful(s, n, Packet(Other(act.party), n.Of(act.party), act.event.frame))
    ensures Linked(Act(s, act), n, act.party)
  {
    hide OnAcceptCall, OnFrame;
    if act.event.AcceptCall? {
      AcceptLinked(s, n, act);
    } else if act.event.Receive? {
      FrameLinked(s, n, act);
    } else {
      ActExtends(s, n, act);
    }
  }

  lemma AcceptLinked(s: System, n: Names, act: Action)
    requires Linked(s, n, act.party) && Possible(s, n, act) && act.event.AcceptCall?
    requires s.At(act.party).state != InCall ==> s.At(act.party).media.None?
    ensures Linked(Act(s, act), n, act.party)
  {
    var c, r := s.At(act.party), Step(s.At(act.party), act.event, true, act.env);
    assert r.starts != [] ==> r.starts[0].callId == c.callId && r.starts[0].salt == c.salt;
  }

  lemma FrameLinked(s: System, n: Names, act: Action)
    requires Linked(s, n, act.party) && Possible(s, n, act) && act.event.Receive?
    requires s.At(act.party).state != InCall ==> s.At(act.party).media.None?
    requires Truthful(s, n, Packet(Other(act.party), n.Of(act.party), act.event.frame))
    ensures Linked(Act(s, act), n, act.party)
  {}

  lemma MoverKnown(s: System, n: Names, act: Action)
    requires SystemInv(s, n) && Possible(s, n, act)
    ensures Known(Act(s, act), n, act.party)
  {
    var p := act.party;
    assert Known(s, n, p);
    StepKeepsInv(s.At(p), act.event, true, act.env);
    ActExtends(s, n, act);
    MoverLinked(s, n, act);
  }

  lemma ActKeepsInv(s: System, n: Names, act: Action)
    requires SystemInv(s, n) && Possible(s, n, act)
    ensures SystemInv(Act(s, act), n)
  {
    MoverKnown(s, n, act);
    PacketsTruthful(s, n, act);
    ActExtends(s, n, act);
    assert Known(s, n, Other(act.party));
    assert Known(Act(s, act), n, Other(act.party));
  }

  predicate PossibleRun(s: System, n: Names, acts: seq<Action>)
    decreases |acts|
  {
    acts == [] || (Possible(s, n, acts[0]) && PossibleRun(Act(s, acts[0]), n, acts[1..]))
  }

  function ActAll(s: System, acts: seq<Action>): System
    decreases |acts|
  {
    if acts == [] then s else ActAll(Act(s, acts[0]), acts[1..])
  }

  lemma {:induction false} RunKeepsInv(s: System, n: Names, acts: seq<Action>)
    requires SystemInv(s, n) && PossibleRun(s, n, acts)
    ensures SystemInv(ActAll(s, acts), n)
    decreases |acts|
  {
    if acts != [] {
      ActKeepsInv(s, n, acts[0]);
      RunKeepsInv(Act(s, acts[0]), n, acts[1..]);
    }
  }

  const START: System := System(INITIAL, INITIAL, {}, map[], {})

  /**
   * Over every run on the lossy link: a party that is InCall on an id it issued is there because the other side
   * accepted that id before, and both media engines were started for the same id with the same salt. A party
   * InCall on an id of the other's accepted it itself, with the salt of the invite.
   */
  lemma {:induction false} CallerInCallOnlyIfAccepted(n: Names, acts: seq<Action>, p: Party)
    requires n.Valid() && PossibleRun(START, n, acts)
    ensures var s := ActAll(START, acts);
      var c := s.At(p);
      c.state == InCall ==>
        && c.callId in s.issued
        && c.media.Some? && c.media.value.callId == c.callId && c.media.value.salt == s.issued[c.callId].salt
        && var acceptor := if s.issued[c.callId].caller == p then Other(p) else p;
           Start(acceptor, c.callId, c.media.value.salt) in s.accepted
  {
    RunKeepsInv(START, n, acts);
    assert Known(ActAll(START, acts), n, p);
  }

  /** Hence two parties that are InCall on the same id run their media with the same salt. */
  lemma {:induction false} SameCallSameSalt(n: Names, acts: seq<Action>)
    requires n.Valid() && PossibleRun(START, n, acts)
    ensures var s := ActAll(START, acts);
      s.a.state == InCall && s.b.state == InCall && s.a.callId == s.b.callId ==>
        s.a.media.Some? && s.b.media.Some? && s.a.media.value.salt == s.b.media.value.salt
  {
    CallerInCallOnlyIfAccepted(n, acts, A);
    CallerInCallOnlyIfAccepted(n, acts, B);
  }

  // Crossed invites on a reliable link that keeps order

  datatype Fifo = Fifo(a: Call, b: Call, toB: seq<Frame>, toA: seq<Frame>)

  /** The frames for a peer. */
  function Payloads(sent: seq<Outbound>, to: string): seq<Frame> {
    if sent == [] then [] else (if sent[0].to == to then [sent[0].frame] else []) + Payloads(sent[1..], to)
  }

  lemma {:induction false} PayloadOf(o: Outbound, to: string)
    ensures Payloads([o], to) == if o.to == to then [o.frame] else []
    ensures Payloads([], to) == []
  {
    assert [o][1..] == [];
  }

  /** Hand the oldest undelivered frame to one party; its answers join the queue back. */
  function Deliver(f: Fifo, n: Names, to: Party, env: Env): Fifo
    requires if to == A then f.toA != [] else f.toB != []
  {
    if to == A then
      var r := Step(f.a, Receive(n.b, f.toA[0]), true, env);
      f.(a := r.call, toA := f.toA[1..], toB := f.toB + Payloads(r.sent, n.b))
    else
      var r := Step(f.b, Receive(n.a, f.toB[0]), true, env);
      f.(b := r.call, toB := f.toB[1..], toA := f.toA + Payloads(r.sent, n.a))
  }

  /** A party that is Calling on one id, having had `got` of the two frames that will reach it. */
  ghost predicate Crossing(c: Call, callId: string, got: nat) {
    && got <= 2 && c.media.None?
    && if got == 2 then c.state == Idle else c.state == Calling && c.callId == callId
  }

  /** What a party puts on the link: its invite, and a busy reject once the other's invite has reached it. */
  function Said(invite: Frame, otherId: string, got: nat): seq<Frame> {
    if got == 0 then [invite] else [invite, CallReject(otherId, "busy")]
  }

  ghost predicate Crossed(f: Fifo, inviteA: Frame, inviteB: Frame, gotA: nat, gotB: nat) {
    && inviteA.CallInvite? && inviteB.CallInvite?
    && Crossing(f.a, inviteA.callId, gotA) && Crossing(f.b, inviteB.callId, gotB)
    && gotB <= |Said(inviteA, inviteB.callId, gotA)| && gotA <= |Said(inviteB, inviteA.callId, gotB)|
    && f.toB == Said(inviteA, inviteB.callId, gotA)[gotB..]
    && f.toA == Said(inviteB, inviteA.callId, gotB)[gotA..]
  }

  lemma DeliverCrossed(f: Fifo, n: Names, to: Party, env: Env, inviteA: Frame, inviteB: Frame, gotA: nat, gotB: nat)
    requires Crossed(f, inviteA, inviteB, gotA, gotB)
    requires if to == A then f.toA != [] else f.toB != []
    ensures if to == A then Crossed(Deliver(f, n, to, env), inviteA, inviteB, gotA + 1, gotB)
            else Crossed(Deliver(f, n, to, env), inviteA, inviteB, gotA, gotB + 1)
  {
    var said := if to == A then Said(inviteB, inviteA.callId, gotB) else Said(inviteA, inviteB.callId, gotA);
    var got := if to == A then gotA else gotB;
    assert said[got..][0] == said[got] && said[got..][1..] == said[got + 1..];
    if to == A {
      var r := Step(f.a, Receive(n.b, f.toA[0]), true, env);
      PayloadOf(Outbound(n.b, CallReject(inviteB.callId, "busy")), n.b);
      assert Payloads(r.sent, n.b) == if gotA == 0 then [CallReject(inviteB.callId, "busy")] else [];
    } else {
      var r := Step(f.b, Receive(n.a, f.toB[0]), true, env);
      PayloadOf(Outbound(n.a, CallReject(inviteA.callId, "busy")), n.a);
      assert Payloads(r.sent, n.a) == if gotB == 0 then [CallReject(inviteA.callId, "busy")] else [];
    }
  }

  predicate Schedule(f: Fifo, n: Names, order: seq<(Party, Env)>)
    decreases |order|
  {
    order == []
    || ((if order[0].0 == A then f.toA != [] else f.toB != [])
        && Schedule(Deliver(f, n, order[0].0, order[0].1), n, order[1..]))
  }

  function DeliverAll(f: Fifo, n: Names, order: seq<(Party, Env)>): Fifo
    requires Schedule(f, n, order)
    decreases |order|
  {
    if order == [] then f else DeliverAll(Deliver(f, n, order[0].0, order[0].1), n, order[1..])
  }

  lemma {:induction false} CrossedRun(f: Fifo, n: Names, order: seq<(Party, Env)>, inviteA: Frame, inviteB: Frame,
                                      gotA: nat, gotB: nat)
    requires Crossed(f, inviteA, inviteB, gotA, gotB) && Schedule(f, n, order)
    ensures exists a: nat, b: nat ::
              Crossed(DeliverAll(f, n, order), inviteA, inviteB, a, b) && a + b == gotA + gotB + |order|
    decreases |order|
  {
    if order == [] {
      assert Crossed(DeliverAll(f, n, order), inviteA, inviteB, gotA, gotB);
    } else {
      var (to, env) := order[0];
      DeliverCrossed(f, n, to, env, inviteA, inviteB, gotA, gotB);
      var next := Deliver(f, n, to, env);
      var nextA, nextB := if to == A then gotA + 1 else gotA, if to == B then gotB + 1 else gotB;
      CrossedRun(next, n, order[1..], inviteA, inviteB, nextA, nextB);
      var a: nat, b: nat :|
        Crossed(DeliverAll(next, n, order[1..]), inviteA, inviteB, a, b) && a + b == nextA + nextB + |order[1..]|;
      assert Crossed(DeliverAll(f, n, order), inviteA, inviteB, a, b);
    }
  }

  /** Both idle parties call each other before either invite arrives. */
  function CrossedInvites(a: Call, b: Call, n: Names, idA: string, idB: string, saltA: seq<int>, saltB: seq<int>,
                          envA: Env, envB: Env): Fifo {
    var ra := Step(a, InitiateCall(n.b, "", idA, saltA), true, envA);
    var rb := Step(b, InitiateCall(n.a, "", idB, saltB), true, envB);
    Fifo(ra.call, rb.call, Payloads(ra.sent, n.b), Payloads(rb.sent, n.a))
  }

  /**
   * Crossed invites, in every order of delivery: nobody is ever InCall, at most four frames are delivered, and
   * once the link is empty both sides are Idle again.
   */
  lemma {:induction false} CrossedInvitesCancel(a: Call, b: Call, n: Names, idA: string, idB: string, saltA: seq<int>,
                                                saltB: seq<int>, envA: Env, envB: Env, order: seq<(Party, Env)>)
    requires CallInv(a, true) && CallInv(b, true) && a.state == Idle && b.state == Idle
    requires envA.session && envA.probeOk && envA.bindOk && envB.session && envB.probeOk && envB.bindOk
    requires Schedule(CrossedInvites(a, b, n, idA, idB, saltA, saltB, envA, envB), n, order)
    ensures var f := DeliverAll(CrossedInvites(a, b, n, idA, idB, saltA, saltB, envA, envB), n, order);
      && f.a.state != InCall && f.b.state != InCall && |order| <= 4
      && (f.toA == [] && f.toB == [] ==> f.a.state == Idle && f.b.state == Idle)
  {
    var f := CrossedInvites(a, b, n, idA, idB, saltA, saltB, envA, envB);
    var inviteA, inviteB := CallInvite(idA, envA.localPort, saltA), CallInvite(idB, envB.localPort, saltB);
    PayloadOf(Outbound(n.b, inviteA), n.b);
    PayloadOf(Outbound(n.a, inviteB), n.a);
    assert f.toB == [inviteA] && f.toA == [inviteB];
    assert Crossed(f, inviteA, inviteB, 0, 0);
    CrossedRun(f, n, order, inviteA, inviteB, 0, 0);
  }
}
