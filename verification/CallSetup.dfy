/** How a call comes up and goes down between two parties on a link that keeps order (src/calls/callmanager.cpp). */
module CallSetup {
  import opened Text
  import opened CallModel
  import opened CallPair

  // What each frame stands for

  /** A frame is sent only for its own reason, to the party concerned, with the id, port and salt of the call. */
  ghost predicate SentFor(c: Call, e: Event, env: Env, o: Outbound) {
    match o.frame
    case CallInvite(id, port, salt) =>
      e.InitiateCall? && c.state == Idle && env.session
      && o.to == e.peer && id == e.callId && salt == e.salt && port == env.localPort
    case CallAccept(id, port) =>
      e.AcceptCall? && c.state == Ringing && e.callId == c.callId == id && o.to == c.peer && port == env.localPort
    case CallReject(id, reason) =>
      || (e.RejectCall? && c.state == Ringing && e.callId == c.callId == id && o.to == c.peer && reason == e.reason)
      || (e.Receive? && e.frame.CallInvite? && c.state != Idle && id == e.frame.callId && o.to == e.from
          && reason == "busy")
    case CallEnd(id) =>
      e.EndCall? && (c.state == Calling || c.state == Ringing || c.state == InCall) && id == c.callId && o.to == c.peer
  }

  lemma FramesHaveReasons(c: Call, e: Event, hasMedia: bool, env: Env)
    requires CallInv(c, hasMedia)
    ensures var r := Step(c, e, hasMedia, env);
      && |r.sent| <= 1 && (r.sent != [] ==> SentFor(c, e, env, r.sent[0]))
      && (r.sent != [] && r.sent[0].frame.CallAccept? ==>
            r.call.state == InCall && r.call.media.Some? && r.starts == [r.call.media.value])
  {}

  /** What starting the media needs. */
  predicate MediaStarts(env: Env) {
    env.session && env.keyOk && env.mediaOk
  }

  /** The party takes up the call: its own acceptance, or the other's. */
  predicate TakesUp(c: Call, e: Event, hasMedia: bool) {
    && hasMedia
    && ((e.AcceptCall? && c.state == Ringing && c.callId == e.callId && c.peer != "")
        || (e.Receive? && e.frame.CallAccept? && c.state == Calling && c.callId == e.frame.callId))
  }

  /** The other party turns the call down, or ends it. */
  predicate TurnsDown(c: Call, e: Event) {
    || (e.RejectCall? && c.state == Ringing && c.callId == e.callId)
    || (e.Receive? && e.frame.CallReject? && c.state == Calling && c.callId == e.frame.callId)
  }

  predicate HangsUp(c: Call, e: Event) {
    || (e.EndCall? && c.state != Idle)
    || (e.Receive? && e.frame.CallEnd? && c.callId == e.frame.callId
        && (c.state == Calling || c.state == Ringing || c.state == InCall))
  }

  /**
   * Into each state there is exactly one kind of way: into a call by taking it up with media that start, into Calling
   * and Ringing from Idle alone, into Ended by hanging up, back to Idle by a refusal, failing media or a live timer.
   * Anything else leaves the state as it is.
   */
  lemma EntersIff(c: Call, e: Event, hasMedia: bool, env: Env)
    requires CallInv(c, hasMedia) && (e.Fire? ==> e.timer in c.timers)
    ensures var next := Step(c, e, hasMedia, env).call.state;
      && (next == InCall <==>
            (TakesUp(c, e, hasMedia) && MediaStarts(env))
            || (c.state == InCall && !HangsUp(c, e)))
      && (next == Calling && c.state != Calling <==>
            e.InitiateCall? && c.state == Idle && hasMedia && env.session && env.probeOk && env.bindOk)
      && (next == Ringing && c.state != Ringing <==> e.Receive? && e.frame.CallInvite? && c.state == Idle)
      && (next == Ended && c.state != Ended <==> HangsUp(c, e) && c.state != Ended)
      && (next == Idle && c.state != Idle <==>
            || TurnsDown(c, e)
            || (TakesUp(c, e, hasMedia) && !MediaStarts(env))
            || (e.Fire? && e.timer.generation == c.generation))
  {
    if e.Fire? {
      assert Live(c, e.timer) <==> e.timer.generation == c.generation;
    }
  }

  /** The user hears of an incoming call, and of a call that cannot be made. */
  lemma UserIsTold(c: Call, from: string, invite: Frame, e: Event, hasMedia: bool, env: Env)
    requires invite.CallInvite? && e.InitiateCall?
    ensures c.state == Idle ==>
      Step(c, Receive(from, invite), hasMedia, env).notices
      == [StateChanged(Ringing), IncomingCall(from, invite.callId)]
    ensures c.state != Idle || !env.session || !hasMedia ==> Step(c, e, hasMedia, env) == Effect(c, [], [CallError], [])
  {}

  // Two parties

  /** A party acts; the frames it sends to the other join the queue. */
  function Do(f: Fifo, n: Names, p: Party, e: Event, env: Env): Fifo {
    if p == A then
      var r := Step(f.a, e, true, env);
      f.(a := r.call, toB := f.toB + Payloads(r.sent, n.b))
    else
      var r := Step(f.b, e, true, env);
      f.(b := r.call, toA := f.toA + Payloads(r.sent, n.a))
  }

  function At(f: Fifo, p: Party): Call {
    if p == A then f.a else f.b
  }

  function Queued(f: Fifo, p: Party): seq<Frame> {
    if p == A then f.toA else f.toB
  }

  /** Nothing on the link, nobody in a call. */
  predicate AtRest(f: Fifo) {
    f.a.state == Idle && f.b.state == Idle && f.toA == [] && f.toB == []
  }

  /** Everything a call needs works. */
  predicate Works(env: Env) {
    env.session && env.keyOk && env.probeOk && env.bindOk && env.mediaOk && 0 <= env.localPort < 65536
  }

  /** One party is calling, the other rings, under one id and salt; `port` is where the caller said it listens. */
  predicate Rings(f: Fifo, n: Names, caller: Party, id: string, salt: seq<int>, ip: string, port: int) {
    var callee := Other(caller);
    && f.toA == [] && f.toB == []
    && At(f, caller).state == Calling && At(f, caller).callId == id && At(f, caller).peer == n.Of(callee)
    && At(f, caller).salt == salt && At(f, caller).media.None? && At(f, caller).peerIp == ip
    && At(f, callee).state == Ringing && At(f, callee).callId == id && At(f, callee).peer == n.Of(caller)
    && At(f, callee).salt == salt && At(f, callee).media.None? && At(f, callee).udpPort == port
  }

  /** Both are in the call of that id, their media engines running for each other with one salt. */
  predicate Connected(f: Fifo, n: Names, id: string, salt: seq<int>) {
    f.toA == [] && f.toB == [] && Talks(f.a, n.b, id, salt) && Talks(f.b, n.a, id, salt)
  }

  predicate Talks(c: Call, peer: string, id: string, salt: seq<int>) {
    && c.state == InCall && c.callId == id && c.peer == peer
    && c.media.Some? && c.media.value.peer == peer && c.media.value.callId == id && c.media.value.salt == salt
  }

  /** An invite that is delivered makes the other side ring. */
  lemma InviteRings(f: Fifo, n: Names, caller: Party, ip: string, id: string, salt: seq<int>, env: Env, envB: Env)
    requires n.Valid() && AtRest(f) && Works(env) && At(f, caller).media.None? && At(f, Other(caller)).media.None?
    ensures var callee := Other(caller);
      var calling := Do(f, n, caller, InitiateCall(n.Of(callee), ip, id, salt), env);
      && Queued(calling, callee) == [CallInvite(id, env.localPort, salt)] && Queued(calling, caller) == []
      && var ringing := Deliver(calling, n, callee, envB);
         && Rings(ringing, n, caller, id, salt, ip, env.localPort)
         && At(ringing, callee).peerIp == envB.peerIp
  {
    hide CallModel.Step, Deliver;
    var callee, invite := Other(caller), CallInvite(id, env.localPort, salt);
    InviteGoesOut(At(f, caller), n.Of(callee), ip, id, salt, env);
    InviteArrives(At(f, callee), n.Of(caller), invite, envB);
    PayloadOf(Outbound(n.Of(callee), invite), n.Of(callee));
    DeliverOne(Do(f, n, caller, InitiateCall(n.Of(callee), ip, id, salt), env), n, callee, envB);
  }

  /** The caller's side of an invitation. */
  lemma InviteGoesOut(c: Call, peer: string, ip: string, id: string, salt: seq<int>, env: Env)
    requires c.state == Idle && Works(env)
    ensures var r := Step(c, InitiateCall(peer, ip, id, salt), true, env);
      && r.call.state == Calling && r.call.callId == id && r.call.peer == peer && r.call.peerIp == ip
      && r.call.salt == salt && r.call.media.None?
      && r.sent == [Outbound(peer, CallInvite(id, env.localPort, salt))] && r.notices == [StateChanged(Calling)]
      && Timer(CallTimeout, r.call.generation, id) in r.call.timers
  {}

  /** The callee's side of it. */
  lemma InviteArrives(c: Call, from: string, invite: Frame, env: Env)
    requires c.state == Idle && invite.CallInvite? && 0 <= invite.udpPort < 65536
    ensures var r := Step(c, Receive(from, invite), true, env);
      && r.call == c.(state := Ringing, callId := invite.callId, peer := from, peerIp := env.peerIp,
                      udpPort := invite.udpPort, salt := invite.salt)
      && r.sent == []
  {}

  /**
   * A party that rings accepts, and its answer is delivered: both are in the call, each runs media for the other with
   * the invite's salt, towards the address and port it was told.
   */
  lemma AcceptConnects(f: Fifo, n: Names, caller: Party, id: string, salt: seq<int>, ip: string, port: int, env: Env,
                       envA: Env)
    requires n.Valid() && Rings(f, n, caller, id, salt, ip, port) && Works(env) && Works(envA)
    ensures var callee := Other(caller);
      var accepted := Do(f, n, callee, AcceptCall(id), env);
      && Queued(accepted, caller) == [CallAccept(id, env.localPort)] && Queued(accepted, callee) == []
      && var up := Deliver(accepted, n, caller, envA);
         && Connected(up, n, id, salt)
         && At(up, callee).media == Some(Media(n.Of(caller), id, salt, At(f, callee).peerIp, port))
         && At(up, caller).media == Some(Media(n.Of(callee), id, salt, ip, env.localPort))
  {
    hide CallModel.Step, Deliver;
    var callee := Other(caller);
    AcceptAnswers(At(f, callee), id, env);
    AcceptArrives(At(f, caller), n.Of(callee), id, env.localPort, envA);
    PayloadOf(Outbound(n.Of(caller), CallAccept(id, env.localPort)), n.Of(caller));
    PayloadOf(Outbound(n.Of(caller), CallAccept(id, env.localPort)), n.Of(callee));
    DeliverOne(Do(f, n, callee, AcceptCall(id), env), n, caller, envA);
  }

  /** The callee's side of an acceptance. */
  lemma AcceptAnswers(c: Call, id: string, env: Env)
    requires c.state == Ringing && c.callId == id && c.peer != "" && c.media.None? && Works(env)
    ensures var r, m := Step(c, AcceptCall(id), true, env), Media(c.peer, id, c.salt, c.peerIp, c.udpPort);
      && r.call == c.(state := InCall, media := Some(m)) && r.sent == [Outbound(c.peer, CallAccept(id, env.localPort))]
      && r.starts == [m] && r.notices == [StateChanged(InCall), CallAccepted(c.peer)]
  {}

  /** The caller's side of it. */
  lemma AcceptArrives(c: Call, from: string, id: string, port: int, env: Env)
    requires c.state == Calling && c.callId == id && c.media.None? && Works(env) && 0 <= port < 65536
    ensures var r := Step(c, Receive(from, CallAccept(id, port)), true, env);
      var m := Media(c.peer, id, c.salt, c.peerIp, port);
      && r.call == c.(state := InCall, media := Some(m), generation := c.generation + 1) && r.sent == []
      && r.starts == [m] && r.notices == [StateChanged(InCall), CallAccepted(from)]
  {}

  /** The only frame on the link is delivered and not answered. */
  lemma DeliverOne(f: Fifo, n: Names, to: Party, env: Env)
    requires |Queued(f, to)| == 1
    requires Step(At(f, to), Receive(n.Of(Other(to)), Queued(f, to)[0]), true, env).sent == []
    ensures var r, g := Step(At(f, to), Receive(n.Of(Other(to)), Queued(f, to)[0]), true, env), Deliver(f, n, to, env);
      && At(g, to) == r.call && At(g, Other(to)) == At(f, Other(to))
      && Queued(g, to) == [] && Queued(g, Other(to)) == Queued(f, Other(to))
  {
    hide CallModel.Step;
    PayloadOf(Outbound("", CallEnd("")), "");
  }

  /**
   * From two idle parties: one calls, the invite is delivered, the other accepts, the answer is delivered. Both are in
   * the call on one id, each with media of one salt towards the port the other announced, and the link is empty.
   */
  lemma CallComesUp(f: Fifo, n: Names, caller: Party, ip: string, id: string, salt: seq<int>, env1: Env, env2: Env,
                    env3: Env, env4: Env)
    requires n.Valid() && AtRest(f) && At(f, A).media.None? && At(f, B).media.None?
    requires Works(env1) && Works(env3) && Works(env4)
    ensures var callee := Other(caller);
      var calling := Do(f, n, caller, InitiateCall(n.Of(callee), ip, id, salt), env1);
      && Queued(calling, callee) != []
      && var accepted := Do(Deliver(calling, n, callee, env2), n, callee, AcceptCall(id), env3);
         && Queued(accepted, caller) != []
         && var up := Deliver(accepted, n, caller, env4);
            && Connected(up, n, id, salt)
            && At(up, callee).media == Some(Media(n.Of(caller), id, salt, env2.peerIp, env1.localPort))
            && At(up, caller).media == Some(Media(n.Of(callee), id, salt, ip, env3.localPort))
  {
    hide Do, Deliver, AtRest, Rings, Connected;
    var callee := Other(caller);
    InviteRings(f, n, caller, ip, id, salt, env1, env2);
    var ringing := Deliver(Do(f, n, caller, InitiateCall(n.Of(callee), ip, id, salt), env1), n, callee, env2);
    AcceptConnects(ringing, n, caller, id, salt, ip, env1.localPort, env3, env4);
  }

  /** Both sides have ended and run no media. */
  predicate BothEnded(f: Fifo) {
    && f.toA == [] && f.toB == []
    && f.a.state == Ended && f.a.media.None? && f.b.state == Ended && f.b.media.None?
  }

  /** A party that is in a call, calls or rings, on the id on which the other one is. */
  predicate Joint(f: Fifo, n: Names, id: string) {
    f.toA == [] && f.toB == [] && id != "" && Engaged(f.a, n.b, id) && Engaged(f.b, n.a, id)
  }

  predicate Engaged(c: Call, peer: string, id: string) {
    (c.state == InCall || c.state == Calling || c.state == Ringing) && c.callId == id && c.peer == peer
  }

  lemma RingingIsJoint(f: Fifo, n: Names, caller: Party, id: string, salt: seq<int>, ip: string, port: int)
    requires Rings(f, n, caller, id, salt, ip, port) && id != ""
    ensures Joint(f, n, id)
  {}

  lemma ConnectedIsJoint(f: Fifo, n: Names, id: string, salt: seq<int>)
    requires Connected(f, n, id, salt) && id != ""
    ensures Joint(f, n, id)
  {}

  /** Whoever hangs up, and whether the call was up or still ringing: once that is delivered both have ended. */
  lemma HangUpEndsBoth(f: Fifo, n: Names, id: string, p: Party, env: Env, env2: Env)
    requires n.Valid() && Joint(f, n, id)
    ensures var hung := Do(f, n, p, EndCall, env);
      && Queued(hung, Other(p)) == [CallEnd(id)] && Queued(hung, p) == []
      && BothEnded(Deliver(hung, n, Other(p), env2))
  {
    PayloadOf(Outbound(n.Of(Other(p)), CallEnd(id)), n.Of(Other(p)));
    PayloadOf(Outbound(n.Of(Other(p)), CallEnd(id)), n.Of(p));
    assert [CallEnd(id)][1..] == [];
  }

  /** Both listeners hear that the call ended, with whom it was. */
  lemma HangUpIsTold(c: Call, from: string, id: string, env: Env)
    requires c.state == InCall || c.state == Calling || c.state == Ringing
    requires c.callId == id && c.peer != ""
    ensures Step(c, EndCall, true, env).notices == [StateChanged(Ended), CallEnded(c.peer)]
    ensures Step(c, Receive(from, CallEnd(id)), true, env).notices == [StateChanged(Ended), CallEnded(c.peer)]
  {}

  /** After a hang-up a timer of each side leads back to Idle, ready for the next call. */
  lemma EndedReturns(f: Fifo, p: Party, env: Env) returns (t: Timer)
    requires BothEnded(f) && CallInv(At(f, p), true)
    ensures t in At(f, p).timers && Step(At(f, p), Fire(t), true, env).call.state == Idle
  {
    t := CanAlwaysReturn(At(f, p), true, env);
  }

  /** A rejected call: the caller hears the reason, and both are idle again. */
  lemma RejectReturnsBoth(f: Fifo, n: Names, caller: Party, id: string, salt: seq<int>, ip: string, port: int,
                          reason: string, env: Env, env2: Env)
    requires n.Valid() && Rings(f, n, caller, id, salt, ip, port)
    ensures var callee := Other(caller);
      var rejected := Do(f, n, callee, RejectCall(id, reason), env);
      && Queued(rejected, caller) == [CallReject(id, reason)] && Queued(rejected, callee) == []
      && AtRest(Deliver(rejected, n, caller, env2))
      && Step(At(rejected, caller), Receive(n.Of(callee), CallReject(id, reason)), true, env2).notices
         == [StateChanged(Idle), CallRejected(n.Of(callee), reason)]
  {
    PayloadOf(Outbound(n.Of(caller), CallReject(id, reason)), n.Of(caller));
    assert [CallReject(id, reason)][1..] == [];
  }

  /** A third party's invite to somebody who is not idle is answered with busy and changes nothing. */
  lemma BusyAnswers(c: Call, from: string, invite: Frame, env: Env)
    requires c.state != Idle && invite.CallInvite?
    ensures Step(c, Receive(from, invite), true, env)
         == Effect(c, [Outbound(from, CallReject(invite.callId, "busy"))], [], [])
  {}

  /**
   * A caller whose timeout fires tells nobody: the other side rings on, and if it accepts then, it is in the call
   * alone, since an idle party ignores the answer.
   */
  lemma TimeoutLeavesTheOtherAlone(f: Fifo, n: Names, caller: Party, id: string, salt: seq<int>, ip: string, port: int,
                                   t: Timer, env: Env, env2: Env, env3: Env)
    requires n.Valid() && Rings(f, n, caller, id, salt, ip, port) && t in At(f, caller).timers
    requires t.generation == At(f, caller).generation && Works(env2)
    ensures var callee := Other(caller);
      var timedOut := Do(f, n, caller, Fire(t), env);
      && At(timedOut, caller).state == Idle && Queued(timedOut, callee) == []
      && At(timedOut, callee) == At(f, callee)
      && var accepted := Do(timedOut, n, callee, AcceptCall(id), env2);
         && Queued(accepted, caller) != []
         && var after := Deliver(accepted, n, caller, env3);
            At(after, caller).state == Idle && At(after, callee).state == InCall
  {
    hide CallModel.Step, Deliver;
    var callee := Other(caller);
    TimeoutIsSilent(At(f, caller), t, env);
    AcceptAnswers(At(f, callee), id, env2);
    PayloadOf(Outbound(n.Of(caller), CallAccept(id, env2.localPort)), n.Of(caller));
    PayloadOf(Outbound(n.Of(caller), CallAccept(id, env2.localPort)), n.Of(callee));
    var timedOut := Do(f, n, caller, Fire(t), env);
    IdleIgnores(At(timedOut, caller), n.Of(callee), id, env2.localPort, env3);
    DeliverOne(Do(timedOut, n, callee, AcceptCall(id), env2), n, caller, env3);
  }

  lemma TimeoutIsSilent(c: Call, t: Timer, env: Env)
    requires t.generation == c.generation
    ensures var r := Step(c, Fire(t), true, env);
      r.call.state == Idle && r.sent == [] && (t.kind == CallTimeout ==> CallRejected(c.peer, "timeout") in r.notices)
  {
    var r := Step(c, Fire(t), true, env);
    assert t.kind == CallTimeout ==> r.notices[|r.notices| - 1] == CallRejected(c.peer, "timeout");
  }

  lemma IdleIgnores(c: Call, from: string, id: string, port: int, env: Env)
    requires c.state == Idle
    ensures Step(c, Receive(from, CallAccept(id, port)), true, env) == Quiet(c)
  {}
}
