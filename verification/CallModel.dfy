/**
 * The voice call state machine (src/calls/callmanager.cpp) as a function of the handler that runs. Timers stay in
 * `timers` from arming until their handler runs: cancelling one cannot recall a handler that is already queued,
 * so any armed timer may still fire.
 */
module CallModel {
  import opened Text

  datatype CallState = Idle | Calling | Ringing | InCall | Ended

  datatype TimerKind = CallTimeout | EndedDelay

  /** An armed timer: the generation its handler will compare, and the call it was armed for. */
  datatype Timer = Timer(kind: TimerKind, generation: int, callId: string)

  datatype Frame =
    | CallInvite(callId: string, udpPort: int, salt: seq<int>)
    | CallAccept(callId: string, udpPort: int)
    | CallReject(callId: string, reason: string)
    | CallEnd(callId: string)

  /** What the media engine runs with; its key is derived from the peer, the call id and the salt. */
  datatype Media = Media(peer: string, callId: string, salt: seq<int>, ip: string, udpPort: int)

  datatype Call = Call(
    state: CallState, callId: string, peer: string, peerIp: string, generation: int,
    udpPort: int, salt: seq<int>, media: Option<Media>, timers: multiset<Timer>)

  datatype Notice =
    | StateChanged(state: CallState)
    | IncomingCall(from: string, callId: string)
    | CallAccepted(peer: string)
    | CallRejected(peer: string, reason: string)
    | CallEnded(peer: string)
    | CallError

  /** Random choices and the answers of the session layer, the media engine and the socket during one handler. */
  datatype Env = Env(session: bool, keyOk: bool, probeOk: bool, bindOk: bool, mediaOk: bool, localPort: int,
                     peerIp: string)

  datatype Outbound = Outbound(to: string, frame: Frame)

  datatype Effect = Effect(call: Call, sent: seq<Outbound>, notices: seq<Notice>, starts: seq<Media>)

  datatype Event =
    | InitiateCall(peer: string, peerIp: string, callId: string, salt: seq<int>)
    | AcceptCall(callId: string)
    | RejectCall(callId: string, reason: string)
    | EndCall
    | Receive(from: string, frame: Frame)
    | Fire(timer: Timer)

  const INITIAL: Call := Call(Idle, "", "", "", 0, 0, [], None, multiset{})

  function Quiet(c: Call): Effect {
    Effect(c, [], [], [])
  }

  function Reset(c: Call): Call {
    c.(state := Idle, callId := "", peer := "", peerIp := "", generation := c.generation + 1, udpPort := 0, salt := [])
  }

  function WasReset(c: Call, before: seq<Notice>, after: seq<Notice>): Effect {
    Effect(Reset(c), [], before + [StateChanged(Idle)] + after, [])
  }

  function OnInitiate(c: Call, e: Event, hasMedia: bool, env: Env): Effect
    requires e.InitiateCall?
  {
    if c.state != Idle || !env.session || !hasMedia then Effect(c, [], [CallError], [])
    else if !env.probeOk then Quiet(c.(media := None))
    else if !env.bindOk then Effect(c.(media := None), [], [CallError], [])
    else
      var calling := c.(state := Calling, callId := e.callId, peer := e.peer, peerIp := e.peerIp, salt := e.salt,
                        media := None,
                        timers := c.timers + multiset{Timer(CallTimeout, c.generation, e.callId)});
      Effect(calling, [Outbound(e.peer, CallInvite(e.callId, env.localPort, e.salt))], [StateChanged(Calling)], [])
  }

  /** startMedia: either the engine runs with the call's key, or everything is reset. */
  function StartMedia(c: Call, ip: string, udpPort: int, callId: string, salt: seq<int>, env: Env): Effect {
    if !env.session || !env.keyOk then WasReset(c, [CallError], [])
    else if !env.mediaOk then WasReset(c, [], [])
    else
      var m := Media(c.peer, callId, salt, ip, udpPort);
      Effect(c.(media := Some(m)), [], [], [m])
  }

  /** What follows startMedia on either side once the engine runs. */
  function Joined(r: Effect, sent: seq<Outbound>, peer: string): Effect {
    if r.call.media.None? then r
    else Effect(r.call.(state := InCall), sent,
                r.notices + (if r.call.state == InCall then [] else [StateChanged(InCall)]) + [CallAccepted(peer)],
                r.starts)
  }

  function OnAcceptCall(c: Call, callId: string, hasMedia: bool, env: Env): Effect {
    if !(c.state == Ringing && c.callId == callId && c.peer != "") || !hasMedia then Effect(c, [], [CallError], [])
    else
      Joined(StartMedia(c, c.peerIp, c.udpPort, callId, c.salt, env),
             [Outbound(c.peer, CallAccept(callId, env.localPort))], c.peer)
  }

  function OnRejectCall(c: Call, callId: string, reason: string): Effect {
    if c.state != Ringing || c.callId != callId then Quiet(c)
    else WasReset(c, [], []).(sent := [Outbound(c.peer, CallReject(callId, reason))])
  }

  /** Both ways into Ended: the media stops and a one-second timer is armed. */
  function ToEnded(c: Call, toldPeer: bool): Effect {
    Effect(c.(state := Ended, media := None, timers := c.timers + multiset{Timer(EndedDelay, c.generation, c.callId)}),
           [],
           (if c.state == Ended then [] else [StateChanged(Ended)]) + (if toldPeer then [CallEnded(c.peer)] else []),
           [])
  }

  function OnEndCall(c: Call): Effect {
    if c.state == Idle then Quiet(c)
    else
      var r := ToEnded(c, c.peer != "");
      if c.state != Ended && c.callId != "" && c.peer != ""
      then r.(sent := [Outbound(c.peer, CallEnd(c.callId))]) else r
  }

  function OnFrame(c: Call, from: string, f: Frame, hasMedia: bool, env: Env): Effect {
    match f
    case CallInvite(callId, udpPort, salt) =>
      if c.state != Idle then Effect(c, [Outbound(from, CallReject(callId, "busy"))], [], [])
      else
        Effect(c.(state := Ringing, callId := callId, peer := from, peerIp := env.peerIp, udpPort := udpPort % 65536,
                  salt := salt),
               [], [StateChanged(Ringing), IncomingCall(from, callId)], [])
    case CallAccept(callId, udpPort) =>
      if c.state != Calling || c.callId != callId then Quiet(c)
      else
        var stopped := c.(generation := c.generation + 1);
        if !hasMedia then Quiet(stopped)
        else Joined(StartMedia(stopped, c.peerIp, udpPort % 65536, callId, c.salt, env), [], from)
    case CallReject(callId, reason) =>
      if c.state != Calling || c.callId != callId then Quiet(c)
      else WasReset(c, [], [CallRejected(c.peer, reason)])
    case CallEnd(callId) =>
      if (c.state == InCall || c.state == Ringing || c.state == Calling) && c.callId == callId then ToEnded(c, true)
      else Quiet(c)
  }

  function OnTimer(c: Call, t: Timer): Effect {
    var ran := c.(timers := c.timers - multiset{t});
    if t.generation != c.generation then Quiet(ran)
    else WasReset(ran, [], if t.kind == CallTimeout then [CallRejected(c.peer, "timeout")] else [])
  }

  function Step(c: Call, e: Event, hasMedia: bool, env: Env): Effect {
    match e
    case InitiateCall(_, _, _, _) => OnInitiate(c, e, hasMedia, env)
    case AcceptCall(callId) => OnAcceptCall(c, callId, hasMedia, env)
    case RejectCall(callId, reason) => OnRejectCall(c, callId, reason)
    case EndCall => OnEndCall(c)
    case Receive(from, f) => OnFrame(c, from, f, hasMedia, env)
    case Fire(t) => OnTimer(c, t)
  }

  // What holds in every reachable state

  predicate Live(c: Call, t: Timer) {
    t in c.timers && t.generation == c.generation
  }

  /**
   * Idle, Ringing and InCall have no live timer, Calling has exactly one, Ended at least one; a live timer belongs
   * to the present call; media runs exactly during InCall, for the present call, peer and salt.
   */
  ghost predicate CallInv(c: Call, hasMedia: bool) {
    && (forall t :: t in c.timers ==> t.generation <= c.generation)
    && (c.state == Idle || c.state == Ringing || c.state == InCall ==> forall t :: !Live(c, t))
    && (c.state == Calling ==>
          && hasMedia
          && c.timers[Timer(CallTimeout, c.generation, c.callId)] == 1
          && forall t :: Live(c, t) ==> t == Timer(CallTimeout, c.generation, c.callId))
    && (c.state == Ended ==>
          && Live(c, Timer(EndedDelay, c.generation, c.callId))
          && forall t :: Live(c, t) ==> t.callId == c.callId)
    && (c.media.Some? <==> c.state == InCall)
    && (c.media.Some? ==>
          && c.media.value.peer == c.peer && c.media.value.callId == c.callId && c.media.value.salt == c.salt)
  }

  ghost predicate NoLaterTimer(c: Call) {
    forall t :: t in c.timers ==> t.generation <= c.generation
  }

  lemma ResetInv(c: Call, hasMedia: bool)
    requires NoLaterTimer(c) && c.media.None?
    ensures CallInv(Reset(c), hasMedia)
  {
    forall t
      ensures !Live(Reset(c), t)
    {}
  }

  lemma JoinInv(c: Call, ip: string, udpPort: int, sent: seq<Outbound>, peer: string, hasMedia: bool, env: Env)
    requires NoLaterTimer(c) && c.media.None? && c.state != InCall && forall t :: !Live(c, t)
    ensures CallInv(Joined(StartMedia(c, ip, udpPort, c.callId, c.salt, env), sent, peer).call, hasMedia)
  {
    ResetInv(c, hasMedia);
    var r := Joined(StartMedia(c, ip, udpPort, c.callId, c.salt, env), sent, peer);
    if r.call.media.Some? {
      forall t
        ensures !Live(r.call, t)
      {
        assert !Live(c, t);
      }
    }
  }

  lemma EndInv(c: Call, toldPeer: bool, hasMedia: bool)
    requires CallInv(c, hasMedia) && c.state != Idle
    ensures CallInv(ToEnded(c, toldPeer).call, hasMedia)
  {
    var ended := ToEnded(c, toldPeer).call;
    var armed := Timer(EndedDelay, c.generation, c.callId);
    assert armed in ended.timers;
    forall t
      ensures t in ended.timers ==> t.generation <= ended.generation
      ensures Live(ended, t) ==> t.callId == ended.callId
    {
      assert t in ended.timers ==> t == armed || t in c.timers;
      assert Live(ended, t) ==> t == armed || Live(c, t);
    }
  }

  lemma InitiateInv(c: Call, e: Event, hasMedia: bool, env: Env)
    requires CallInv(c, hasMedia) && e.InitiateCall?
    ensures CallInv(OnInitiate(c, e, hasMedia, env).call, hasMedia)
  {
    var r := OnInitiate(c, e, hasMedia, env).call;
    var armed := Timer(CallTimeout, c.generation, e.callId);
    forall t
      ensures t in r.timers ==> t.generation <= r.generation
      ensures Live(r, t) ==> t == armed || Live(c, t)
    {
      assert t in r.timers ==> t == armed || t in c.timers;
    }
    if r.state == Calling && c.state == Idle {
      assert !Live(c, armed);
      assert c.timers[armed] == 0;
    }
  }

  lemma AcceptInv(c: Call, callId: string, hasMedia: bool, env: Env)
    requires CallInv(c, hasMedia)
    ensures CallInv(OnAcceptCall(c, callId, hasMedia, env).call, hasMedia)
  {
    hide StartMedia, Joined;
    if c.state == Ringing {
      JoinInv(c, c.peerIp, c.udpPort, [Outbound(c.peer, CallAccept(callId, env.localPort))], c.peer, hasMedia, env);
    }
  }

  lemma RejectInv(c: Call, callId: string, reason: string, hasMedia: bool)
    requires CallInv(c, hasMedia)
    ensures CallInv(OnRejectCall(c, callId, reason).call, hasMedia)
  {
    hide Reset;
    if c.state == Ringing {
      ResetInv(c, hasMedia);
    }
  }

  lemma EndCallInv(c: Call, hasMedia: bool)
    requires CallInv(c, hasMedia)
    ensures CallInv(OnEndCall(c).call, hasMedia)
  {
    hide ToEnded;
    if c.state != Idle {
      EndInv(c, c.peer != "", hasMedia);
    }
  }

  lemma FireInv(c: Call, t: Timer, hasMedia: bool)
    requires CallInv(c, hasMedia) && t in c.timers
    ensures CallInv(OnTimer(c, t).call, hasMedia)
  {
    var ran := c.(timers := c.timers - multiset{t});
    assert NoLaterTimer(ran);
    if t.generation == c.generation {
      assert Live(c, t);
      ResetInv(ran, hasMedia);
    } else {
      forall u
        ensures Live(ran, u) ==> Live(c, u)
      {}
      assert c.state == Ended ==> Live(c, Timer(EndedDelay, c.generation, c.callId));
    }
  }

  lemma FrameInv(c: Call, from: string, f: Frame, hasMedia: bool, env: Env)
    requires CallInv(c, hasMedia)
    ensures CallInv(OnFrame(c, from, f, hasMedia, env).call, hasMedia)
  {
    hide StartMedia, Joined, ToEnded, Reset;
    match f
    case CallInvite(_, _, _) =>
      var r := OnFrame(c, from, f, hasMedia, env).call;
      if c.state == Idle {
        forall t
          ensures !Live(r, t)
        {
          assert !Live(c, t);
        }
      }
    case CallAccept(callId, udpPort) =>
      if c.state == Calling && c.callId == callId {
        var stopped := c.(generation := c.generation + 1);
        forall t
          ensures !Live(stopped, t)
        {}
        JoinInv(stopped, c.peerIp, udpPort % 65536, [], from, hasMedia, env);
      }
    case CallReject(callId, _) =>
      if c.state == Calling {
        ResetInv(c, hasMedia);
      }
    case CallEnd(callId) =>
      if c.state != Idle {
        EndInv(c, true, hasMedia);
      }
  }

  lemma StepKeepsInv(c: Call, e: Event, hasMedia: bool, env: Env)
    requires CallInv(c, hasMedia) && (e.Fire? ==> e.timer in c.timers)
    ensures CallInv(Step(c, e, hasMedia, env).call, hasMedia)
  {
    hide CallInv, OnInitiate, OnAcceptCall, OnRejectCall, OnEndCall, OnFrame, OnTimer;
    match e
    case InitiateCall(_, _, _, _) => InitiateInv(c, e, hasMedia, env);
    case AcceptCall(callId) => AcceptInv(c, callId, hasMedia, env);
    case RejectCall(callId, reason) => RejectInv(c, callId, reason, hasMedia);
    case EndCall => EndCallInv(c, hasMedia);
    case Receive(from, f) => FrameInv(c, from, f, hasMedia, env);
    case Fire(t) => FireInv(c, t, hasMedia);
  }

  /** A run from the initial state in which only armed timers fire. */
  predicate Fires(c: Call, es: seq<(Event, Env)>, hasMedia: bool)
    decreases |es|
  {
    es == []
    || (&& (es[0].0.Fire? ==> es[0].0.timer in c.timers)
        && Fires(Step(c, es[0].0, hasMedia, es[0].1).call, es[1..], hasMedia))
  }

  function Run(c: Call, es: seq<(Event, Env)>, hasMedia: bool): Call
    decreases |es|
  {
    if es == [] then c else Run(Step(c, es[0].0, hasMedia, es[0].1).call, es[1..], hasMedia)
  }

  lemma {:induction false} RunKeepsInv(c: Call, es: seq<(Event, Env)>, hasMedia: bool)
    requires CallInv(c, hasMedia) && Fires(c, es, hasMedia)
    ensures CallInv(Run(c, es, hasMedia), hasMedia)
    decreases |es|
  {
    if es != [] {
      StepKeepsInv(c, es[0].0, hasMedia, es[0].1);
      RunKeepsInv(Step(c, es[0].0, hasMedia, es[0].1).call, es[1..], hasMedia);
    }
  }

  lemma {:induction false} ReachableInv(es: seq<(Event, Env)>, hasMedia: bool)
    requires Fires(INITIAL, es, hasMedia)
    ensures CallInv(Run(INITIAL, es, hasMedia), hasMedia)
  {
    RunKeepsInv(INITIAL, es, hasMedia);
  }

  /** A timer changes the call only if it was armed for that very call, while it is Calling or Ended. */
  lemma TimerChangesOnlyItsCall(c: Call, t: Timer, hasMedia: bool, env: Env)
    requires CallInv(c, hasMedia) && t in c.timers
    ensures var r := Step(c, Fire(t), hasMedia, env);
      && (r.call != c.(timers := c.timers - multiset{t}) ==>
            t.callId == c.callId && (c.state == Calling || c.state == Ended) && r.call.state == Idle)
      && r.sent == []
  {
    assert Live(c, t) <==> t.generation == c.generation;
  }

  /** Calling and Ended are never dead ends: a timer is armed whose firing leads back to Idle. */
  lemma CanAlwaysReturn(c: Call, hasMedia: bool, env: Env) returns (t: Timer)
    requires CallInv(c, hasMedia) && (c.state == Calling || c.state == Ended)
    ensures t in c.timers && Step(c, Fire(t), hasMedia, env).call.state == Idle
  {
    t := Timer(if c.state == Calling then CallTimeout else EndedDelay, c.generation, c.callId);
    assert c.state == Ended ==> Live(c, t);
  }
}
