/** CallManager itself (src/calls/callmanager.cpp): the handlers that update its fields. */
module CallEngine {
  import opened Text
  import opened CallModel

  class CallManager {
    const hasMedia: bool
    var state: CallState
    var callId: string
    var peerUuid: string
    var peerIp: string
    var generation: int
    var pendingUdpPort: int
    var pendingSalt: seq<int>
    var media: Option<Media>
    var armed: multiset<Timer>
    var sent: seq<Outbound>
    var told: seq<Notice>
    var started: seq<Media>

    constructor (hasMedia: bool)
      ensures this.hasMedia == hasMedia && Snapshot() == INITIAL && sent == [] && told == [] && started == []
    {
      this.hasMedia := hasMedia;
      state, callId, peerUuid, peerIp, generation := Idle, "", "", "", 0;
      pendingUdpPort, pendingSalt, media, armed := 0, [], None, multiset{};
      sent, told, started := [], [], [];
    }

    ghost function Snapshot(): Call
      reads this
    {
      Call(state, callId, peerUuid, peerIp, generation, pendingUdpPort, pendingSalt, media, armed)
    }

    twostate predicate Did(r: Effect)
      reads this
    {
      && Snapshot() == r.call
      && sent == old(sent) + r.sent && told == old(told) + r.notices && started == old(started) + r.starts
    }

    method SetState(s: CallState)
      modifies this`state, this`told
      ensures state == s
      ensures told == old(told) + if old(state) == s then [] else [StateChanged(s)]
    {
      if state == s {
        return;
      }
      state := s;
      Tell(StateChanged(s));
    }

    method Tell(n: Notice)
      modifies this`told
      ensures told == old(told) + [n]
    {
      told := told + [n];
    }

    method Send(to: string, f: Frame)
      modifies this`sent
      ensures sent == old(sent) + [Outbound(to, f)]
    {
      sent := sent + [Outbound(to, f)];
    }

    /** Handlers already queued cannot be recalled; raising the generation makes them do nothing. */
    method CancelTimers()
      modifies this`generation
      ensures generation == old(generation) + 1
    {
      generation := generation + 1;
    }

    method Arm(kind: TimerKind)
      modifies this`armed
      ensures armed == old(armed) + multiset{Timer(kind, generation, callId)}
    {
      armed := armed + multiset{Timer(kind, generation, callId)};
    }

    method ResetState()
      modifies this`state, this`callId, this`peerUuid, this`peerIp, this`generation, this`pendingUdpPort,
        this`pendingSalt, this`told
      ensures Snapshot() == Reset(old(Snapshot()))
      ensures told == old(told) + [StateChanged(Idle)]
    {
      CancelTimers();
      callId := "";
      peerUuid := "";
      peerIp := "";
      pendingUdpPort := 0;
      pendingSalt := [];
      state := Idle;
      Tell(StateChanged(Idle));
    }

    method InitiateCall(peer: string, ip: string, freshId: string, salt: seq<int>, env: Env)
      modifies this
      ensures Did(OnInitiate(old(Snapshot()), Event.InitiateCall(peer, ip, freshId, salt), hasMedia, env))
    {
      if state != Idle || !env.session || !hasMedia {
        Tell(CallError);
        return;
      }
      media := None;
      if !env.probeOk {
        return;
      }
      if !env.bindOk {
        Tell(CallError);
        return;
      }
      peerUuid, peerIp, callId, pendingSalt := peer, ip, freshId, salt;
      state := Calling;
      told := told + [StateChanged(Calling)];
      Arm(CallTimeout);
      Send(peer, CallInvite(freshId, env.localPort, salt));
    }

    method AcceptCall(id: string, env: Env)
      modifies this
      ensures Did(OnAcceptCall(old(Snapshot()), id, hasMedia, env))
    {
      var peer, ip, port, salt := "", "", 0, [];
      if state == Ringing && callId == id {
        peer, ip, port, salt := peerUuid, peerIp, pendingUdpPort, pendingSalt;
      }
      if peer == "" || !hasMedia {
        Tell(CallError);
        return;
      }
      StartMedia(ip, port, id, salt, env);
      if media.None? {
        return;
      }
      Send(peer, CallAccept(id, env.localPort));
      SetState(InCall);
      Tell(CallAccepted(peer));
    }

    method RejectCall(id: string, reason: string)
      modifies this
      ensures Did(OnRejectCall(old(Snapshot()), id, reason))
    {
      if state != Ringing || callId != id {
        return;
      }
      Send(peerUuid, CallReject(id, reason));
      ResetState();
    }

    method EndCall()
      modifies this
      ensures Did(OnEndCall(old(Snapshot())))
    {
      if state == Idle {
        return;
      }
      var wasActive := state == InCall || state == Calling || state == Ringing;
      if wasActive && callId != "" && peerUuid != "" {
        Send(peerUuid, CallEnd(callId));
      }
      EnterEnded(peerUuid != "");
    }

    /** The common end of endCall and of a received CALL_END. */
    method EnterEnded(tellPeer: bool)
      modifies this`media, this`state, this`armed, this`told
      ensures Did(ToEnded(old(Snapshot()), tellPeer))
    {
      media := None;
      SetState(Ended);
      if tellPeer {
        Tell(CallEnded(peerUuid));
      }
      Arm(EndedDelay);
    }

    method HandleSignaling(from: string, f: Frame, env: Env)
      modifies this
      ensures Did(OnFrame(old(Snapshot()), from, f, hasMedia, env))
    {
      match f
      case CallInvite(_, _, _) => HandleInvite(from, f, env);
      case CallAccept(_, _) => HandleAccept(from, f, env);
      case CallReject(id, reason) =>
        if state != Calling || callId != id {
          return;
        }
        var peer := peerUuid;
        ResetState();
        Tell(CallRejected(peer, reason));
      case CallEnd(id) =>
        if !(state == InCall || state == Ringing || state == Calling) || callId != id {
          return;
        }
        EnterEnded(true);
    }

    method HandleInvite(from: string, f: Frame, env: Env)
      requires f.CallInvite?
      modifies this`state, this`callId, this`peerUuid, this`peerIp, this`pendingUdpPort, this`pendingSalt, this`sent,
        this`told
      ensures Did(OnFrame(old(Snapshot()), from, f, hasMedia, env))
    {
      if state != Idle {
        Send(from, CallReject(f.callId, "busy"));
        return;
      }
      peerUuid, callId, peerIp := from, f.callId, env.peerIp;
      pendingUdpPort, pendingSalt := f.udpPort % 65536, f.salt;
      state := Ringing;
      told := told + [StateChanged(Ringing), IncomingCall(from, f.callId)];
    }

    method HandleAccept(from: string, f: Frame, env: Env)
      requires f.CallAccept?
      modifies this
      ensures Did(OnFrame(old(Snapshot()), from, f, hasMedia, env))
    {
      if state != Calling || callId != f.callId {
        return;
      }
      var ip, salt := peerIp, pendingSalt;
      CancelTimers();
      if !hasMedia {
        return;
      }
      StartMedia(ip, f.udpPort % 65536, f.callId, salt, env);
      if media.None? {
        return;
      }
      SetState(InCall);
      Tell(CallAccepted(from));
    }

    method StartMedia(ip: string, port: int, id: string, salt: seq<int>, env: Env)
      modifies this
      ensures Did(CallModel.StartMedia(old(Snapshot()), ip, port, id, salt, env))
    {
      if !env.session || !env.keyOk {
        Tell(CallError);
        ResetState();
        return;
      }
      if !env.mediaOk {
        ResetState();
        return;
      }
      media := Some(Media(peerUuid, id, salt, ip, port));
      started := started + [media.value];
    }

    /** The handler of an armed timer runs. */
    method TimerFired(t: Timer)
      requires t in armed
      modifies this
      ensures Did(OnTimer(old(Snapshot()), t))
    {
      armed := armed - multiset{t};
      if t.generation != generation {
        return;
      }
      var peer := peerUuid;
      ResetState();
      if t.kind == CallTimeout {
        Tell(CallRejected(peer, "timeout"));
      }
    }
  }
}
