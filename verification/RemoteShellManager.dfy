/**
 * RemoteShellManager itself (src/shell/remoteshellmanager.cpp): the handlers that insert, update and erase sessions.
 */
module ShellEngine {
  import opened Bytes
  import opened Text
  import opened ShellModel

  /** The constant-time comparison: every byte pair is looked at, whatever the earlier ones were. */
  method OtpMatches(entered: seq<Byte>, otp: seq<Byte>) returns (ok: bool)
    ensures ok <==> Matches(entered, otp)
  {
    ok := entered != [] && otp != [] && |entered| == |otp|;
    if ok {
      var diff: Byte := 0;
      for i := 0 to |entered|
        invariant diff == 0 <==> forall j :: 0 <= j < i ==> entered[j] == otp[j]
      {
        CollectDifference(diff, entered[i], otp[i]);
        diff := diff | (entered[i] ^ otp[i]);
      }
      ok := diff == 0;
    }
  }

  class RemoteShellManager {
    const forbidden: seq<Byte> -> bool
    var sessions: map<string, Session>
    var waits: map<Wait, WaitState>
    var running: map<nat, string>
    var spawned: seq<Started>
    var exited: set<nat>
    var openings: nat
    var sent: seq<Outbound>
    var told: seq<Notice>
    var written: seq<Write>

    constructor (forbidden: seq<Byte> -> bool)
      ensures this.forbidden == forbidden && Snapshot() == INITIAL && sent == [] && told == [] && written == []
    {
      this.forbidden := forbidden;
      sessions, waits, running, spawned, exited, openings := map[], map[], map[], [], {}, 0;
      sent, told, written := [], [], [];
    }

    ghost function Snapshot(): Shell
      reads this
    {
      Shell(sessions, waits, running, spawned, exited, openings)
    }

    twostate predicate Did(r: Effect)
      reads this
    {
      && Snapshot() == r.shell
      && sent == old(sent) + r.sent && told == old(told) + r.notices && written == old(written) + r.writes
    }

    method Send(to: string, id: string, frame: Frame)
      modifies this`sent
      ensures sent == old(sent) + [Outbound(to, id, frame)]
    {
      sent := sent + [Outbound(to, id, frame)];
    }

    method Tell(n: Notice)
      modifies this`told
      ensures told == old(told) + [n]
    {
      told := told + [n];
    }

    method CleanupSession(id: string)
      modifies this`sessions, this`running, this`waits
      ensures Snapshot() == Cleanup(old(Snapshot()), id)
    {
      if id !in sessions {
        return;
      }
      waits := CancelWaits(waits, sessions[id].timer);
      running := running - Pids(sessions[id].process);
      sessions := sessions - {id};
    }

    method ResetInactivityTimer(id: string)
      modifies this`sessions, this`waits
      ensures Snapshot() == Touch(old(Snapshot()), id)
    {
      if id !in sessions || sessions[id].timer.None? {
        return;
      }
      var sd := sessions[id];
      sessions := sessions[id := sd.(generation := sd.generation + 1)];
      waits := CancelWaits(waits, sd.timer);
      waits := waits[Wait(id, sd.timer.value, sd.generation + 1) := Waiting];
    }

    method RequestShell(peer: string, id: string)
      modifies this`sessions, this`openings, this`sent, this`told
      ensures Did(OnRequestShell(old(Snapshot()), peer, id))
    {
      if |sessions| >= MAX_SESSIONS {
        Tell(Rejected("", "max_sessions"));
        return;
      }
      sessions := sessions[id := Session(Initiator, peer, [], None, None, 0, openings)];
      openings := openings + 1;
      Send(peer, id, ShellRequest);
    }

    method RejectRequest(id: string, reason: string)
      modifies this`sessions, this`running, this`waits, this`sent
      ensures Did(OnReject(old(Snapshot()), id, reason))
    {
      if id !in sessions {
        return;
      }
      Send(sessions[id].peer, id, ShellReject(reason));
      CleanupSession(id);
    }

    method RespondToChallenge(id: string, password: seq<Byte>)
      modifies this`sent
      ensures Did(OnRespond(old(Snapshot()), id, password))
    {
      if id !in sessions || sessions[id].role != Initiator {
        return;
      }
      Send(sessions[id].peer, id, ChallengeResponse(password));
    }

    method SendInput(id: string, data: seq<Byte>, env: Env)
      modifies this`sessions, this`waits, this`running, this`sent, this`told
      ensures Did(OnSendInput(old(Snapshot()), id, data, forbidden, env))
    {
      if id !in sessions || sessions[id].role != Initiator {
        return;
      }
      if forbidden(data) {
        KillSession(id, "privilege_escalation");
        Tell(PrivilegeEscalation(id));
        return;
      }
      var peer := sessions[id].peer;
      ResetInactivityTimer(id);
      if env.encrypted {
        Send(peer, id, ShellInput(data));
      }
    }

    method KillSession(id: string, reason: string)
      modifies this`sessions, this`running, this`waits, this`sent, this`told
      ensures Did(OnKill(old(Snapshot()), id, reason))
    {
      if id !in sessions {
        return;
      }
      End(sessions[id].peer, id, reason);
    }

    method End(to: string, id: string, reason: string)
      modifies this`sessions, this`running, this`waits, this`sent, this`told
      ensures Did(Ended(old(Snapshot()), to, id, reason))
    {
      Send(to, id, ShellKill(reason));
      CleanupSession(id);
      Tell(SessionEnded(id, reason));
    }

    method HandleRequest(from: string, id: string, env: Env)
      modifies this`sessions, this`openings, this`sent, this`told
      ensures Did(OnRequest(old(Snapshot()), from, id, env))
    {
      if |sessions| >= MAX_SESSIONS {
        Send(from, id, ShellReject("busy"));
        return;
      }
      sessions := sessions[id := Session(Receiver, from, env.otp, None, None, 0, openings)];
      openings := openings + 1;
      Send(from, id, ShellChallenge);
      Tell(ChallengeGenerated(id, env.otp));
    }

    method HandleResponse(from: string, id: string, entered: seq<Byte>, env: Env)
      modifies this
      ensures Did(OnResponse(old(Snapshot()), from, id, entered, env))
    {
      if id !in sessions || sessions[id].role != Receiver {
        return;
      }
      var ok := OtpMatches(entered, sessions[id].otp);
      if !ok {
        Send(from, id, ShellReject("wrong_password"));
        CleanupSession(id);
        return;
      }
      sessions := sessions[id := sessions[id].(otp := [])];
      Send(from, id, ShellAccept);
      SpawnProcess(id, env);
    }

    method SpawnProcess(id: string, env: Env)
      modifies this`sessions, this`waits, this`running, this`spawned, this`sent, this`told
      ensures Did(Spawn(old(Snapshot()), id, env))
    {
      if id !in sessions {
        return;
      }
      var sd := sessions[id];
      if !env.spawnOk {
        Send(sd.peer, id, ShellKill("spawn_failed"));
        CleanupSession(id);
        Tell(SessionEnded(id, "spawn_failed"));
        return;
      }
      StartShell(id);
      ResetInactivityTimer(id);
      Tell(SessionStarted(id));
    }

    /** The process and its timer take the place of what the session had before. */
    method StartShell(id: string)
      requires id in sessions
      modifies this`sessions, this`waits, this`running, this`spawned
      ensures Snapshot() == StartProcess(old(Snapshot()), id)
    {
      var sd, pid := sessions[id], |spawned|;
      spawned := spawned + [Started(id, sd.peer, sd.serial)];
      waits := CancelWaits(waits, sd.timer);
      running := (running - Pids(sd.process))[pid := id];
      sessions := sessions[id := sd.(process := Some(pid), timer := Some(pid))];
    }

    method HandleSignaling(from: string, id: string, f: Frame, env: Env)
      requires !f.ShellData? && !f.ShellInput?
      modifies this
      ensures Did(OnFrame(old(Snapshot()), from, id, f, forbidden, env))
    {
      match f
      case ShellRequest => HandleRequest(from, id, env);
      case ChallengeResponse(entered) => HandleResponse(from, id, entered, env);
      case ShellChallenge =>
        if id in sessions && sessions[id].role == Initiator {
          Tell(PasswordRequired(id));
        }
      case ShellAccept =>
        if id in sessions && sessions[id].role == Initiator {
          ResetInactivityTimer(id);
          Tell(Accepted(id));
        }
      case ShellReject(reason) =>
        if id in sessions {
          CleanupSession(id);
          Tell(Rejected(id, reason));
        }
      case ShellKill(reason) =>
        if id in sessions {
          CleanupSession(id);
          Tell(SessionEnded(id, reason));
        }
    }

    method HandleDecryptedData(from: string, id: string, f: Frame, env: Env)
      requires f.ShellData? || f.ShellInput?
      modifies this
      ensures Did(OnFrame(old(Snapshot()), from, id, f, forbidden, env))
    {
      if f.ShellData? {
        ResetInactivityTimer(id);
        Tell(DataReceived(id, f.output));
        return;
      }
      if id !in sessions || sessions[id].role != Receiver || sessions[id].process.None? {
        return;
      }
      if forbidden(f.input) {
        End(from, id, "privilege_escalation");
        return;
      }
      var pid := sessions[id].process.value;
      ResetInactivityTimer(id);
      Tell(InputMonitored(id, f.input));
      var command := f.input;
      if command == [] || command[|command| - 1] != NEWLINE {
        command := command + [NEWLINE];
      }
      written := written + [Write(pid, command)];
    }

    /** The posted continuation of a process's output, which knows the session and peer it was started for. */
    method ProcessOutput(pid: nat, data: seq<Byte>, env: Env)
      requires pid < |spawned|
      modifies this`sessions, this`waits, this`sent
      ensures Did(OnOutput(old(Snapshot()), pid, data, env))
    {
      var from := spawned[pid];
      if from.session !in sessions {
        return;
      }
      ResetInactivityTimer(from.session);
      if env.encrypted {
        Send(from.peer, from.session, ShellData(data));
      }
    }

    /** The posted continuation of a process's end. */
    method ProcessExit(pid: nat)
      requires pid < |spawned|
      modifies this`sessions, this`waits, this`running, this`exited, this`sent, this`told
      ensures Did(OnExit(old(Snapshot()), pid))
    {
      exited := exited + {pid};
      var from := spawned[pid];
      if from.session !in sessions {
        return;
      }
      End(from.peer, from.session, "process_exited");
    }

    /** The time of a wait is up: its handler is queued. */
    method WaitExpired(w: Wait)
      requires w in waits && waits[w] == Waiting
      modifies this`waits
      ensures Did(Quiet(old(Snapshot()).(waits := old(waits)[w := Queued])))
    {
      waits := waits[w := Queued];
    }

    /** The handler of a wait that ran out or was aborted. */
    method TimerFired(w: Wait)
      requires w in waits && waits[w] != Waiting
      modifies this`sessions, this`waits, this`running, this`sent, this`told
      ensures Did(OnTimer(old(Snapshot()), w))
    {
      var aborted := waits[w] == Cancelled;
      waits := waits - {w};
      if aborted || w.session !in sessions || sessions[w.session].generation != w.generation {
        return;
      }
      End(sessions[w.session].peer, w.session, "timeout");
    }
  }
}
