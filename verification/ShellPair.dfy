/** Two remote shell managers (src/shell/remoteshellmanager.cpp): a session from the request to its end. */
module ShellPair {
  import opened Bytes
  import opened Text
  import opened ShellModel

  // What each frame stands for

  predicate IsRole(s: Shell, id: string, role: Role, peer: string) {
    id in s.sessions && s.sessions[id].role == role && s.sessions[id].peer == peer
  }

  /** Why a session is killed, and who is told. */
  predicate KilledFor(s: Shell, e: Event, forbidden: seq<Byte> -> bool, env: Env, to: string, id: string,
                      reason: string)
    requires Possible(s, e, env) && id in s.sessions
  {
    match e
    case Kill(session, why) => session == id && why == reason && to == s.sessions[id].peer
    case SendInput(session, data) =>
      session == id && forbidden(data) && reason == "privilege_escalation" && to == s.sessions[id].peer
    case Receive(from, session, f) =>
      && session == id && s.sessions[id].role == Receiver
      && ((f.ShellInput? && forbidden(f.input) && reason == "privilege_escalation" && to == from)
          || (f.ChallengeResponse? && !env.spawnOk && reason == "spawn_failed" && to == s.sessions[id].peer))
    case Exit(pid) => s.spawned[pid].session == id && s.spawned[pid].peer == to && reason == "process_exited"
    case Fire(w) =>
      && w.session == id && s.waits[w] == Queued && w.generation == s.sessions[id].generation && reason == "timeout"
      && to == s.sessions[id].peer
    case _ => false
  }

  /** A frame is sent only for its own reason, to the peer concerned; input and output only when encrypted. */
  ghost predicate SentFor(s: Shell, e: Event, forbidden: seq<Byte> -> bool, env: Env, o: Outbound)
    requires Possible(s, e, env)
  {
    match o.frame
    case ShellRequest => e == RequestShell(o.to, o.session) && |s.sessions| < MAX_SESSIONS
    case ShellChallenge => e == Receive(o.to, o.session, ShellRequest) && |s.sessions| < MAX_SESSIONS
    case ChallengeResponse(password) => e == Respond(o.session, password) && IsRole(s, o.session, Initiator, o.to)
    case ShellAccept =>
      && e.Receive? && e.from == o.to && e.session == o.session && e.frame.ChallengeResponse?
      && o.session in s.sessions && s.sessions[o.session].role == Receiver
      && e.frame.password == s.sessions[o.session].otp != []
    case ShellReject(reason) =>
      || (e == RejectRequest(o.session, reason) && o.session in s.sessions && s.sessions[o.session].peer == o.to)
      || (e == Receive(o.to, o.session, ShellRequest) && |s.sessions| >= MAX_SESSIONS && reason == "busy")
      || (&& e.Receive? && e.from == o.to && e.session == o.session && e.frame.ChallengeResponse?
          && o.session in s.sessions && s.sessions[o.session].role == Receiver && reason == "wrong_password"
          && !Matches(e.frame.password, s.sessions[o.session].otp))
    case ShellKill(reason) => o.session in s.sessions && KilledFor(s, e, forbidden, env, o.to, o.session, reason)
    case ShellData(data) =>
      && env.encrypted && e.Output? && e.data == data
      && o.session == s.spawned[e.pid].session && o.to == s.spawned[e.pid].peer && o.session in s.sessions
    case ShellInput(data) =>
      env.encrypted && e == SendInput(o.session, data) && IsRole(s, o.session, Initiator, o.to) && !forbidden(data)
  }

  lemma FramesHaveReasons(s: Shell, e: Event, forbidden: seq<Byte> -> bool, env: Env, o: Outbound)
    requires Possible(s, e, env) && o in Step(s, e, forbidden, env).sent
    ensures SentFor(s, e, forbidden, env, o)
  {
    hide Cleanup, Touch, StartProcess, Open, CancelWaits, OnFrame, SentFor;
    if e.Receive? {
      AnswersHaveReasons(s, e, forbidden, env, o);
    } else {
      OwnFramesHaveReasons(s, e, forbidden, env, o);
    }
  }

  lemma AnswersHaveReasons(s: Shell, e: Event, forbidden: seq<Byte> -> bool, env: Env, o: Outbound)
    requires Possible(s, e, env) && e.Receive? && o in OnFrame(s, e.from, e.session, e.frame, forbidden, env).sent
    ensures SentFor(s, e, forbidden, env, o)
  {
    hide Cleanup, Touch, StartProcess, Open, CancelWaits;
  }

  lemma OwnFramesHaveReasons(s: Shell, e: Event, forbidden: seq<Byte> -> bool, env: Env, o: Outbound)
    requires Possible(s, e, env) && !e.Receive? && o in Step(s, e, forbidden, env).sent
    ensures SentFor(s, e, forbidden, env, o)
  {
    hide Cleanup, Touch, StartProcess, Open, CancelWaits, OnFrame;
  }

  /** A listener is told only what happened, of the session concerned. */
  ghost predicate ToldFor(s: Shell, e: Event, forbidden: seq<Byte> -> bool, env: Env, n: Notice)
    requires Possible(s, e, env)
  {
    match n
    case ChallengeGenerated(id, otp) =>
      e.Receive? && e.session == id && e.frame == ShellRequest && |s.sessions| < MAX_SESSIONS && otp == env.otp
    case PasswordRequired(id) =>
      && e.Receive? && e.session == id && e.frame == ShellChallenge
      && id in s.sessions && s.sessions[id].role == Initiator
    case Accepted(id) =>
      e.Receive? && e.session == id && e.frame == ShellAccept && id in s.sessions && s.sessions[id].role == Initiator
    case SessionStarted(id) =>
      && e.Receive? && e.session == id && e.frame.ChallengeResponse? && env.spawnOk
      && id in s.sessions && s.sessions[id].role == Receiver && Matches(e.frame.password, s.sessions[id].otp)
    case Rejected(id, reason) =>
      || (e.Receive? && e.session == id && e.frame == ShellReject(reason) && id in s.sessions)
      || (e.RequestShell? && |s.sessions| >= MAX_SESSIONS && id == "" && reason == "max_sessions")
    case DataReceived(id, data) => e.Receive? && e.session == id && e.frame == ShellData(data)
    case InputMonitored(id, data) =>
      && e.Receive? && e.session == id && e.frame == ShellInput(data) && !forbidden(data)
      && id in s.sessions && s.sessions[id].role == Receiver && s.sessions[id].process.Some?
    case SessionEnded(id, reason) =>
      && id in s.sessions
      && ((e.Receive? && e.session == id && e.frame == ShellKill(reason))
          || exists to :: KilledFor(s, e, forbidden, env, to, id, reason))
    case PrivilegeEscalation(id) =>
      e.SendInput? && e.session == id && forbidden(e.data) && id in s.sessions && s.sessions[id].role == Initiator
  }

  lemma NoticesHaveReasons(s: Shell, e: Event, forbidden: seq<Byte> -> bool, env: Env, n: Notice)
    requires Possible(s, e, env) && n in Step(s, e, forbidden, env).notices
    ensures ToldFor(s, e, forbidden, env, n)
  {
    hide Cleanup, Touch, StartProcess, Open, CancelWaits, OnFrame, ToldFor;
    if e.Receive? {
      AnswerNoticesHaveReasons(s, e, forbidden, env, n);
    } else {
      OwnNoticesHaveReasons(s, e, forbidden, env, n);
    }
  }

  lemma AnswerNoticesHaveReasons(s: Shell, e: Event, forbidden: seq<Byte> -> bool, env: Env, n: Notice)
    requires Possible(s, e, env) && e.Receive? && n in OnFrame(s, e.from, e.session, e.frame, forbidden, env).notices
    ensures ToldFor(s, e, forbidden, env, n)
  {
    hide Cleanup, Touch, StartProcess, Open, CancelWaits;
    if n.SessionEnded? {
      assert e.frame.ShellInput? ==> KilledFor(s, e, forbidden, env, e.from, e.session, n.reason);
      assert e.frame.ChallengeResponse? ==>
          KilledFor(s, e, forbidden, env, s.sessions[e.session].peer, e.session, n.reason);
    }
  }

  lemma OwnNoticesHaveReasons(s: Shell, e: Event, forbidden: seq<Byte> -> bool, env: Env, n: Notice)
    requires Possible(s, e, env) && !e.Receive? && n in Step(s, e, forbidden, env).notices
    ensures ToldFor(s, e, forbidden, env, n)
  {
    hide Cleanup, Touch, StartProcess, Open, CancelWaits, OnFrame;
    if n.SessionEnded? {
      var to := if e.Exit? then s.spawned[e.pid].peer else s.sessions[n.session].peer;
      assert KilledFor(s, e, forbidden, env, to, n.session, n.reason);
    }
  }

  /** What counts as activity of a running session: input to its process, output for it, or any data under its id. */
  predicate Activity(s: Shell, e: Event, forbidden: seq<Byte> -> bool, id: string)
    requires e.Output? ==> e.pid < |s.spawned|
  {
    || (e.Receive? && e.session == id && (e.frame.ShellData? || (e.frame.ShellInput? && !forbidden(e.frame.input))))
    || (e.Output? && s.spawned[e.pid].session == id)
  }

  /** A running session that survives a step has its time renewed exactly by activity. */
  lemma ActivityRenews(s: Shell, e: Event, forbidden: seq<Byte> -> bool, env: Env, id: string)
    requires ShellInv(s) && Possible(s, e, env) && id in s.sessions && s.sessions[id].process.Some?
    requires id in Step(s, e, forbidden, env).shell.sessions
    ensures Renewed(s, Step(s, e, forbidden, env).shell, id, Activity(s, e, forbidden, id))
  {
    hide CancelWaits, HistoryOk, WaitsOk, StillDue, Step, OnFrame, Renewed;
    assert SessionOk(s.sessions[id]);
    OnlySession(s, id);
    if e.Receive? {
      FrameRenews(s, e, forbidden, env, id);
    } else {
      OwnRenews(s, e, forbidden, env, id);
    }
  }

  /** The session goes on with its process; its inactivity timer waits anew if there was activity. */
  ghost predicate Renewed(s: Shell, after: Shell, id: string, active: bool)
    requires id in s.sessions && id in after.sessions
  {
    var was, now := s.sessions[id], after.sessions[id];
    && now.process == was.process && now.role == was.role && now.timer == was.timer
    && now.generation == was.generation + (if active then 1 else 0)
    && (active && was.timer.Some? ==>
          var w := Wait(id, was.timer.value, now.generation);
          w in after.waits && after.waits[w] == Waiting)
  }

  lemma FrameRenews(s: Shell, e: Event, forbidden: seq<Byte> -> bool, env: Env, id: string)
    requires Possible(s, e, env) && id in s.sessions && s.sessions[id].process.Some? && SessionOk(s.sessions[id])
    requires e.Receive? && (forall other :: other in s.sessions ==> other == id)
    requires id in Step(s, e, forbidden, env).shell.sessions && |s.sessions| >= MAX_SESSIONS
    ensures Renewed(s, Step(s, e, forbidden, env).shell, id, Activity(s, e, forbidden, id))
  {
    hide CancelWaits;
  }

  lemma OwnRenews(s: Shell, e: Event, forbidden: seq<Byte> -> bool, env: Env, id: string)
    requires Possible(s, e, env) && id in s.sessions && s.sessions[id].process.Some? && SessionOk(s.sessions[id])
    requires !e.Receive? && (forall other :: other in s.sessions ==> other == id)
    requires id in Step(s, e, forbidden, env).shell.sessions && |s.sessions| >= MAX_SESSIONS
    ensures Renewed(s, Step(s, e, forbidden, env).shell, id, Activity(s, e, forbidden, id))
  {
    hide CancelWaits, OnFrame, StillDue;
  }

  /** What an initiator types leaves only inside an encrypted session, as it is; what is forbidden ends the session. */
  lemma InputIsSent(s: Shell, id: string, data: seq<Byte>, forbidden: seq<Byte> -> bool, env: Env)
    requires id in s.sessions && s.sessions[id].role == Initiator && |env.otp| == OTP_LENGTH
    ensures var r, peer := Step(s, SendInput(id, data), forbidden, env), s.sessions[id].peer;
      if forbidden(data) then
        && r.sent == [Outbound(peer, id, ShellKill("privilege_escalation"))] && id !in r.shell.sessions
        && r.notices == [SessionEnded(id, "privilege_escalation"), PrivilegeEscalation(id)]
      else
        && r.sent == (if env.encrypted then [Outbound(peer, id, ShellInput(data))] else [])
        && id in r.shell.sessions && r.notices == []
  {
    hide CancelWaits;
  }

  // Two shells

  /** A session under way: the initiator's entry, and the receiver's with its process. */
  predicate Linked(mine: Shell, theirs: Shell, a: string, b: string, id: string) {
    && IsRole(mine, id, Initiator, b) && IsRole(theirs, id, Receiver, a)
    && theirs.sessions[id].process.Some?
    && var pid := theirs.sessions[id].process.value;
       && pid < |theirs.spawned| && pid !in theirs.exited && pid in theirs.running
       && theirs.spawned[pid].session == id && theirs.spawned[pid].peer == a
  }

  /** A command typed at one end is written to the process at the other, and nothing else is. */
  lemma InputReachesProcess(mine: Shell, theirs: Shell, a: string, b: string, id: string, data: seq<Byte>,
                            forbidden: seq<Byte> -> bool, env: Env, env2: Env)
    requires Linked(mine, theirs, a, b, id) && !forbidden(data) && env.encrypted
    requires |env.otp| == OTP_LENGTH && |env2.otp| == OTP_LENGTH
    ensures var typed := Step(mine, SendInput(id, data), forbidden, env);
      && typed.sent == [Outbound(b, id, ShellInput(data))]
      && var taken := Step(theirs, Receive(a, id, ShellInput(data)), forbidden, env2);
         && taken.writes == [Write(theirs.sessions[id].process.value,
                                   if data != [] && data[|data| - 1] == 10 then data else data + [10])]
         && taken.sent == [] && taken.notices == [InputMonitored(id, data)]
         && Linked(typed.shell, taken.shell, a, b, id)
  {
    hide CancelWaits;
  }

  /** What the process puts out is shown at the other end, byte for byte. */
  lemma OutputReachesInitiator(mine: Shell, theirs: Shell, a: string, b: string, id: string, data: seq<Byte>,
                               forbidden: seq<Byte> -> bool, env: Env, env2: Env)
    requires Linked(mine, theirs, a, b, id) && env.encrypted
    requires |env.otp| == OTP_LENGTH && |env2.otp| == OTP_LENGTH
    ensures var put := Step(theirs, Output(theirs.sessions[id].process.value, data), forbidden, env);
      && put.sent == [Outbound(a, id, ShellData(data))] && put.writes == []
      && var shown := Step(mine, Receive(b, id, ShellData(data)), forbidden, env2);
         && shown.notices == [DataReceived(id, data)] && shown.sent == []
         && Linked(shown.shell, put.shell, a, b, id)
  {
    hide CancelWaits;
  }

  /** The opening of a session: request, challenge, response with the one-time password, acceptance. */
  lemma SessionComesUp(mine: Shell, theirs: Shell, a: string, b: string, id: string, forbidden: seq<Byte> -> bool,
                       env: Env)
    requires mine.sessions == map[] && theirs.sessions == map[] && |env.otp| == OTP_LENGTH && env.spawnOk
    requires forall pid :: pid in theirs.exited ==> pid < |theirs.spawned|
    ensures var asked := Step(mine, RequestShell(b, id), forbidden, env);
      && asked.sent == [Outbound(b, id, ShellRequest)]
      && var challenged := Step(theirs, Receive(a, id, ShellRequest), forbidden, env);
         && challenged.sent == [Outbound(a, id, ShellChallenge)]
         && challenged.notices == [ChallengeGenerated(id, env.otp)]
         && var prompted := Step(asked.shell, Receive(b, id, ShellChallenge), forbidden, env);
            && prompted.notices == [PasswordRequired(id)] && prompted.sent == []
            && var answered := Step(prompted.shell, Respond(id, env.otp), forbidden, env);
               && answered.sent == [Outbound(b, id, ChallengeResponse(env.otp))]
               && var started := Step(challenged.shell, Receive(a, id, ChallengeResponse(env.otp)), forbidden, env);
                  && started.sent == [Outbound(a, id, ShellAccept)] && started.notices == [SessionStarted(id)]
                  && var accepted := Step(answered.shell, Receive(b, id, ShellAccept), forbidden, env);
                     && accepted.notices == [Accepted(id)] && accepted.sent == []
                     && Linked(accepted.shell, started.shell, a, b, id)
                     && started.shell.spawned == theirs.spawned + [Started(id, a, theirs.openings)]
                     && started.shell.sessions[id].otp == []
  {
    hide CancelWaits;
  }

  /** A wrong password ends the session at both ends; no process was started. */
  lemma WrongPasswordEndsBoth(mine: Shell, theirs: Shell, a: string, b: string, id: string, password: seq<Byte>,
                              forbidden: seq<Byte> -> bool, env: Env, env2: Env)
    requires IsRole(mine, id, Initiator, b) && IsRole(theirs, id, Receiver, a)
    requires password != theirs.sessions[id].otp || password == []
    requires |env.otp| == OTP_LENGTH && |env2.otp| == OTP_LENGTH
    ensures var sent := Step(mine, Respond(id, password), forbidden, env);
      && sent.sent == [Outbound(b, id, ChallengeResponse(password))]
      && var refused := Step(theirs, Receive(a, id, ChallengeResponse(password)), forbidden, env2);
         && refused.sent == [Outbound(a, id, ShellReject("wrong_password"))] && id !in refused.shell.sessions
         && refused.shell.spawned == theirs.spawned && refused.writes == []
         && var told := Step(sent.shell, Receive(b, id, ShellReject("wrong_password")), forbidden, env);
            id !in told.shell.sessions && told.notices == [Rejected(id, "wrong_password")] && told.sent == []
  {
    hide CancelWaits;
  }

  /** Turning a session down ends it at both ends. */
  lemma RejectEndsBoth(first: Shell, second: Shell, me: string, peer: string, id: string, reason: string,
                       forbidden: seq<Byte> -> bool, env: Env, env2: Env)
    requires id in first.sessions && first.sessions[id].peer == peer && id in second.sessions
    requires |env.otp| == OTP_LENGTH && |env2.otp| == OTP_LENGTH
    ensures var turned := Step(first, RejectRequest(id, reason), forbidden, env);
      && turned.sent == [Outbound(peer, id, ShellReject(reason))] && Gone(first, turned.shell, id)
      && var told := Step(second, Receive(me, id, ShellReject(reason)), forbidden, env2);
         told.sent == [] && told.notices == [Rejected(id, reason)] && Gone(second, told.shell, id)
  {}

  /** A session ended at either end, by its user, is ended at the other, the process killed; both are told why. */
  lemma KillEndsBoth(first: Shell, second: Shell, me: string, peer: string, id: string, reason: string,
                     forbidden: seq<Byte> -> bool, env: Env, env2: Env)
    requires id in first.sessions && first.sessions[id].peer == peer
    requires id in second.sessions && second.sessions[id].peer == me
    requires |env.otp| == OTP_LENGTH && |env2.otp| == OTP_LENGTH
    ensures var killed := Step(first, Kill(id, reason), forbidden, env);
      && killed.sent == [Outbound(peer, id, ShellKill(reason))] && killed.notices == [SessionEnded(id, reason)]
      && Gone(first, killed.shell, id)
      && var told := Step(second, Receive(me, id, ShellKill(reason)), forbidden, env2);
         told.sent == [] && told.notices == [SessionEnded(id, reason)] && Gone(second, told.shell, id)
  {}

  /** The session is away, and with it its process and its timer; other sessions and processes stay. */
  ghost predicate Gone(before: Shell, after: Shell, id: string)
    requires id in before.sessions
  {
    && after.sessions == before.sessions - {id}
    && after.running == before.running - Pids(before.sessions[id].process)
    && (forall w :: w in after.waits <==> w in before.waits)
    && (forall w :: w in before.waits && before.sessions[id].timer == Some(w.timer) ==> after.waits[w] != Waiting)
  }

  /** The end of the process ends both ends. */
  lemma ExitEndsBoth(mine: Shell, theirs: Shell, a: string, b: string, id: string, forbidden: seq<Byte> -> bool,
                     env: Env, env2: Env)
    requires Linked(mine, theirs, a, b, id) && |env.otp| == OTP_LENGTH && |env2.otp| == OTP_LENGTH
    ensures var over := Step(theirs, Exit(theirs.sessions[id].process.value), forbidden, env);
      && over.sent == [Outbound(a, id, ShellKill("process_exited"))] && id !in over.shell.sessions
      && over.notices == [SessionEnded(id, "process_exited")]
      && var told := Step(mine, Receive(b, id, ShellKill("process_exited")), forbidden, env2);
         id !in told.shell.sessions && told.notices == [SessionEnded(id, "process_exited")]
  {
    hide CancelWaits;
  }

  /** While a session is open the user cannot ask for another one, and is told so. */
  lemma OneAtATime(s: Shell, peer: string, id: string, forbidden: seq<Byte> -> bool, env: Env)
    requires |s.sessions| >= MAX_SESSIONS && |env.otp| == OTP_LENGTH
    ensures Step(s, RequestShell(peer, id), forbidden, env) == Effect(s, [], [Rejected("", "max_sessions")], [])
  {}

  /** While a session is open, another request is answered with busy and changes nothing. */
  lemma BusyAnswers(s: Shell, from: string, id: string, forbidden: seq<Byte> -> bool, env: Env)
    requires |s.sessions| >= MAX_SESSIONS && |env.otp| == OTP_LENGTH
    ensures Step(s, Receive(from, id, ShellRequest), forbidden, env)
         == Effect(s, [Outbound(from, id, ShellReject("busy"))], [], [])
  {}
}
