/**
 * Remote shell sessions (src/shell/remoteshellmanager.cpp) as a function of the handler that runs. A wait on a timer
 * stays in `waits` until its handler runs: cancelling turns a waiting one into an aborted one, and does nothing to one
 * whose handler is queued already. Callbacks of a process may run at any time from its start to its exit callback.
 */
module ShellModel {
  import opened Bytes
  import opened Text

  datatype Role = Initiator | Receiver

  /**
   * `process` is the running shell a receiver owns, `timer` its inactivity timer, made with the process and named by
   * it. `serial` tells apart sessions that were opened under one id.
   */
  datatype Session = Session(role: Role, peer: string, otp: seq<Byte>, process: Option<nat>, timer: Option<nat>,
                             generation: nat, serial: nat)

  /** One async_wait: the session and generation its handler will look up, and the timer it waits on. */
  datatype Wait = Wait(session: string, timer: nat, generation: nat)

  datatype WaitState = Waiting | Queued | Cancelled

  /** What the callbacks of a started process hold on to, and the serial number of its session. */
  datatype Started = Started(session: string, peer: string, serial: nat)

  datatype Frame =
    | ShellRequest
    | ShellChallenge
    | ChallengeResponse(password: seq<Byte>)
    | ShellAccept
    | ShellReject(reason: string)
    | ShellKill(reason: string)
    | ShellData(output: seq<Byte>)
    | ShellInput(input: seq<Byte>)

  /** Every frame names its session. */
  datatype Outbound = Outbound(to: string, session: string, frame: Frame)

  datatype Notice =
    | ChallengeGenerated(session: string, otp: seq<Byte>)
    | PasswordRequired(session: string)
    | Accepted(session: string)
    | SessionStarted(session: string)
    | Rejected(session: string, reason: string)
    | DataReceived(session: string, data: seq<Byte>)
    | InputMonitored(session: string, data: seq<Byte>)
    | SessionEnded(session: string, reason: string)
    | PrivilegeEscalation(session: string)

  /** Bytes written to the standard input of a process. */
  datatype Write = Write(pid: nat, data: seq<Byte>)

  /**
   * `running` maps each shell process alive to the session it was started for; processes are numbered in the order
   * of `spawned`, which holds every process ever started. `exited` are those whose exit callback has run, and
   * `openings` counts the sessions opened so far.
   */
  datatype Shell = Shell(
    sessions: map<string, Session>, waits: map<Wait, WaitState>, running: map<nat, string>,
    spawned: seq<Started>, exited: set<nat>, openings: nat)

  /** A random one-time password, whether a process starts, and whether the peer has an encrypted session. */
  datatype Env = Env(otp: seq<Byte>, spawnOk: bool, encrypted: bool)

  datatype Effect = Effect(shell: Shell, sent: seq<Outbound>, notices: seq<Notice>, writes: seq<Write>)

  datatype Event =
    | RequestShell(peer: string, session: string)
    | RejectRequest(session: string, reason: string)
    | Respond(session: string, password: seq<Byte>)
    | SendInput(session: string, data: seq<Byte>)
    | Kill(session: string, reason: string)
    | Receive(from: string, session: string, frame: Frame)
    | Output(pid: nat, data: seq<Byte>)
    | Exit(pid: nat)
    | Expire(wait: Wait)
    | Fire(wait: Wait)

  const MAX_SESSIONS: nat := 1
  const OTP_LENGTH: nat := 6
  const NEWLINE: Byte := 10

  const INITIAL: Shell := Shell(map[], map[], map[], [], {}, 0)

  function Quiet(s: Shell): Effect {
    Effect(s, [], [], [])
  }

  function Pids(process: Option<nat>): set<nat> {
    if process.Some? then {process.value} else {}
  }

  /** Cancelling a timer, or arming it anew: its pending waits will be told that they were aborted. */
  function CancelWaits(waits: map<Wait, WaitState>, timer: Option<nat>): map<Wait, WaitState> {
    map w | w in waits :: if timer == Some(w.timer) && waits[w] == Waiting then Cancelled else waits[w]
  }

  /** Destroying a session cancels its timer and kills its process. */
  function Cleanup(s: Shell, id: string): Shell {
    if id !in s.sessions then s
    else s.(sessions := s.sessions - {id}, running := s.running - Pids(s.sessions[id].process),
            waits := CancelWaits(s.waits, s.sessions[id].timer))
  }

  /** resetInactivityTimer: a session without a timer keeps none. */
  function Touch(s: Shell, id: string): Shell {
    if id !in s.sessions || s.sessions[id].timer.None? then s
    else
      var sd, next := s.sessions[id], s.sessions[id].generation + 1;
      s.(sessions := s.sessions[id := sd.(generation := next)],
         waits := CancelWaits(s.waits, sd.timer)[Wait(id, sd.timer.value, next) := Waiting])
  }

  function NewSession(s: Shell, role: Role, peer: string, otp: seq<Byte>): Session {
    Session(role, peer, otp, None, None, 0, s.openings)
  }

  function Open(s: Shell, id: string, sd: Session): Shell {
    s.(sessions := s.sessions[id := sd], openings := s.openings + 1)
  }

  function OnRequestShell(s: Shell, peer: string, id: string): Effect {
    if |s.sessions| >= MAX_SESSIONS then Effect(s, [], [Rejected("", "max_sessions")], [])
    else Effect(Open(s, id, NewSession(s, Initiator, peer, [])), [Outbound(peer, id, ShellRequest)], [], [])
  }

  function OnReject(s: Shell, id: string, reason: string): Effect {
    if id !in s.sessions then Quiet(s)
    else Effect(Cleanup(s, id), [Outbound(s.sessions[id].peer, id, ShellReject(reason))], [], [])
  }

  function OnRespond(s: Shell, id: string, password: seq<Byte>): Effect {
    if id !in s.sessions || s.sessions[id].role != Initiator then Quiet(s)
    else Effect(s, [Outbound(s.sessions[id].peer, id, ChallengeResponse(password))], [], [])
  }

  /** The common end: the peer `to` is told, the session destroyed, listeners informed. */
  function Ended(s: Shell, to: string, id: string, reason: string): Effect {
    Effect(Cleanup(s, id), [Outbound(to, id, ShellKill(reason))], [SessionEnded(id, reason)], [])
  }

  function OnKill(s: Shell, id: string, reason: string): Effect {
    if id !in s.sessions then Quiet(s) else Ended(s, s.sessions[id].peer, id, reason)
  }

  function OnSendInput(s: Shell, id: string, data: seq<Byte>, forbidden: seq<Byte> -> bool, env: Env): Effect {
    if id !in s.sessions || s.sessions[id].role != Initiator then Quiet(s)
    else if forbidden(data) then
      var killed := OnKill(s, id, "privilege_escalation");
      killed.(notices := killed.notices + [PrivilegeEscalation(id)])
    else
      Effect(Touch(s, id), if env.encrypted then [Outbound(s.sessions[id].peer, id, ShellInput(data))] else [], [], [])
  }

  function OnRequest(s: Shell, from: string, id: string, env: Env): Effect {
    if |s.sessions| >= MAX_SESSIONS then Effect(s, [Outbound(from, id, ShellReject("busy"))], [], [])
    else
      Effect(Open(s, id, NewSession(s, Receiver, from, env.otp)), [Outbound(from, id, ShellChallenge)],
             [ChallengeGenerated(id, env.otp)], [])
  }

  predicate Matches(entered: seq<Byte>, otp: seq<Byte>) {
    entered != [] && entered == otp
  }

  function StartProcess(s: Shell, id: string): Shell
    requires id in s.sessions
  {
    var sd, pid := s.sessions[id], |s.spawned|;
    s.(sessions := s.sessions[id := sd.(process := Some(pid), timer := Some(pid))],
       running := (s.running - Pids(sd.process))[pid := id], waits := CancelWaits(s.waits, sd.timer),
       spawned := s.spawned + [Started(id, sd.peer, sd.serial)])
  }

  function Spawn(s: Shell, id: string, env: Env): Effect {
    if id !in s.sessions then Quiet(s)
    else if !env.spawnOk then
      Effect(Cleanup(s, id), [Outbound(s.sessions[id].peer, id, ShellKill("spawn_failed"))],
             [SessionEnded(id, "spawn_failed")], [])
    else Effect(Touch(StartProcess(s, id), id), [], [SessionStarted(id)], [])
  }

  /** The one-time password is cleared as soon as it was matched. */
  function Verified(s: Shell, id: string): Shell
    requires id in s.sessions
  {
    s.(sessions := s.sessions[id := s.sessions[id].(otp := [])])
  }

  function OnResponse(s: Shell, from: string, id: string, entered: seq<Byte>, env: Env): Effect {
    if id !in s.sessions || s.sessions[id].role != Receiver then Quiet(s)
    else if !Matches(entered, s.sessions[id].otp) then
      Effect(Cleanup(s, id), [Outbound(from, id, ShellReject("wrong_password"))], [], [])
    else
      var r := Spawn(Verified(s, id), id, env);
      r.(sent := [Outbound(from, id, ShellAccept)] + r.sent)
  }

  function WithNewline(data: seq<Byte>): seq<Byte> {
    if data == [] || data[|data| - 1] != NEWLINE then data + [NEWLINE] else data
  }

  /** A decrypted command for the shell of this machine. */
  function OnInput(s: Shell, from: string, id: string, data: seq<Byte>, forbidden: seq<Byte> -> bool): Effect {
    if id !in s.sessions || s.sessions[id].role != Receiver || s.sessions[id].process.None? then Quiet(s)
    else if forbidden(data) then Ended(s, from, id, "privilege_escalation")
    else Effect(Touch(s, id), [], [InputMonitored(id, data)], [Write(s.sessions[id].process.value, WithNewline(data))])
  }

  function OnFrame(s: Shell, from: string, id: string, f: Frame, forbidden: seq<Byte> -> bool, env: Env): Effect {
    match f
    case ShellRequest => OnRequest(s, from, id, env)
    case ShellChallenge =>
      if id !in s.sessions || s.sessions[id].role != Initiator then Quiet(s)
      else Effect(s, [], [PasswordRequired(id)], [])
    case ChallengeResponse(entered) => OnResponse(s, from, id, entered, env)
    case ShellAccept =>
      if id !in s.sessions || s.sessions[id].role != Initiator then Quiet(s)
      else Effect(Touch(s, id), [], [Accepted(id)], [])
    case ShellReject(reason) =>
      if id !in s.sessions then Quiet(s) else Effect(Cleanup(s, id), [], [Rejected(id, reason)], [])
    case ShellKill(reason) =>
      if id !in s.sessions then Quiet(s) else Effect(Cleanup(s, id), [], [SessionEnded(id, reason)], [])
    case ShellData(data) => Effect(Touch(s, id), [], [DataReceived(id, data)], [])
    case ShellInput(data) => OnInput(s, from, id, data, forbidden)
  }

  function OnOutput(s: Shell, pid: nat, data: seq<Byte>, env: Env): Effect
    requires pid < |s.spawned|
  {
    var from := s.spawned[pid];
    if from.session !in s.sessions then Quiet(s)
    else
      Effect(Touch(s, from.session),
             if env.encrypted then [Outbound(from.peer, from.session, ShellData(data))] else [], [], [])
  }

  function OnExit(s: Shell, pid: nat): Effect
    requires pid < |s.spawned|
  {
    var from, ran := s.spawned[pid], s.(exited := s.exited + {pid});
    if from.session !in s.sessions then Quiet(ran) else Ended(ran, from.peer, from.session, "process_exited")
  }

  /** The wait was not aborted, and a session of its id and generation is there. */
  predicate StillDue(s: Shell, w: Wait)
    requires w in s.waits
  {
    s.waits[w] != Cancelled && w.session in s.sessions && s.sessions[w.session].generation == w.generation
  }

  /** The handler of a wait: nothing when aborted, or when the session is gone or was touched since. */
  function OnTimer(s: Shell, w: Wait): Effect
    requires w in s.waits
  {
    var ran := s.(waits := s.waits - {w});
    if !StillDue(s, w) then Quiet(ran) else Ended(ran, s.sessions[w.session].peer, w.session, "timeout")
  }

  /** Waiting waits run out; queued and aborted ones have handlers to run; a process calls back until its exit. */
  predicate Possible(s: Shell, e: Event, env: Env) {
    && |env.otp| == OTP_LENGTH
    && (e.Expire? ==> e.wait in s.waits && s.waits[e.wait] == Waiting)
    && (e.Fire? ==> e.wait in s.waits && s.waits[e.wait] != Waiting)
    && (e.Output? || e.Exit? ==> e.pid < |s.spawned| && e.pid !in s.exited)
  }

  function Step(s: Shell, e: Event, forbidden: seq<Byte> -> bool, env: Env): Effect
    requires Possible(s, e, env)
  {
    match e
    case RequestShell(peer, id) => OnRequestShell(s, peer, id)
    case RejectRequest(id, reason) => OnReject(s, id, reason)
    case Respond(id, password) => OnRespond(s, id, password)
    case SendInput(id, data) => OnSendInput(s, id, data, forbidden, env)
    case Kill(id, reason) => OnKill(s, id, reason)
    case Receive(from, id, f) => OnFrame(s, from, id, f, forbidden, env)
    case Output(pid, data) => OnOutput(s, pid, data, env)
    case Exit(pid) => OnExit(s, pid)
    case Expire(w) => Quiet(s.(waits := s.waits[w := Queued]))
    case Fire(w) => OnTimer(s, w)
  }

  // Sessions and processes, whatever ids are used

  /** A process implies the receiver's role, a cleared password and a timer; without one the password is pending. */
  predicate SessionOk(sd: Session) {
    && (sd.role == Initiator ==> sd.otp == [] && sd.process.None?)
    && (sd.role == Receiver ==> (sd.process.Some? <==> sd.otp == []))
    && sd.timer == sd.process
    && (sd.generation == 0 <==> sd.process.None?)
  }

  /** At most one session; the processes alive are exactly those the sessions own. */
  ghost predicate EntriesOk(s: Shell) {
    && |s.sessions| <= MAX_SESSIONS
    && (forall id :: id in s.sessions ==> SessionOk(s.sessions[id]))
    && (forall id :: id in s.sessions && s.sessions[id].process.Some? ==>
          s.sessions[id].process.value in s.running && s.running[s.sessions[id].process.value] == id)
    && (forall p :: p in s.running ==>
          p < |s.spawned| && s.running[p] in s.sessions && s.sessions[s.running[p]].process == Some(p))
  }

  lemma FewerKeys(m: map<string, Session>, id: string)
    ensures |m - {id}| <= |m|
  {
    assert m.Keys == (m - {id}).Keys + (m.Keys * {id});
  }

  lemma SameKeys(m: map<string, Session>, id: string, sd: Session)
    requires id in m
    ensures |m[id := sd]| == |m|
  {
    assert m[id := sd].Keys == m.Keys;
  }

  lemma NoneOpen(s: Shell)
    requires |s.sessions| < MAX_SESSIONS
    ensures s.sessions == map[]
  {}

  /** With at most one session, no other session exists and no other process runs. */
  lemma OnlySession(s: Shell, id: string)
    requires EntriesOk(s) && id in s.sessions
    ensures forall other :: other in s.sessions ==> other == id
    ensures forall p :: p in s.running ==> s.sessions[id].process == Some(p)
  {
    forall other | other in s.sessions
      ensures other == id
    {
      if other != id {
        assert {id, other} <= s.sessions.Keys;
        Cardinality({id, other}, s.sessions.Keys);
      }
    }
  }

  lemma {:induction false} Cardinality(a: set<string>, b: set<string>)
    requires a <= b
    ensures |a| <= |b|
  {
    assert b == a + (b - a);
  }

  lemma CleanupEntries(s: Shell, id: string)
    requires EntriesOk(s)
    ensures EntriesOk(Cleanup(s, id)) && id !in Cleanup(s, id).sessions
  {
    FewerKeys(s.sessions, id);
  }

  lemma TouchEntries(s: Shell, id: string)
    requires EntriesOk(s)
    ensures EntriesOk(Touch(s, id))
  {
    if id in s.sessions {
      SameKeys(s.sessions, id, s.sessions[id].(generation := s.sessions[id].generation + 1));
    }
  }

  lemma OpenEntries(s: Shell, id: string, sd: Session)
    requires EntriesOk(s) && s.sessions == map[] && SessionOk(sd) && sd.process.None?
    ensures EntriesOk(Open(s, id, sd))
  {
    assert Open(s, id, sd).sessions == map[id := sd];
  }

  /** A session whose password is pending. */
  predicate Pending(s: Shell, id: string) {
    id in s.sessions && s.sessions[id].role == Receiver && s.sessions[id].process.None? && SessionOk(s.sessions[id])
  }

  lemma NothingToCancel(waits: map<Wait, WaitState>)
    ensures CancelWaits(waits, None) == waits
  {}

  /** What starting the process of a verified session leaves. */
  lemma StartedAs(s: Shell, id: string)
    requires Pending(s, id)
    ensures var n, sd, pid := Touch(StartProcess(Verified(s, id), id), id), s.sessions[id], |s.spawned|;
      && n.sessions == s.sessions[id := sd.(otp := [], process := Some(pid), timer := Some(pid), generation := 1)]
      && n.running == s.running[pid := id] && n.spawned == s.spawned + [Started(id, sd.peer, sd.serial)]
      && n.waits == CancelWaits(s.waits, Some(pid))[Wait(id, pid, 1) := Waiting]
      && n.exited == s.exited && n.openings == s.openings
  {
    NothingToCancel(s.waits);
    hide CancelWaits;
    assert s.running - {} == s.running;
    var sd := s.sessions[id];
    var started := sd.(otp := [], process := Some(|s.spawned|), timer := Some(|s.spawned|));
    assert s.sessions[id := sd.(otp := [])][id := started] == s.sessions[id := started];
  }

  lemma StartEntries(s: Shell, id: string)
    requires EntriesOk(s) && Pending(s, id)
    ensures EntriesOk(Touch(StartProcess(Verified(s, id), id), id))
  {
    StartedAs(s, id);
    hide Touch, StartProcess, Verified, CancelWaits;
    var n, sd, pid := Touch(StartProcess(Verified(s, id), id), id), s.sessions[id], |s.spawned|;
    SameKeys(s.sessions, id, sd.(otp := [], process := Some(pid), timer := Some(pid), generation := 1));
    OnlySession(s, id);
    assert s.running == map[];
    hide EntriesOk, Pending;
    assert n.running == map[pid := id];
    StartedEntries(n, id, pid);
  }

  lemma StartedEntries(n: Shell, id: string, pid: nat)
    requires |n.sessions| <= MAX_SESSIONS && n.sessions.Keys == {id} && n.running == map[pid := id] && pid < |n.spawned|
    requires SessionOk(n.sessions[id]) && n.sessions[id].process == Some(pid)
    ensures EntriesOk(n)
  {}

  lemma VerifiedCleanup(s: Shell, id: string)
    requires id in s.sessions
    ensures Cleanup(Verified(s, id), id) == Cleanup(s, id)
  {}

  // History: which session a process belongs to

  /** Every process belongs to one session, and every session starts at most one process. */
  ghost predicate HistoryOk(s: Shell) {
    && (forall id :: id in s.sessions ==> s.sessions[id].serial < s.openings)
    && (forall id :: id in s.sessions && s.sessions[id].process.Some? ==>
          var p := s.sessions[id].process.value;
          p < |s.spawned| && s.spawned[p] == Started(id, s.sessions[id].peer, s.sessions[id].serial))
    && (forall id, i :: id in s.sessions && s.sessions[id].process.None? && 0 <= i < |s.spawned| ==>
          s.spawned[i].serial != s.sessions[id].serial)
    && (forall i :: 0 <= i < |s.spawned| ==> s.spawned[i].serial < s.openings)
    && (forall i, j :: 0 <= i < j < |s.spawned| ==> s.spawned[i].serial != s.spawned[j].serial)
  }

  lemma CleanupHistory(s: Shell, id: string)
    requires HistoryOk(s)
    ensures HistoryOk(Cleanup(s, id))
  {}

  lemma TouchHistory(s: Shell, id: string)
    requires HistoryOk(s)
    ensures HistoryOk(Touch(s, id))
  {}

  lemma OpenHistory(s: Shell, id: string, sd: Session)
    requires HistoryOk(s) && sd.process.None? && sd.serial == s.openings
    ensures HistoryOk(Open(s, id, sd))
  {}

  lemma StartHistory(s: Shell, id: string)
    requires EntriesOk(s) && HistoryOk(s) && Pending(s, id)
    ensures HistoryOk(Touch(StartProcess(Verified(s, id), id), id))
  {
    OnlySession(s, id);
    StartedAs(s, id);
    hide Touch, StartProcess, Verified, CancelWaits, EntriesOk;
  }

  // Waits: one live timer for a running session

  ghost predicate WaitOk(s: Shell, w: Wait) {
    && w.generation >= 1 && w.timer < |s.spawned| && s.spawned[w.timer].session == w.session
    && (w.session in s.sessions && s.sessions[w.session].timer == Some(w.timer)
        ==> w.generation <= s.sessions[w.session].generation)
    && (w in s.waits && s.waits[w] == Waiting ==> Current(s, w))
  }

  /** The wait of a session's own timer for its present generation. */
  predicate Current(s: Shell, w: Wait) {
    w.session in s.sessions && s.sessions[w.session].timer == Some(w.timer)
      && s.sessions[w.session].generation == w.generation
  }

  /** Every wait that still waits is current, and every running session has its current wait, waiting or queued. */
  ghost predicate WaitsOk(s: Shell) {
    && EachWaitOk(s)
    && (forall id :: id in s.sessions && s.sessions[id].timer.Some? ==>
          var w := Wait(id, s.sessions[id].timer.value, s.sessions[id].generation);
          w in s.waits && s.waits[w] != Cancelled)
  }

  ghost predicate EachWaitOk(s: Shell) {
    forall w :: w in s.waits ==> WaitOk(s, w)
  }

  lemma LastCleanup(s: Shell, id: string)
    requires EntriesOk(s) && EachWaitOk(s) && id in s.sessions
    ensures WaitsOk(Cleanup(s, id))
  {
    OnlySession(s, id);
    hide EntriesOk;
    var n := Cleanup(s, id);
    forall w | w in n.waits
      ensures WaitOk(n, w)
    {
      assert w in s.waits && WaitOk(s, w);
    }
  }

  lemma CleanupWaits(s: Shell, id: string)
    requires EntriesOk(s) && WaitsOk(s)
    ensures WaitsOk(Cleanup(s, id))
  {
    if id in s.sessions {
      hide EntriesOk, EachWaitOk;
      LastCleanup(s, id);
    }
  }

  lemma TouchWaits(s: Shell, id: string)
    requires EntriesOk(s) && WaitsOk(s) && HistoryOk(s)
    ensures WaitsOk(Touch(s, id))
  {
    if id in s.sessions && s.sessions[id].timer.Some? {
      assert SessionOk(s.sessions[id]);
      OnlySession(s, id);
      var n, armed := Touch(s, id), Wait(id, s.sessions[id].timer.value, s.sessions[id].generation + 1);
      assert s.spawned[armed.timer].session == id;
      hide EntriesOk, HistoryOk;
      forall w | w in n.waits
        ensures WaitOk(n, w)
      {
        assert w != armed ==> w in s.waits && WaitOk(s, w);
      }
    }
  }

  lemma OpenWaits(s: Shell, id: string, sd: Session)
    requires WaitsOk(s) && s.sessions == map[] && sd.timer.None?
    ensures WaitsOk(Open(s, id, sd))
  {
    var n := Open(s, id, sd);
    forall w | w in n.waits
      ensures WaitOk(n, w)
    {
      assert WaitOk(s, w);
    }
  }

  lemma StartWaits(s: Shell, id: string)
    requires EntriesOk(s) && WaitsOk(s) && Pending(s, id)
    ensures WaitsOk(Touch(StartProcess(Verified(s, id), id), id))
  {
    hide Touch, StartProcess, EntriesOk, WaitOk, CancelWaits;
    OnlySession(s, id);
    StartedAs(s, id);
    var n, own := Touch(StartProcess(Verified(s, id), id), id), Wait(id, |s.spawned|, 1);
    forall w | w in n.waits
      ensures WaitOk(n, w)
    {
      if w == own {
        OwnWait(n, w);
      } else {
        CancelKeeps(s.waits, Some(|s.spawned|), own, w);
        OldWait(s, n, id, w);
      }
    }
  }

  lemma CancelKeeps(waits: map<Wait, WaitState>, timer: Option<nat>, own: Wait, w: Wait)
    requires w != own && w in CancelWaits(waits, timer)[own := Waiting]
    ensures w in waits && (CancelWaits(waits, timer)[own := Waiting][w] == Waiting ==> waits[w] == Waiting)
  {}

  /** The first wait of a started session. */
  lemma OwnWait(n: Shell, w: Wait)
    requires Current(n, w) && w.generation == 1 && w.timer < |n.spawned| && n.spawned[w.timer].session == w.session
    ensures WaitOk(n, w)
  {}

  /** A wait that was there before the session was started. */
  lemma OldWait(s: Shell, n: Shell, id: string, w: Wait)
    requires Pending(s, id) && (forall other :: other in s.sessions ==> other == id) && WaitOk(s, w)
    requires n.sessions.Keys == {id} && n.sessions[id].timer == Some(|s.spawned|)
    requires |n.spawned| == |s.spawned| + 1 && n.spawned[..|s.spawned|] == s.spawned
    requires w in s.waits && w in n.waits && (n.waits[w] == Waiting ==> s.waits[w] == Waiting)
    ensures WaitOk(n, w)
  {
    assert w.timer < |s.spawned| ==> n.spawned[w.timer] == n.spawned[..|s.spawned|][w.timer];
  }

  lemma ExpireWaits(s: Shell, w: Wait)
    requires WaitsOk(s) && w in s.waits && s.waits[w] == Waiting
    ensures WaitsOk(s.(waits := s.waits[w := Queued]))
  {
    var n := s.(waits := s.waits[w := Queued]);
    forall v | v in n.waits
      ensures WaitOk(n, v)
    {
      assert WaitOk(s, v);
    }
  }

  lemma TimerWaits(s: Shell, w: Wait)
    requires EntriesOk(s) && WaitsOk(s) && w in s.waits && s.waits[w] != Waiting
    ensures WaitsOk(OnTimer(s, w).shell)
  {
    hide EntriesOk, EachWaitOk, WaitsOk, Cleanup;
    var ran := s.(waits := s.waits - {w});
    RanWaits(s, w);
    if StillDue(s, w) {
      LastCleanup(ran, w.session);
    }
  }

  /** The handler of a wait that does not wait any more takes it away. */
  lemma RanWaits(s: Shell, w: Wait)
    requires EntriesOk(s) && WaitsOk(s) && w in s.waits && s.waits[w] != Waiting
    ensures EntriesOk(s.(waits := s.waits - {w}))
    ensures EachWaitOk(s.(waits := s.waits - {w}))
    ensures !StillDue(s, w) ==> WaitsOk(s.(waits := s.waits - {w}))
  {
    var n := s.(waits := s.waits - {w});
    forall v | v in n.waits
      ensures WaitOk(n, v)
    {
      assert v in s.waits && WaitOk(s, v);
    }
  }

  // All of it together

  ghost predicate ShellInv(s: Shell) {
    EntriesOk(s) && HistoryOk(s) && WaitsOk(s)
  }

  lemma CleanupInv(s: Shell, id: string)
    requires ShellInv(s)
    ensures ShellInv(Cleanup(s, id))
  {
    hide EntriesOk, HistoryOk, WaitsOk, Cleanup;
    CleanupEntries(s, id);
    CleanupHistory(s, id);
    CleanupWaits(s, id);
  }

  lemma TouchInv(s: Shell, id: string)
    requires ShellInv(s)
    ensures ShellInv(Touch(s, id))
  {
    hide EntriesOk, HistoryOk, WaitsOk, Touch;
    TouchEntries(s, id);
    TouchHistory(s, id);
    TouchWaits(s, id);
  }

  lemma OpenInv(s: Shell, id: string, sd: Session)
    requires ShellInv(s) && |s.sessions| < MAX_SESSIONS
    requires SessionOk(sd) && sd.process.None? && sd.serial == s.openings
    ensures ShellInv(Open(s, id, sd))
  {
    hide EntriesOk, HistoryOk, WaitsOk, Open;
    NoneOpen(s);
    OpenEntries(s, id, sd);
    OpenHistory(s, id, sd);
    OpenWaits(s, id, sd);
  }

  lemma StartInv(s: Shell, id: string)
    requires ShellInv(s) && Pending(s, id)
    ensures ShellInv(Touch(StartProcess(Verified(s, id), id), id))
  {
    hide EntriesOk, HistoryOk, WaitsOk, Touch, StartProcess, Verified;
    StartEntries(s, id);
    StartHistory(s, id);
    StartWaits(s, id);
  }

  lemma PendingWhenMatched(s: Shell, id: string, entered: seq<Byte>)
    requires ShellInv(s) && id in s.sessions && s.sessions[id].role == Receiver && Matches(entered, s.sessions[id].otp)
    ensures Pending(s, id)
  {
    assert SessionOk(s.sessions[id]);
  }

  lemma ResponseInv(s: Shell, from: string, id: string, entered: seq<Byte>, env: Env)
    requires ShellInv(s)
    ensures ShellInv(OnResponse(s, from, id, entered, env).shell)
  {
    hide ShellInv, Cleanup, Touch, StartProcess;
    CleanupInv(s, id);
    if id in s.sessions && s.sessions[id].role == Receiver && Matches(entered, s.sessions[id].otp) {
      PendingWhenMatched(s, id, entered);
      StartInv(s, id);
      VerifiedCleanup(s, id);
      assert id in Verified(s, id).sessions;
    }
  }

  lemma FrameInv(s: Shell, from: string, id: string, f: Frame, forbidden: seq<Byte> -> bool, env: Env)
    requires ShellInv(s) && |env.otp| == OTP_LENGTH
    ensures ShellInv(OnFrame(s, from, id, f, forbidden, env).shell)
  {
    hide ShellInv, Cleanup, Touch, OnResponse, Open;
    CleanupInv(s, id);
    TouchInv(s, id);
    if f.ChallengeResponse? {
      ResponseInv(s, from, id, f.password, env);
    }
    if f.ShellRequest? && |s.sessions| < MAX_SESSIONS {
      OpenInv(s, id, NewSession(s, Receiver, from, env.otp));
    }
  }

  lemma WaitsApart(s: Shell, waits: map<Wait, WaitState>, exited: set<nat>)
    requires EntriesOk(s) && HistoryOk(s)
    ensures EntriesOk(s.(waits := waits, exited := exited)) && HistoryOk(s.(waits := waits, exited := exited))
  {}

  lemma TimerInv(s: Shell, w: Wait)
    requires ShellInv(s) && w in s.waits && s.waits[w] != Waiting
    ensures ShellInv(OnTimer(s, w).shell)
  {
    hide EntriesOk, HistoryOk, WaitsOk, Cleanup;
    var ran := s.(waits := s.waits - {w});
    TimerWaits(s, w);
    WaitsApart(s, s.waits - {w}, s.exited);
    CleanupEntries(ran, w.session);
    CleanupHistory(ran, w.session);
  }

  lemma ExitWaits(s: Shell, exited: set<nat>)
    requires WaitsOk(s)
    ensures WaitsOk(s.(exited := exited))
  {
    var n := s.(exited := exited);
    forall w | w in n.waits
      ensures WaitOk(n, w)
    {
      assert WaitOk(s, w);
    }
  }

  lemma ExitInv(s: Shell, pid: nat)
    requires ShellInv(s) && pid < |s.spawned|
    ensures ShellInv(OnExit(s, pid).shell)
  {
    hide EntriesOk, HistoryOk, WaitsOk, Cleanup;
    var ran := s.(exited := s.exited + {pid});
    WaitsApart(s, s.waits, s.exited + {pid});
    ExitWaits(s, s.exited + {pid});
    CleanupInv(ran, s.spawned[pid].session);
  }

  lemma ExpireInv(s: Shell, w: Wait)
    requires ShellInv(s) && w in s.waits && s.waits[w] == Waiting
    ensures ShellInv(s.(waits := s.waits[w := Queued]))
  {
    hide EntriesOk, HistoryOk, WaitsOk;
    ExpireWaits(s, w);
    WaitsApart(s, s.waits[w := Queued], s.exited);
  }

  /** Every handler keeps the invariant, also when peers reuse session ids. */
  lemma StepKeepsInv(s: Shell, e: Event, forbidden: seq<Byte> -> bool, env: Env)
    requires ShellInv(s) && Possible(s, e, env)
    ensures ShellInv(Step(s, e, forbidden, env).shell)
  {
    hide ShellInv, Cleanup, Touch, Open, OnFrame, OnTimer, OnExit;
    match e
    case RequestShell(peer, id) =>
      if |s.sessions| < MAX_SESSIONS {
        OpenInv(s, id, NewSession(s, Initiator, peer, []));
      }
    case RejectRequest(id, _) => CleanupInv(s, id);
    case Respond(_, _) =>
    case SendInput(id, _) =>
      CleanupInv(s, id);
      TouchInv(s, id);
    case Kill(id, _) => CleanupInv(s, id);
    case Receive(from, id, f) => FrameInv(s, from, id, f, forbidden, env);
    case Output(pid, _) => TouchInv(s, s.spawned[pid].session);
    case Exit(pid) => ExitInv(s, pid);
    case Expire(w) => ExpireInv(s, w);
    case Fire(w) => TimerInv(s, w);
  }

  /** A process starts exactly when a receiver hears its session's pending one-time password. */
  lemma SpawnsIffPasswordMatches(s: Shell, e: Event, forbidden: seq<Byte> -> bool, env: Env)
    requires ShellInv(s) && Possible(s, e, env)
    ensures var r := Step(s, e, forbidden, env);
      && (r.shell.spawned != s.spawned <==>
            && e.Receive? && e.frame.ChallengeResponse?
            && e.session in s.sessions && s.sessions[e.session].role == Receiver
            && s.sessions[e.session].process.None? && e.frame.password == s.sessions[e.session].otp && env.spawnOk)
      && (r.shell.spawned != s.spawned ==>
            && var was := s.sessions[e.session];
               && r.shell.spawned == s.spawned + [Started(e.session, was.peer, was.serial)]
               && e.session in r.shell.sessions
               && r.shell.sessions[e.session].otp == [] && r.shell.sessions[e.session].process.Some?)
  {
    hide HistoryOk, WaitsOk;
    if e.Receive? && e.frame.ChallengeResponse? {
      if e.session in s.sessions {
        assert SessionOk(s.sessions[e.session]);
      }
      hide EntriesOk, CancelWaits;
    } else {
      hide EntriesOk;
      OthersStartNothing(s, e, forbidden, env);
    }
  }

  lemma OthersStartNothing(s: Shell, e: Event, forbidden: seq<Byte> -> bool, env: Env)
    requires Possible(s, e, env) && !(e.Receive? && e.frame.ChallengeResponse?)
    ensures Step(s, e, forbidden, env).shell.spawned == s.spawned
  {
    hide CancelWaits, StillDue, WithNewline;
  }

  /** Any other response to a receiver's session destroys it, with its process: one guess each. */
  lemma WrongGuessDestroys(s: Shell, from: string, id: string, password: seq<Byte>, forbidden: seq<Byte> -> bool,
                           env: Env)
    requires ShellInv(s) && id in s.sessions && s.sessions[id].role == Receiver && |env.otp| == OTP_LENGTH
    requires s.sessions[id].process.Some? || password != s.sessions[id].otp
    ensures var r := Step(s, Receive(from, id, ChallengeResponse(password)), forbidden, env);
      && id !in r.shell.sessions && r.shell.running == map[]
      && r.sent == [Outbound(from, id, ShellReject("wrong_password"))]
  {
    assert SessionOk(s.sessions[id]);
    OnlySession(s, id);
    hide CancelWaits, HistoryOk, WaitsOk, EntriesOk;
    assert s.running - Pids(s.sessions[id].process) == map[];
  }

  /** Only screened commands, ended by a newline, reach a process, and only one whose password was verified. */
  lemma WritesAreScreened(s: Shell, e: Event, forbidden: seq<Byte> -> bool, env: Env, w: Write)
    requires ShellInv(s) && Possible(s, e, env) && w in Step(s, e, forbidden, env).writes
    ensures e.Receive? && e.frame.ShellInput? && !forbidden(e.frame.input)
    ensures w.pid in s.running && s.running[w.pid] == e.session && s.sessions[e.session].otp == []
    ensures w.data != [] && w.data[|w.data| - 1] == NEWLINE
        && (w.data == e.frame.input || w.data == e.frame.input + [NEWLINE])
  {
    hide CancelWaits, HistoryOk, WaitsOk;
    assert e.session in s.sessions && SessionOk(s.sessions[e.session]);
  }

  predicate PossibleRun(s: Shell, es: seq<(Event, Env)>, forbidden: seq<Byte> -> bool)
    decreases |es|
  {
    es == []
    || (Possible(s, es[0].0, es[0].1) && PossibleRun(Step(s, es[0].0, forbidden, es[0].1).shell, es[1..], forbidden))
  }

  function Run(s: Shell, es: seq<(Event, Env)>, forbidden: seq<Byte> -> bool): Shell
    requires PossibleRun(s, es, forbidden)
    decreases |es|
  {
    if es == [] then s else Run(Step(s, es[0].0, forbidden, es[0].1).shell, es[1..], forbidden)
  }

  lemma {:induction false} RunKeepsInv(s: Shell, es: seq<(Event, Env)>, forbidden: seq<Byte> -> bool)
    requires ShellInv(s) && PossibleRun(s, es, forbidden)
    ensures ShellInv(Run(s, es, forbidden))
    decreases |es|
  {
    hide ShellInv, Step, Possible;
    if es != [] {
      StepKeepsInv(s, es[0].0, forbidden, es[0].1);
      RunKeepsInv(Step(s, es[0].0, forbidden, es[0].1).shell, es[1..], forbidden);
    }
  }

  /** The rules of sessions, processes and timers, over every run, whatever ids are used. */
  lemma {:induction false} ReachableInv(es: seq<(Event, Env)>, forbidden: seq<Byte> -> bool)
    requires PossibleRun(INITIAL, es, forbidden)
    ensures ShellInv(Run(INITIAL, es, forbidden))
  {
    RunKeepsInv(INITIAL, es, forbidden);
  }

  /**
   * A running session has exactly one wait of its own that was not cancelled and will find its generation; no other
   * waits.
   */
  lemma OneLiveTimer(s: Shell, id: string)
    requires ShellInv(s) && id in s.sessions && s.sessions[id].process.Some?
    ensures var own := Wait(id, s.sessions[id].timer.value, s.sessions[id].generation);
      && own in s.waits && s.waits[own] != Cancelled
      && (forall w ::
            w in s.waits && s.sessions[id].timer == Some(w.timer) && w.generation == own.generation ==> w == own)
      && (forall w :: w in s.waits && s.waits[w] == Waiting ==> w == own)
  {
    assert SessionOk(s.sessions[id]);
    OnlySession(s, id);
    forall w | w in s.waits
      ensures s.sessions[id].timer == Some(w.timer) ==> w.session == id
      ensures s.waits[w] == Waiting ==> Current(s, w)
    {
      assert WaitOk(s, w);
    }
  }

  /** Each session, told apart by its serial number, starts at most one process. */
  lemma OneProcessPerSession(s: Shell, i: nat, j: nat)
    requires ShellInv(s) && i < |s.spawned| && j < |s.spawned| && s.spawned[i].serial == s.spawned[j].serial
    ensures i == j
  {}

  /**
   * The handler of a session's own timer ends it exactly when nothing touched it since; the process dies and the peer
   * is told.
   */
  lemma OwnTimerEndsIff(s: Shell, w: Wait, forbidden: seq<Byte> -> bool, env: Env)
    requires ShellInv(s) && Possible(s, Fire(w), env)
    requires w.session in s.sessions && s.sessions[w.session].timer == Some(w.timer)
    ensures var r, sd := Step(s, Fire(w), forbidden, env), s.sessions[w.session];
      && (w.session !in r.shell.sessions <==> w.generation == sd.generation)
      && (w.session !in r.shell.sessions ==>
            && r.shell.sessions == map[] && r.shell.running == map[]
            && r.sent == [Outbound(sd.peer, w.session, ShellKill("timeout"))])
  {
    assert SessionOk(s.sessions[w.session]) && WaitOk(s, w);
    OneLiveTimer(s, w.session);
    OnlySession(s, w.session);
    hide CancelWaits, HistoryOk, WaitsOk, EntriesOk;
    assert s.running - Pids(s.sessions[w.session].process) == map[];
  }

  // Handlers left behind by an earlier session of the same id

  /** A wait on the timer of a session that is over, while its id names another session. */
  predicate StaleWait(s: Shell, w: Wait) {
    w in s.waits && w.session in s.sessions && s.sessions[w.session].timer != Some(w.timer)
  }

  /**
   * Such a wait no longer waits. Its handler ends the other session exactly when it had been queued before the
   * earlier session's timer was cancelled and the other session runs at the same generation.
   */
  lemma StaleTimerEndsIff(s: Shell, w: Wait, forbidden: seq<Byte> -> bool, env: Env)
    requires ShellInv(s) && StaleWait(s, w) && |env.otp| == OTP_LENGTH
    ensures s.waits[w] != Waiting
    ensures var r, sd := Step(s, Fire(w), forbidden, env), s.sessions[w.session];
      && (w.session !in r.shell.sessions <==> s.waits[w] == Queued && sd.process.Some? && sd.generation == w.generation)
      && (w.session !in r.shell.sessions ==> r.shell.running == map[])
  {
    assert SessionOk(s.sessions[w.session]) && WaitOk(s, w);
    OnlySession(s, w.session);
    hide CancelWaits, HistoryOk, WaitsOk, EntriesOk;
    assert s.running - Pids(s.sessions[w.session].process) == map[];
  }

  /** A process that is not the one its id's present session owns. */
  predicate StaleProcess(s: Shell, pid: nat) {
    pid < |s.spawned| && s.spawned[pid].session in s.sessions && s.sessions[s.spawned[pid].session].process != Some(pid)
  }

  /**
   * The exit callback of a process ends whatever session its id names: its own or, exactly when the process is
   * stale, another one, waiting for its password or running.
   */
  lemma ExitHits(s: Shell, pid: nat, forbidden: seq<Byte> -> bool, env: Env)
    requires ShellInv(s) && Possible(s, Exit(pid), env)
    ensures var r, id := Step(s, Exit(pid), forbidden, env), s.spawned[pid].session;
      && pid !in r.shell.running && id !in r.shell.sessions
      && (id in s.sessions ==>
            && r.shell.running == map[]
            && r.sent == [Outbound(s.spawned[pid].peer, id, ShellKill("process_exited"))])
      && (id in s.sessions && s.sessions[id].serial != s.spawned[pid].serial <==> StaleProcess(s, pid))
  {
    var id := s.spawned[pid].session;
    if id in s.sessions {
      OnlySession(s, id);
      assert s.running - Pids(s.sessions[id].process) == map[];
    }
    hide CancelWaits, WaitsOk;
  }

  /** Output is sent under the id and keeps the session of that id alive, though it may come from a stale process. */
  lemma OutputHits(s: Shell, pid: nat, data: seq<Byte>, forbidden: seq<Byte> -> bool, env: Env)
    requires ShellInv(s) && Possible(s, Output(pid, data), env)
    ensures var r, id := Step(s, Output(pid, data), forbidden, env), s.spawned[pid].session;
      && (id !in s.sessions ==> r == Quiet(s))
      && (id in s.sessions ==>
            && r.sent == (if env.encrypted then [Outbound(s.spawned[pid].peer, id, ShellData(data))] else [])
            && id in r.shell.sessions
            && r.shell.sessions[id].generation
               == s.sessions[id].generation + if s.sessions[id].process.Some? then 1 else 0)
      && (id in s.sessions && s.sessions[id].serial != s.spawned[pid].serial <==> StaleProcess(s, pid))
  {
    var id := s.spawned[pid].session;
    assert id in s.sessions ==> SessionOk(s.sessions[id]);
    hide CancelWaits, WaitsOk;
  }

  /** Nothing an earlier session left behind can reach a session that exists. */
  ghost predicate Home(s: Shell) {
    && (forall pid :: 0 <= pid < |s.spawned| && pid !in s.exited ==> !StaleProcess(s, pid))
    && (forall w :: w in s.waits && s.waits[w] != Cancelled ==> !StaleWait(s, w))
  }

  /** Something an earlier session of this id left behind can still run. */
  ghost predicate LeftBehind(s: Shell, id: string) {
    || (exists pid :: 0 <= pid < |s.spawned| && pid !in s.exited && s.spawned[pid].session == id)
    || (exists w :: w in s.waits && s.waits[w] != Cancelled && w.session == id)
  }

  /** The id under which an event opens a session. */
  function Opens(s: Shell, e: Event): Option<string> {
    if |s.sessions| >= MAX_SESSIONS then None
    else if e.RequestShell? || (e.Receive? && e.frame.ShellRequest?) then Some(e.session) else None
  }

  lemma OpenHomeIff(s: Shell, id: string, sd: Session)
    requires ShellInv(s) && |s.sessions| < MAX_SESSIONS && sd.process.None? && sd.timer.None?
    ensures Home(Open(s, id, sd)) <==> !LeftBehind(s, id)
  {
    NoneOpen(s);
    hide EntriesOk, HistoryOk, WaitsOk;
    var n := Open(s, id, sd);
    forall pid | 0 <= pid < |s.spawned|
      ensures StaleProcess(n, pid) <==> s.spawned[pid].session == id
    {}
    forall w | w in s.waits
      ensures StaleWait(n, w) <==> w.session == id
    {}
  }

  lemma CleanupHome(s: Shell, id: string)
    requires Home(s)
    ensures Home(Cleanup(s, id))
  {
    var n := Cleanup(s, id);
    forall pid | 0 <= pid < |n.spawned|
      ensures StaleProcess(n, pid) ==> StaleProcess(s, pid)
    {}
    forall w | w in n.waits
      ensures n.waits[w] != Cancelled && StaleWait(n, w) ==> StaleWait(s, w) && s.waits[w] != Cancelled
    {}
  }

  lemma TouchHome(s: Shell, id: string)
    requires Home(s)
    ensures Home(Touch(s, id))
  {
    var n := Touch(s, id);
    forall pid | 0 <= pid < |n.spawned|
      ensures StaleProcess(n, pid) ==> StaleProcess(s, pid)
    {}
    forall w | w in n.waits
      ensures n.waits[w] != Cancelled && StaleWait(n, w) ==> StaleWait(s, w) && s.waits[w] != Cancelled
    {}
  }

  lemma StartHome(s: Shell, id: string)
    requires Home(s) && Pending(s, id)
    ensures Home(Touch(StartProcess(Verified(s, id), id), id))
  {
    StartedAs(s, id);
    hide Touch, StartProcess, Verified;
    var n := Touch(StartProcess(Verified(s, id), id), id);
    forall pid | 0 <= pid < |n.spawned|
      ensures StaleProcess(n, pid) ==> StaleProcess(s, pid)
    {}
    forall w | w in n.waits
      ensures n.waits[w] != Cancelled && StaleWait(n, w) ==> StaleWait(s, w) && s.waits[w] != Cancelled
    {}
  }

  lemma ResponseHome(s: Shell, from: string, id: string, entered: seq<Byte>, env: Env)
    requires ShellInv(s) && Home(s)
    ensures Home(OnResponse(s, from, id, entered, env).shell)
  {
    hide ShellInv, Home, Cleanup, Touch, StartProcess;
    CleanupHome(s, id);
    if id in s.sessions && s.sessions[id].role == Receiver && Matches(entered, s.sessions[id].otp) {
      PendingWhenMatched(s, id, entered);
      StartHome(s, id);
      VerifiedCleanup(s, id);
      assert id in Verified(s, id).sessions;
    }
  }

  lemma WaitsHome(s: Shell, waits: map<Wait, WaitState>, exited: set<nat>)
    requires Home(s) && s.exited <= exited
    requires forall w :: w in waits ==> w in s.waits && (waits[w] != Cancelled ==> s.waits[w] != Cancelled)
    ensures Home(s.(waits := waits, exited := exited))
  {
    var n := s.(waits := waits, exited := exited);
    forall pid | 0 <= pid < |n.spawned|
      ensures StaleProcess(n, pid) <==> StaleProcess(s, pid)
    {}
    forall w | w in n.waits
      ensures StaleWait(n, w) ==> StaleWait(s, w)
    {}
  }

  lemma ExitHome(s: Shell, pid: nat)
    requires Home(s) && pid < |s.spawned|
    ensures Home(OnExit(s, pid).shell)
  {
    hide Home, Cleanup;
    WaitsHome(s, s.waits, s.exited + {pid});
    CleanupHome(s.(exited := s.exited + {pid}), s.spawned[pid].session);
  }

  lemma TimerHome(s: Shell, w: Wait)
    requires Home(s) && w in s.waits
    ensures Home(OnTimer(s, w).shell)
  {
    hide Home, Cleanup;
    WaitsHome(s, s.waits - {w}, s.exited);
    CleanupHome(s.(waits := s.waits - {w}), w.session);
  }

  lemma FrameHomeIff(s: Shell, from: string, id: string, f: Frame, forbidden: seq<Byte> -> bool, env: Env)
    requires ShellInv(s) && Home(s)
    ensures Home(OnFrame(s, from, id, f, forbidden, env).shell)
       <==> (Opens(s, Receive(from, id, f)).Some? ==> !LeftBehind(s, id))
  {
    hide ShellInv, Home, LeftBehind, Cleanup, Touch, OnResponse, Open;
    CleanupHome(s, id);
    TouchHome(s, id);
    if f.ChallengeResponse? {
      ResponseHome(s, from, id, f.password, env);
    }
    if f.ShellRequest? && |s.sessions| < MAX_SESSIONS {
      OpenHomeIff(s, id, NewSession(s, Receiver, from, env.otp));
    }
  }

  /**
   * A step lets something left behind reach a session exactly when it opens a session under an id for which a
   * handler can still run.
   */
  lemma StepHomeIff(s: Shell, e: Event, forbidden: seq<Byte> -> bool, env: Env)
    requires ShellInv(s) && Home(s) && Possible(s, e, env)
    ensures Home(Step(s, e, forbidden, env).shell) <==> (Opens(s, e).Some? ==> !LeftBehind(s, Opens(s, e).value))
  {
    hide ShellInv, Home, LeftBehind, Cleanup, Touch, Open, OnFrame, OnExit, OnTimer;
    match e
    case RequestShell(peer, id) =>
      if |s.sessions| < MAX_SESSIONS {
        OpenHomeIff(s, id, NewSession(s, Initiator, peer, []));
      }
    case RejectRequest(id, _) => CleanupHome(s, id);
    case Respond(_, _) =>
    case SendInput(id, _) =>
      CleanupHome(s, id);
      TouchHome(s, id);
    case Kill(id, _) => CleanupHome(s, id);
    case Receive(from, id, f) => FrameHomeIff(s, from, id, f, forbidden, env);
    case Output(pid, _) => TouchHome(s, s.spawned[pid].session);
    case Exit(pid) => ExitHome(s, pid);
    case Expire(w) => WaitsHome(s, s.waits[w := Queued], s.exited);
    case Fire(w) => TimerHome(s, w);
  }

  /** Every session of the run is opened under an id for which nothing can still run. */
  ghost predicate FreshIds(s: Shell, es: seq<(Event, Env)>, forbidden: seq<Byte> -> bool)
    requires PossibleRun(s, es, forbidden)
    decreases |es|
  {
    es == []
    || (&& (Opens(s, es[0].0).Some? ==> !LeftBehind(s, Opens(s, es[0].0).value))
        && FreshIds(Step(s, es[0].0, forbidden, es[0].1).shell, es[1..], forbidden))
  }

  ghost predicate AlwaysHome(s: Shell, es: seq<(Event, Env)>, forbidden: seq<Byte> -> bool)
    requires PossibleRun(s, es, forbidden)
    decreases |es|
  {
    Home(s) && (es == [] || AlwaysHome(Step(s, es[0].0, forbidden, es[0].1).shell, es[1..], forbidden))
  }

  /**
   * Over every run: no handler of an earlier session can ever reach a later one exactly when ids are fresh in that
   * sense.
   */
  lemma {:induction false} AlwaysHomeIff(s: Shell, es: seq<(Event, Env)>, forbidden: seq<Byte> -> bool)
    requires ShellInv(s) && Home(s) && PossibleRun(s, es, forbidden)
    ensures AlwaysHome(s, es, forbidden) <==> FreshIds(s, es, forbidden)
    decreases |es|
  {
    if es != [] {
      var (e, env) := es[0];
      StepKeepsInv(s, e, forbidden, env);
      StepHomeIff(s, e, forbidden, env);
      hide ShellInv, Home, Step, Possible, LeftBehind, Opens;
      var next := Step(s, e, forbidden, env).shell;
      if Home(next) {
        AlwaysHomeIff(next, es[1..], forbidden);
      } else {
        assert !AlwaysHome(next, es[1..], forbidden);
      }
    }
  }

  // Two runs in which a reused id hurts

  /** A peer asks for a shell under the id "a" and answers with the right password. */
  function Opened(s: Shell, peer: string, forbidden: seq<Byte> -> bool, env: Env): Shell
    requires |env.otp| == OTP_LENGTH
  {
    var asked := Step(s, Receive(peer, "a", ShellRequest), forbidden, env).shell;
    Step(asked, Receive(peer, "a", ChallengeResponse(env.otp)), forbidden, env).shell
  }

  lemma OpenedRuns(s: Shell, peer: string, forbidden: seq<Byte> -> bool, env: Env)
    requires |env.otp| == OTP_LENGTH && env.spawnOk && s.sessions == map[] && s.running == map[]
    ensures var n, pid := Opened(s, peer, forbidden, env), |s.spawned|;
      && n.sessions == map["a" := Session(Receiver, peer, [], Some(pid), Some(pid), 1, s.openings)]
      && n.running == map[pid := "a"] && n.spawned == s.spawned + [Started("a", peer, s.openings)]
        && n.exited == s.exited
      && n.waits == CancelWaits(s.waits, Some(pid))[Wait("a", pid, 1) := Waiting]
  {
    hide CancelWaits;
    var asked := Step(s, Receive(peer, "a", ShellRequest), forbidden, env).shell;
    assert asked.sessions == map["a" := Session(Receiver, peer, env.otp, None, None, 0, s.openings)];
    StartedAs(asked, "a");
    hide StartProcess, Touch;
    assert Opened(s, peer, forbidden, env) == Touch(StartProcess(Verified(asked, "a"), "a"), "a");
  }

  /** The session is ended; what its timer left behind depends on whether its handler was queued. */
  lemma KilledIsEmpty(s: Shell, forbidden: seq<Byte> -> bool, env: Env)
    requires s.sessions.Keys == {"a"} && s.sessions["a"].process == s.sessions["a"].timer == Some(0)
        && s.running.Keys == {0}
    requires |env.otp| == OTP_LENGTH
    ensures var n := Step(s, Kill("a", "done"), forbidden, env).shell;
      n.sessions == map[] && n.running == map[] && n.waits == CancelWaits(s.waits, Some(0)) && n.spawned == s.spawned
        && n.exited == s.exited
  {
    hide CancelWaits;
  }

  /** The one session of a machine, running with process 1. */
  predicate Again(s: Shell) {
    && s.sessions.Keys == {"a"} && s.sessions["a"].process == Some(1) && s.running == map[1 := "a"]
    && s.sessions["a"].generation == 1
  }

  lemma QueuedEnds(s: Shell, w: Wait, forbidden: seq<Byte> -> bool, env: Env)
    requires Again(s) && w in s.waits && s.waits[w] == Queued && w.session == "a" && w.generation == 1
        && |env.otp| == OTP_LENGTH
    ensures Possible(s, Fire(w), env)
    ensures var n := Step(s, Fire(w), forbidden, env).shell; n.sessions == map[] && n.running == map[]
  {
    hide CancelWaits;
    assert s.sessions - {"a"} == map[] && s.running - {1} == map[];
  }

  lemma ExitEnds(s: Shell, forbidden: seq<Byte> -> bool, env: Env)
    requires Again(s) && |s.spawned| > 0 && s.spawned[0].session == "a" && 0 !in s.exited && |env.otp| == OTP_LENGTH
    ensures Possible(s, Exit(0), env)
    ensures var n := Step(s, Exit(0), forbidden, env).shell; n.sessions == map[] && n.running == map[]
  {
    hide CancelWaits;
    assert s.sessions - {"a"} == map[] && s.running - {1} == map[];
  }

  lemma ExpiredWait(s: Shell, w: Wait, forbidden: seq<Byte> -> bool, env: Env)
    requires w in s.waits && s.waits[w] == Waiting && |env.otp| == OTP_LENGTH
    ensures Possible(s, Expire(w), env)
    ensures Step(s, Expire(w), forbidden, env).shell == s.(waits := s.waits[w := Queued])
  {}

  /** Cancelling a timer does not recall a queued handler. */
  lemma StillQueued(waits: map<Wait, WaitState>, timer: Option<nat>, w: Wait)
    requires w in waits && waits[w] == Queued
    ensures w in CancelWaits(waits, timer) && CancelWaits(waits, timer)[w] == Queued
  {}

  /**
   * The timer of the first session runs out, its handler is queued, the session is ended and opened again: the handler
   * ends the new one.
   */
  lemma QueuedTimerEndsReopened(peer: string, forbidden: seq<Byte> -> bool, env: Env)
    requires |env.otp| == OTP_LENGTH && env.spawnOk
    ensures var first, stale := Opened(INITIAL, peer, forbidden, env), Wait("a", 0, 1);
      && Possible(first, Expire(stale), env)
      && var killed := Step(Step(first, Expire(stale), forbidden, env).shell, Kill("a", "done"), forbidden, env).shell;
         var again := Opened(killed, peer, forbidden, env);
         && again.running == map[1 := "a"] && Possible(again, Fire(stale), env)
         && Step(again, Fire(stale), forbidden, env).shell.sessions == map[]
         && Step(again, Fire(stale), forbidden, env).shell.running == map[]
  {
    hide Opened, Step, CancelWaits;
    var first, stale := Opened(INITIAL, peer, forbidden, env), Wait("a", 0, 1);
    OpenedRuns(INITIAL, peer, forbidden, env);
    ExpiredWait(first, stale, forbidden, env);
    var expired := Step(first, Expire(stale), forbidden, env).shell;
    KilledIsEmpty(expired, forbidden, env);
    var killed := Step(expired, Kill("a", "done"), forbidden, env).shell;
    OpenedRuns(killed, peer, forbidden, env);
    StillQueued(expired.waits, Some(0), stale);
    StillQueued(killed.waits, Some(1), stale);
    QueuedEnds(Opened(killed, peer, forbidden, env), stale, forbidden, env);
  }

  /** The reader thread of a killed process reports the exit later: the callback ends the session opened since. */
  lemma LateExitEndsReopened(peer: string, forbidden: seq<Byte> -> bool, env: Env)
    requires |env.otp| == OTP_LENGTH && env.spawnOk
    ensures var killed := Step(Opened(INITIAL, peer, forbidden, env), Kill("a", "done"), forbidden, env).shell;
      var again := Opened(killed, peer, forbidden, env);
      && again.running == map[1 := "a"] && Possible(again, Exit(0), env)
      && Step(again, Exit(0), forbidden, env).shell.sessions == map[]
      && Step(again, Exit(0), forbidden, env).shell.running == map[]
  {
    hide Opened, CancelWaits, Step;
    var first := Opened(INITIAL, peer, forbidden, env);
    OpenedRuns(INITIAL, peer, forbidden, env);
    KilledIsEmpty(first, forbidden, env);
    var killed := Step(first, Kill("a", "done"), forbidden, env).shell;
    OpenedRuns(killed, peer, forbidden, env);
    ExitEnds(Opened(killed, peer, forbidden, env), forbidden, env);
  }
}
