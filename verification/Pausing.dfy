/** A paused transfer stands still on both sides until it is woken (src/transfer/filetransfer.cpp). */
module Pausing {
  import opened Text
  import opened TransferModel
  import opened Sender
  import opened Receiver
  import FileNames

  // The sending side

  /** The events that can make a paused sender send again. */
  predicate WakesSender(e: Event) {
    e.SendFile? || (e.Receive? && (e.frame.FileAccept? || e.frame.FileResumeRequest?))
  }

  /** The events that end an outgoing transfer that does not send: a cancel, a reject, or an offer that fails. */
  predicate EndsSender(e: Event, env: Env) {
    || e.Cancel?
    || (e.HashDone? && (e.hash.None? || !env.session))
    || (e.Receive? && (e.frame.FileCancel? || e.frame.FileReject?))
  }

  predicate Streams(f: Frame) {
    f.FileChunk? || f.FileComplete?
  }

  ghost predicate SendsNothing(sent: seq<Outbound>) {
    forall i :: 0 <= i < |sent| ==> !Streams(sent[i].frame)
  }

  /** Counters, stream and everything else of an entry but its digest. */
  predicate SameStream(t: Outgoing, u: Outgoing) {
    u == t.(hash := u.hash)
  }

  predicate HeldSender(s: Slot) {
    s.out.Some? ==> s.out.value.state == Paused
  }

  /** While paused, a step sends no chunk and no completion, and leaves the entry as it is or ends it. */
  lemma HeldStep(s: Slot, e: Event, host: Host, env: Env)
    requires HeldSender(s) && !WakesSender(e)
    ensures var r := Step(s, e, host, env);
      && SendsNothing(r.sent) && r.posted == 0 && HeldSender(r.slot)
      && (r.slot.out.Some? <==> s.out.Some? && !EndsSender(e, env))
      && (r.slot.out.Some? ==> SameStream(s.out.value, r.slot.out.value))
  {
    if e.Receive? && e.frame.FileChunk? {
      ChunkSendsNothing(s, e.frame, env);
    }
  }

  lemma ChunkSendsNothing(s: Slot, f: Frame, env: Env)
    requires f.FileChunk?
    ensures var r := OnChunk(s, f, env);
      r.sent == [] && r.posted == 0 && r.slot.out == s.out && r.slot.id == s.id
  {}

  ghost predicate Unwoken(es: seq<(Event, Env)>) {
    forall i :: 0 <= i < |es| ==> !WakesSender(es[i].0)
  }

  /** Over every run without such an event, continuations included: nothing is sent, and what is left stands still. */
  lemma {:induction false} HeldRun(s: Slot, es: seq<(Event, Env)>, host: Host)
    requires HeldSender(s) && Unwoken(es)
    ensures var r := Run(s, es, host);
      && SendsNothing(r.sent) && r.posted == 0 && HeldSender(r.slot)
      && (r.slot.out.Some? ==> s.out.Some? && SameStream(s.out.value, r.slot.out.value))
      && (s.out.Some? && (forall i :: 0 <= i < |es| ==> !EndsSender(es[i].0, es[i].1)) ==> r.slot.out.Some?)
    decreases |es|
  {
    hide Step, EndsSender;
    if es != [] {
      HeldStep(s, es[0].0, host, es[0].1);
      var first := Step(s, es[0].0, host, es[0].1);
      HeldRun(first.slot, es[1..], host);
      assert forall i :: 0 <= i < |es[1..]| ==> es[1..][i] == es[i + 1];
    }
  }

  /** A pause, the user's or the peer's, changes the outgoing entry in its state alone. */
  lemma PauseHolds(s: Slot, from: string, host: Host, env: Env)
    ensures var mine, theirs := Step(s, Pause, host, env).slot, Step(s, Receive(from, FilePause), host, env).slot;
      && HeldSender(mine) && HeldSender(theirs)
      && mine.out == theirs.out
      && (s.out.None? ==> mine.out.None?)
      && (s.out.Some? ==> mine.out == Some(s.out.value.(state := Paused)))
      && theirs.inc == s.inc && theirs.saved == s.saved
  {}

  /** Hence no chunk and no completion leaves after a pause, whatever continuations were posted before it. */
  lemma {:induction false} PauseStopsTheStream(s: Slot, from: string, byPeer: bool, es: seq<(Event, Env)>, host: Host,
                                               env: Env)
    requires Unwoken(es)
    ensures var pause := if byPeer then Receive(from, FilePause) else Pause;
      var r := Run(s, [(pause, env)] + es, host);
      && SendsNothing(r.sent)
      && (r.slot.out.Some? ==> s.out.Some? && SameStream(s.out.value.(state := Paused), r.slot.out.value))
  {
    PauseHolds(s, from, host, env);
    var pause := if byPeer then Receive(from, FilePause) else Pause;
    var first := Step(s, pause, host, env);
    assert ([(pause, env)] + es)[1..] == es;
    assert SendsNothing(first.sent);
    hide Step;
    HeldRun(first.slot, es, host);
  }

  /** An entry that is neither paused nor cancelled goes on: the guard of a continuation is exact. */
  lemma ContinueSendsIff(s: Slot, host: Host, env: Env)
    ensures var r := Step(s, Continue, host, env);
      (exists i :: 0 <= i < |r.sent| && Streams(r.sent[i].frame)) <==>
        && s.out.Some? && s.out.value.state != Paused && s.out.value.state != Cancelled
        && var t := s.out.value;
           || t.file.None? || t.bytesSent >= t.fileSize
           || (t.file.value.Available() != [] && env.sealOk)
  {
    var r := Step(s, Continue, host, env);
    assert r.sent == [] || Streams(r.sent[0].frame);
  }

  /**
   * A pause tells the peer once, and what it saves is enough to go on when the entry is gone: same peer, file, size,
   * key and nonce.
   */
  lemma PauseSavesTheTransfer(s: Slot, last: int, host: Host, env: Env, later: Env)
    requires s.out.Some? && s.inc.None? && s.out.value.path in host.disk && later.loadOk
    ensures var r, was := Step(s, Pause, host, env), s.out.value;
      && r.slot.saved == Some(ResumeInfo(was.peer, was.name, was.path, was.fileSize, was.chunksSent, was.key, was.nonce,
                                         true))
      && r.sent == [Outbound(was.peer, s.id, FilePause)] && r.notices == []
    ensures var saved := Step(s, Pause, host, env).slot.saved;
      var t := Resumed(Slot(s.id, None, None, saved), last, host, later);
      && t.Some? && t.value.peer == s.out.value.peer && t.value.path == s.out.value.path
      && t.value.name == s.out.value.name && t.value.fileSize == s.out.value.fileSize
      && t.value.key == s.out.value.key && t.value.nonce == s.out.value.nonce
      && t.value.state == Active && t.value.chunksSent == NextChunk(last)
  {
    hide NextChunk, Position;
  }

  // The receiving side

  /** The events that can make a paused receiver take chunks again: a resume acknowledgement, or a new offer. */
  predicate WakesReceiver(e: Event) {
    e.Receive? && (e.frame.FileResumeAck? || (e.frame.FileOffer? && !Refused(e.frame)))
  }

  predicate EndsReceiver(e: Event) {
    e.Cancel? || e.RejectOffer? || (e.Receive? && e.frame.FileCancel?)
  }

  predicate HeldReceiver(s: Slot) {
    s.inc.Some? ==> s.inc.value.state == Paused
  }

  /** While paused, a step takes no chunk: it leaves the entry as it is or ends it, and reports no file. */
  lemma HeldReceiverStep(s: Slot, e: Event, host: Host, env: Env)
    requires HeldReceiver(s) && !WakesReceiver(e)
    ensures var r := Step(s, e, host, env);
      && r.slot.inc == (if EndsReceiver(e) then None else s.inc)
      && forall n :: n in r.notices ==> !n.FileReceived?
  {
    hide TakePlain;
    if SenderSide(e) {
      SenderSideApart(s, e, host, env);
    }
  }

  ghost predicate UnwokenReceiver(es: seq<(Event, Env)>) {
    forall i :: 0 <= i < |es| ==> !WakesReceiver(es[i].0)
  }

  /** Over every run without such an event, whatever chunks arrive, the entry is what it was until it is ended. */
  lemma {:induction false} HeldReceiverRun(s: Slot, es: seq<(Event, Env)>, host: Host)
    requires HeldReceiver(s) && UnwokenReceiver(es)
    ensures var r := Run(s, es, host);
      && r.slot.inc == (if exists i :: 0 <= i < |es| && EndsReceiver(es[i].0) then None else s.inc)
      && forall n :: n in r.notices ==> !n.FileReceived?
    decreases |es|
  {
    hide Step, EndsReceiver;
    if es != [] {
      HeldReceiverStep(s, es[0].0, host, es[0].1);
      var first := Step(s, es[0].0, host, es[0].1);
      HeldReceiverRun(first.slot, es[1..], host);
      EndsFirstOrLater(es);
    }
  }

  lemma EndsFirstOrLater(es: seq<(Event, Env)>)
    requires es != []
    ensures (exists i :: 0 <= i < |es| && EndsReceiver(es[i].0))
       <==> EndsReceiver(es[0].0) || exists i :: 0 <= i < |es[1..]| && EndsReceiver(es[1..][i].0)
  {
    hide EndsReceiver;
    if i :| 0 <= i < |es[1..]| && EndsReceiver(es[1..][i].0) {
      assert es[1..][i] == es[i + 1];
    }
    if i :| 0 < i < |es| && EndsReceiver(es[i].0) {
      assert es[1..][i - 1] == es[i];
    }
  }

  /** The user's pause holds the receiver, keeping what it has, and saves it; the peer is told once. */
  lemma PauseHoldsReceiver(s: Slot, host: Host, env: Env)
    requires s.inc.Some? && s.out.None?
    ensures var r, t := Step(s, Pause, host, env), s.inc.value;
      && HeldReceiver(r.slot) && r.slot.inc == Some(t.(state := Paused))
      && r.sent == [Outbound(t.peer, s.id, FilePause)] && r.notices == []
      && r.slot.saved == Some(ResumeInfo(t.peer, t.name, host.tempPath, t.fileSize, t.chunksReceived, t.key, t.nonce,
                                         false))
  {}

  // The saved state

  /** The record that a pause saves: the receiver's entry, or else the sender's. */
  function Record(s: Slot, host: Host): ResumeInfo
    requires s.inc.Some? || s.out.Some?
  {
    if s.inc.Some? then
      var t := s.inc.value;
      ResumeInfo(t.peer, t.name, host.tempPath, t.fileSize, t.chunksReceived, t.key, t.nonce, false)
    else
      var t := s.out.value;
      ResumeInfo(t.peer, t.name, t.path, t.fileSize, t.chunksSent, t.key, t.nonce, true)
  }

  ghost predicate Done(id: string, notices: seq<Notice>) {
    exists path, outgoing :: TransferCompleted(id, path, outgoing) in notices
  }

  /** It stands until the next pause, a cancel, or the completion of a transfer; nothing else touches it. */
  lemma SavedUntilDone(s: Slot, e: Event, host: Host, env: Env)
    ensures var r := Step(s, e, host, env);
      r.slot.saved == if e == Pause && (s.inc.Some? || s.out.Some?) then Some(Record(s, host))
                      else if e == Cancel || (e.Receive? && e.frame == FileCancel) || Done(s.id, r.notices) then None
                      else s.saved
  {
    hide SendNext, OnChunk, OnCancelled;
    match e
    case Continue => SendNextSaves(s, env);
    case Receive(from, FileAccept) => StreamingSaves(s, host, env);
    case Receive(from, FileResumeRequest(last)) => ResumeSaves(s, from, last, host, env);
    case Receive(from, FileChunk(seqNo, box, last)) => ChunkSaves(s, e.frame, env);
    case Cancel => CancelSaves(s, true);
    case Receive(from, FileCancel) => CancelSaves(s, false);
    case _ =>
  }

  lemma SendNextSaves(s: Slot, env: Env)
    ensures var r := SendNext(s, env); r.slot.saved == if Done(s.id, r.notices) then None else s.saved
  {}

  lemma StreamingSaves(s: Slot, host: Host, env: Env)
    ensures var r := StartStreaming(s, host, env); r.slot.saved == if Done(s.id, r.notices) then None else s.saved
  {
    hide SendNext;
    var file := if s.out.Some? then OpenFile(host, s.out.value.path) else None;
    if file.Some? {
      SendNextSaves(s.(out := Some(s.out.value.(file := file, state := Active))), env);
    }
  }

  lemma ResumeSaves(s: Slot, from: string, last: int, host: Host, env: Env)
    ensures var r := OnResumeRequest(s, from, last, host, env);
      r.slot.saved == if Done(s.id, r.notices) then None else s.saved
  {
    hide SendNext, Resumed;
    SendNextSaves(s.(out := Resumed(s, last, host, env)), env);
  }

  lemma ChunkSaves(s: Slot, f: Frame, env: Env)
    requires f.FileChunk?
    ensures var r := OnChunk(s, f, env); r.slot.saved == if Done(s.id, r.notices) then None else s.saved
  {
    hide FileNames.FreeName;
  }

  lemma CancelSaves(s: Slot, byUser: bool)
    ensures OnCancelled(s, byUser).slot.saved == None && !Done(s.id, OnCancelled(s, byUser).notices)
  {}
}
