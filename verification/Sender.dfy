/** The sending side: chunk s always carries chunk s of the file, under a nonce used for nothing else. */
module Sender {
  import opened Text
  import opened Bytes
  import opened Int64
  import opened Nonce
  import opened Chunks
  import opened TransferModel

  /** What one outgoing transfer streams: a file that does not change, under a key and base nonce of its own. */
  datatype Source = Source(path: string, data: seq<Byte>, key: seq<Byte>, nonce: seq<Byte>)

  /** The file of the source, if it can be read; its size is a 64-bit number. */
  ghost predicate OnDisk(src: Source, host: Host) {
    (src.path in host.disk ==> host.disk[src.path] == src.data) && IsInt64(|src.data|)
  }

  /** The stream stands at the chunk the counter names, as long as it is readable at all. */
  ghost predicate Aligned(t: Outgoing, src: Source) {
    && t.path == src.path && t.key == src.key && t.nonce == src.nonce && t.fileSize == |src.data|
    && (t.file.None? ==> t.chunksSent == 0 && t.bytesSent == 0)
    && (t.file.Some? ==> t.file.value.content == src.data)
    && (t.file.Some? && t.file.value.good ==> t.file.value.pos == t.chunksSent * CHUNK_SIZE)
  }

  ghost predicate SenderInv(s: Slot, src: Source) {
    && s.inc.None?
    && (s.out.Some? ==> Aligned(s.out.value, src))
    && (s.saved.Some? ==>
          var i := s.saved.value;
          i.outgoing && i.path == src.path && i.key == src.key && i.nonce == src.nonce && i.totalSize == |src.data|)
  }

  /** Chunk frame s: file bytes [s*65536, min((s+1)*65536, size)) under nonce s. */
  ghost predicate WellSealed(f: Frame, src: Source) {
    f.FileChunk? ==>
      && 0 <= f.seqNo < ChunkCount(|src.data|)
      && f.box == Sealed(src.key, NonceFor(src.nonce, f.seqNo), ChunkAt(src.data, f.seqNo))
  }

  ghost predicate AllWellSealed(sent: seq<Outbound>, src: Source) {
    forall i :: 0 <= i < |sent| ==> WellSealed(sent[i].frame, src)
  }

  /** An accept that makes a chunk go out: the file opens, is not empty, is not all sent, and sealing works. */
  predicate AcceptSends(s: Slot, host: Host, env: Env) {
    && s.out.Some? && s.out.value.path in host.disk && host.disk[s.out.value.path] != []
    && s.out.value.bytesSent < s.out.value.fileSize && env.sealOk
  }

  /** A resume that makes a chunk go out: bytes are left by the count, some are read, and sealing works. */
  predicate ResumeSends(s: Slot, last: int, host: Host, env: Env) {
    var t := Resumed(s, last, host, env);
    && t.Some? && t.value.file.Some? && t.value.bytesSent < t.value.fileSize
    && t.value.file.value.Available() != [] && env.sealOk
  }

  /** The request to send is for this source. */
  predicate ForThisFile(e: Event, src: Source)
    requires e.SendFile?
  {
    e.path == src.path && e.key == src.key && e.nonce == src.nonce && e.size == |src.data|
  }

  /** An offer that is not entered. */
  predicate Refused(f: Frame)
    requires f.FileOffer?
  {
    f.size < 0 || OfferKey(f.envelope).None?
  }

  /**
   * What may happen to the sender's slot: everything except reuse of the id for another file or an offer from the
   * peer, an accept that sends a chunk when the counter is not at its start, and a resume that sends a chunk whose
   * position 64 bits cannot hold.
   */
  predicate SenderEvent(s: Slot, e: Event, host: Host, env: Env, src: Source) {
    match e
    case SendFile(_, _, _, _, _, _, _) => ForThisFile(e, src)
    case Receive(_, f) =>
      && (f.FileOffer? ==> Refused(f))
      && (f.FileAccept? && AcceptSends(s, host, env) ==> s.out.value.chunksSent == 0)
      && (f.FileResumeRequest? && ResumeSends(s, f.lastChunk, host, env) ==> PositionFits(NextChunk(f.lastChunk)))
    case _ => true
  }

  // What an event does to the transfer

  /** The entry from which the event streams, if it does. */
  function StreamedFrom(s: Slot, e: Event, host: Host, env: Env): Option<Outgoing> {
    if s.out.Some? && e.Continue? && s.out.value.state != Paused && s.out.value.state != Cancelled then s.out
    else if s.out.Some? && e.Receive? && e.frame.FileAccept? && s.out.value.path in host.disk then
      Some(s.out.value.(state := Active, file := Some(Reader(host.disk[s.out.value.path], 0, true))))
    else if e.Receive? && e.frame.FileResumeRequest? then Resumed(s, e.frame.lastChunk, host, env)
    else None
  }

  function FramesOf(sent: seq<Outbound>): seq<Frame> {
    seq(|sent|, i requires 0 <= i < |sent| => sent[i].frame)
  }

  /**
   * What streaming from t leads to: completion, one more chunk, a break for want of encryption, or a standstill when
   * there is nothing to read.
   */
  ghost predicate Leads(s: Slot, t: Outgoing, env: Env, r: Effect) {
    var frames := FramesOf(r.sent);
    if t.file.None? || t.bytesSent >= t.fileSize then
      && r.slot.out.None? && r.slot.saved.None? && r.posted == 0
      && frames != [] && frames[|frames| - 1] == FileComplete(t.hash)
      && TransferCompleted(s.id, t.path, true) in r.notices
    else if t.file.value.Available() != [] && env.sealOk then
      && r.posted == 1 && frames != [] && frames[|frames| - 1].FileChunk?
      && frames[|frames| - 1].seqNo == t.chunksSent
      && r.slot.out == Some(t.(bytesSent := t.bytesSent + |t.file.value.Available()|, chunksSent := t.chunksSent + 1,
                               file := Some(t.file.value.AfterRead())))
    else
      && r.posted == 0 && (forall f :: f in frames ==> !f.FileChunk? && !f.FileComplete?)
      && if t.file.value.Available() != [] then r.slot.out.None? && TransferFailed(s.id, "encryption") in r.notices
         else r.slot.out == Some(t.(file := Some(t.file.value.AfterRead())))
  }

  lemma NextLeads(s: Slot, env: Env)
    requires s.out.Some? && s.out.value.state != Paused && s.out.value.state != Cancelled
    ensures Leads(s, s.out.value, env, SendNext(s, env))
  {
    hide NonceFor;
  }

  /** Every event from which a transfer streams leads to what its stream and counters say. */
  lemma StreamOutcome(s: Slot, e: Event, host: Host, env: Env)
    requires StreamedFrom(s, e, host, env).Some?
    ensures Leads(s, StreamedFrom(s, e, host, env).value, env, Step(s, e, host, env))
  {
    hide SendNext, Leads, NextChunk, Position;
    var t := StreamedFrom(s, e, host, env);
    NextLeads(s.(out := t), env);
    var next := SendNext(s.(out := t), env);
    NothingBefore(next.sent);
    NothingBefore(next.notices);
    if e.Continue? {
      LeadsAfter(s, t.value, env, next, [], []);
    } else if e.frame.FileAccept? {
      LeadsAfter(s, t.value, env, next, [], [Started(s.id, true)]);
    } else {
      LeadsAfter(s, t.value, env, next, [Outbound(e.from, s.id, FileResumeAck(t.value.chunksSent))], []);
    }
  }

  lemma NothingBefore<T>(xs: seq<T>)
    ensures [] + xs == xs
  {}

  lemma LeadsAfter(s: Slot, t: Outgoing, env: Env, r: Effect, sent: seq<Outbound>, notices: seq<Notice>)
    requires Leads(s.(out := Some(t)), t, env, r)
    requires forall i :: 0 <= i < |sent| ==> sent[i].frame.FileResumeAck?
    ensures Leads(s, t, env, Effect(r.slot, sent + r.sent, r.posted, notices + r.notices))
  {
    var frames := FramesOf(sent + r.sent);
    assert frames == FramesOf(sent) + FramesOf(r.sent);
    assert forall f :: f in FramesOf(sent) ==> f.FileResumeAck?;
  }

  /** A digest that could not be computed fails the transfer. */
  lemma UnhashableFails(s: Slot, host: Host, env: Env)
    requires s.out.Some?
    ensures Step(s, HashDone(None), host, env) == Effect(s.(out := None), [], 0, [TransferFailed(s.id, "hash")])
  {}

  /** An accept of a file that cannot be opened fails the transfer. */
  lemma UnreadableFails(s: Slot, from: string, host: Host, env: Env)
    requires s.out.Some? && s.out.value.path !in host.disk
    ensures Step(s, Receive(from, FileAccept), host, env)
         == Effect(s.(out := None), [], 0, [TransferFailed(s.id, "open")])
  {}

  /** Without the transfer and without a saved state that loads and reopens, a resume is refused and changes nothing. */
  lemma RefusedResume(s: Slot, from: string, last: int, host: Host, env: Env)
    ensures Step(s, Receive(from, FileResumeRequest(last)), host, env) == Quiet(s)
       <==> s.out.None? && (s.saved.None? || !env.loadOk || s.saved.value.path !in host.disk)
  {
    hide NonceFor, NextChunk, Position, SendNext;
  }

  lemma SendNextAligned(s: Slot, env: Env, src: Source)
    requires SenderInv(s, src) || (s.inc.None? && s.out.Some? && s.out.value.file.None? && s.out.value.state == Active)
    ensures SenderInv(s, src) ==> SenderInv(SendNext(s, env).slot, src)
    ensures s.out.Some? && s.out.value.file.None? && s.out.value.state == Active ==>
      SendNext(s, env).slot == s.(out := None, saved := None)
    ensures AllWellSealed(SendNext(s, env).sent, src)
  {}

  lemma ResumeAligned(s: Slot, from: string, last: int, host: Host, env: Env, src: Source)
    requires SenderInv(s, src) && OnDisk(src, host)
    requires ResumeSends(s, last, host, env) ==> PositionFits(NextChunk(last))
    ensures SenderInv(OnResumeRequest(s, from, last, host, env).slot, src)
    ensures AllWellSealed(OnResumeRequest(s, from, last, host, env).sent, src)
  {
    hide Resumed, SendNext, Position, NextChunk, PositionFits, SenderInv;
    var t := Resumed(s, last, host, env);
    if t.Some? {
      if ResumeSends(s, last, host, env) {
        ResumedAligned(s, last, host, env, src);
        SendNextAligned(s.(out := t), env, src);
      } else {
        ResumeIdles(s, last, host, env, src);
      }
    }
  }

  lemma ResumedAligned(s: Slot, last: int, host: Host, env: Env, src: Source)
    requires SenderInv(s, src) && OnDisk(src, host)
    requires ResumeSends(s, last, host, env) && PositionFits(NextChunk(last))
    ensures SenderInv(s.(out := Resumed(s, last, host, env)), src)
  {
    PositionIff(NextChunk(last));
    hide Position, NextChunk, PositionFits;
  }

  lemma ResumeIdles(s: Slot, last: int, host: Host, env: Env, src: Source)
    requires SenderInv(s, src) && OnDisk(src, host)
    requires Resumed(s, last, host, env).Some? && !ResumeSends(s, last, host, env)
    ensures var r := SendNext(s.(out := Resumed(s, last, host, env)), env);
      SenderInv(r.slot, src) && AllWellSealed(r.sent, src)
  {
    hide Position, NextChunk, NonceFor;
  }

  /** A resume whose chunk starts where 64 bits cannot say seals some bytes of the file under a number it has not. */
  lemma FarResume(s: Slot, from: string, last: int, host: Host, env: Env, src: Source)
    requires SenderInv(s, src) && OnDisk(src, host)
    requires ResumeSends(s, last, host, env) && !PositionFits(NextChunk(last))
    ensures !AllWellSealed(OnResumeRequest(s, from, last, host, env).sent, src)
  {
    hide Position, NextChunk, NonceFor, ChunkAt;
    var r := OnResumeRequest(s, from, last, host, env);
    assert r.sent[1].frame.FileChunk? && r.sent[1].frame.seqNo == NextChunk(last);
    assert ChunkCount(|src.data|) <= 0x8000_0000_0000;
    assert !WellSealed(r.sent[1].frame, src);
  }

  lemma AcceptAligned(s: Slot, host: Host, env: Env, src: Source)
    requires SenderInv(s, src) && OnDisk(src, host)
    requires AcceptSends(s, host, env) ==> s.out.value.chunksSent == 0
    ensures SenderInv(StartStreaming(s, host, env).slot, src)
    ensures AllWellSealed(StartStreaming(s, host, env).sent, src)
  {
    if AcceptSends(s, host, env) {
      var t := s.out.value.(file := OpenFile(host, s.out.value.path), state := Active);
      SendNextAligned(s.(out := Some(t)), env, src);
    }
  }

  lemma StepAligned(s: Slot, e: Event, host: Host, env: Env, src: Source)
    requires SenderInv(s, src) && OnDisk(src, host) && SenderEvent(s, e, host, env, src)
    ensures SenderInv(Step(s, e, host, env).slot, src)
    ensures AllWellSealed(Step(s, e, host, env).sent, src)
  {
    hide ResumeSends, NextChunk, Position, PositionFits, NonceFor, ChunkAt;
    match e
    case Continue => SendNextAligned(s, env, src);
    case Receive(from, f) =>
      if f.FileAccept? {
        AcceptAligned(s, host, env, src);
      } else if f.FileResumeRequest? {
        ResumeAligned(s, from, f.lastChunk, host, env, src);
      }
    case _ =>
  }

  /** A run in which every event is one the sender's slot may see. */
  ghost predicate SenderRun(s: Slot, es: seq<(Event, Env)>, host: Host, src: Source)
    decreases |es|
  {
    es == []
    || (&& SenderEvent(s, es[0].0, host, es[0].1, src)
        && SenderRun(Step(s, es[0].0, host, es[0].1).slot, es[1..], host, src))
  }

  /**
   * Over every run, with pauses, resumes in memory or from the saved state, stray continuations and cancels
   * in any order, each chunk frame carries exactly the file bytes its sequence number names.
   */
  lemma {:induction false} RunAligned(s: Slot, es: seq<(Event, Env)>, host: Host, src: Source)
    requires SenderInv(s, src) && OnDisk(src, host) && SenderRun(s, es, host, src)
    ensures SenderInv(Run(s, es, host).slot, src)
    ensures AllWellSealed(Run(s, es, host).sent, src)
    decreases |es|
  {
    if es != [] {
      StepAligned(s, es[0].0, host, es[0].1, src);
      RunAligned(Step(s, es[0].0, host, es[0].1).slot, es[1..], host, src);
    }
  }

  /** The slot a fresh SendFile leaves satisfies the invariant. */
  lemma FreshAligned(id: string, e: Event, host: Host, env: Env)
    requires e.SendFile? && e.path in host.disk && e.size == |host.disk[e.path]|
    ensures SenderInv(Step(Slot(id, None, None, None), e, host, env).slot,
                      Source(e.path, host.disk[e.path], e.key, e.nonce))
  {}

  /** No such run seals two different plaintexts under one key and nonce. */
  lemma {:induction false} NonceNeverReused(s: Slot, es: seq<(Event, Env)>, host: Host, src: Source, i: nat, j: nat)
    requires SenderInv(s, src) && OnDisk(src, host) && SenderRun(s, es, host, src)
    requires |src.nonce| == NONCE_SIZE
    requires i < |Run(s, es, host).sent| && j < |Run(s, es, host).sent|
    requires Run(s, es, host).sent[i].frame.FileChunk? && Run(s, es, host).sent[j].frame.FileChunk?
    ensures var a, b := Run(s, es, host).sent[i].frame, Run(s, es, host).sent[j].frame;
      && a.box.Sealed? && b.box.Sealed?
      && (a.box.nonce == b.box.nonce <==> a.seqNo == b.seqNo)
      && (a.box.nonce == b.box.nonce ==> a.box.plaintext == b.box.plaintext)
  {
    RunAligned(s, es, host, src);
    var a, b := Run(s, es, host).sent[i].frame, Run(s, es, host).sent[j].frame;
    NonceInjective(src.nonce, a.seqNo, b.seqNo);
  }

  // Late accepts

  /** An accept that sends always seals chunk 0 of the file, under the number of chunks already sent. */
  lemma AcceptSealsChunkZero(s: Slot, from: string, host: Host, env: Env, src: Source)
    requires SenderInv(s, src) && OnDisk(src, host) && AcceptSends(s, host, env)
    ensures var r, c := Step(s, Receive(from, FileAccept), host, env), s.out.value.chunksSent;
      && |r.sent| == 1 && r.sent[0].frame.FileChunk? && r.sent[0].frame.seqNo == c
      && r.sent[0].frame.box == Sealed(src.key, NonceFor(src.nonce, c), ChunkAt(src.data, 0))
      && (WellSealed(r.sent[0].frame, src) <==> ChunkAt(src.data, c) == ChunkAt(src.data, 0))
  {
    ChunkExistsIff(src.data, 0);
    ChunkExistsIff(src.data, s.out.value.chunksSent);
  }

  /**
   * The stream still stands where the counter says exactly if nothing was sent, the count was 0, or the read was short.
   */
  lemma AcceptKeepsInvIff(s: Slot, from: string, host: Host, env: Env, src: Source)
    requires SenderInv(s, src) && OnDisk(src, host)
    ensures SenderInv(Step(s, Receive(from, FileAccept), host, env).slot, src)
       <==> (AcceptSends(s, host, env) ==> s.out.value.chunksSent == 0 || |src.data| < CHUNK_SIZE)
  {
    hide NonceFor;
    if AcceptSends(s, host, env) {
      var reader := Reader(src.data, 0, true);
      assert reader.Available() == ChunkAt(src.data, 0);
    }
  }

  /** Stream and frame are both right exactly under the guard of SenderEvent. */
  lemma AcceptAlignedIff(s: Slot, from: string, host: Host, env: Env, src: Source)
    requires SenderInv(s, src) && OnDisk(src, host)
    ensures var r := Step(s, Receive(from, FileAccept), host, env);
      SenderInv(r.slot, src) && AllWellSealed(r.sent, src)
      <==> SenderEvent(s, Receive(from, FileAccept), host, env, src)
  {
    AcceptKeepsInvIff(s, from, host, env, src);
    if SenderEvent(s, Receive(from, FileAccept), host, env, src) {
      AcceptAligned(s, host, env, src);
    } else {
      AcceptSealsChunkZero(s, from, host, env, src);
      ChunkExistsIff(src.data, 0);
      ChunkExistsIff(src.data, s.out.value.chunksSent);
    }
  }

  const FAR: int := 0x1_0000_0000_0000

  /** Asked to go on after chunk 2^48 - 1, the program starts again at position 0 and numbers the first chunk 2^48. */
  lemma FarResumeRereads(s: Slot, from: string, host: Host, env: Env, src: Source)
    requires SenderInv(s, src) && s.out.Some? && s.out.value.file.Some? && s.out.value.file.value.good && env.sealOk
    requires src.data != [] && s.out.value.bytesSent < |src.data|
    ensures var r := Step(s, Receive(from, FileResumeRequest(FAR - 1)), host, env);
      && |r.sent| == 2 && r.sent[1].frame.FileChunk? && r.sent[1].frame.seqNo == FAR
      && r.sent[1].frame.box == Sealed(src.key, NonceFor(src.nonce, FAR), ChunkAt(src.data, 0))
  {
    assert NextChunk(FAR - 1) == FAR && Position(FAR) == 0;
    hide NextChunk, Position, NonceFor;
    assert Reader(src.data, 0, true).Available() == ChunkAt(src.data, 0);
  }

  // The guard is exact

  lemma NewFileIff(s: Slot, e: Event, host: Host, env: Env, src: Source)
    requires SenderInv(s, src) && e.SendFile?
    ensures SenderInv(Step(s, e, host, env).slot, src) && AllWellSealed(Step(s, e, host, env).sent, src)
       <==> ForThisFile(e, src)
  {}

  lemma OfferIff(s: Slot, from: string, f: Frame, host: Host, env: Env, src: Source)
    requires SenderInv(s, src) && f.FileOffer?
    ensures var r := Step(s, Receive(from, f), host, env);
      SenderInv(r.slot, src) && AllWellSealed(r.sent, src) <==> Refused(f)
  {}

  /** A step leaves the stream where the counter says, and sends only right frames, exactly under the guard. */
  lemma StepAlignedIff(s: Slot, e: Event, host: Host, env: Env, src: Source)
    requires SenderInv(s, src) && OnDisk(src, host)
    ensures SenderInv(Step(s, e, host, env).slot, src) && AllWellSealed(Step(s, e, host, env).sent, src)
       <==> SenderEvent(s, e, host, env, src)
  {
    if SenderEvent(s, e, host, env, src) {
      StepAligned(s, e, host, env, src);
    } else {
      Misaligns(s, e, host, env, src);
    }
  }

  lemma Misaligns(s: Slot, e: Event, host: Host, env: Env, src: Source)
    requires SenderInv(s, src) && OnDisk(src, host) && !SenderEvent(s, e, host, env, src)
    ensures !(SenderInv(Step(s, e, host, env).slot, src) && AllWellSealed(Step(s, e, host, env).sent, src))
  {
    hide SenderInv, AllWellSealed, OnDisk, ResumeSends, AcceptSends, PositionFits, NextChunk, ForThisFile, Refused;
    match e
    case SendFile(_, _, _, _, _, _, _) => NewFileIff(s, e, host, env, src);
    case Receive(from, f) =>
      if f.FileOffer? {
        OfferIff(s, from, f, host, env, src);
      } else if f.FileAccept? {
        AcceptAlignedIff(s, from, host, env, src);
      } else {
        FarResume(s, from, f.lastChunk, host, env, src);
      }
  }

  /** In every state of the run the stream stands where the counter says, and every frame sent was right. */
  ghost predicate AlwaysAligned(s: Slot, es: seq<(Event, Env)>, host: Host, src: Source)
    decreases |es|
  {
    && SenderInv(s, src)
    && (es == [] ||
          var r := Step(s, es[0].0, host, es[0].1);
          AllWellSealed(r.sent, src) && AlwaysAligned(r.slot, es[1..], host, src))
  }

  /** Over every run: stream and frames stay right throughout exactly when every event meets the guard. */
  lemma {:induction false} RunAlignedIff(s: Slot, es: seq<(Event, Env)>, host: Host, src: Source)
    requires SenderInv(s, src) && OnDisk(src, host)
    ensures AlwaysAligned(s, es, host, src) <==> SenderRun(s, es, host, src)
    decreases |es|
  {
    if es != [] {
      StepAlignedIff(s, es[0].0, host, es[0].1, src);
      hide SenderInv, AllWellSealed, SenderEvent, Step, OnDisk;
      var r := Step(s, es[0].0, host, es[0].1);
      if SenderInv(r.slot, src) {
        RunAlignedIff(r.slot, es[1..], host, src);
      } else {
        assert !AlwaysAligned(r.slot, es[1..], host, src);
      }
    }
  }

  // An uninterrupted transmission

  /** After j of the file's chunks went out without interruption. */
  ghost predicate Streaming(s: Slot, src: Source, j: nat) {
    && s.inc.None? && s.out.Some? && j <= ChunkCount(|src.data|)
    && var t := s.out.value;
       && t.path == src.path && t.key == src.key && t.nonce == src.nonce && t.fileSize == |src.data|
       && t.state == Active && t.chunksSent == j && t.bytesSent == Min(j * CHUNK_SIZE, |src.data|)
       && t.file == Some(Reader(src.data, t.bytesSent, j * CHUNK_SIZE <= |src.data|))
  }

  function ChunkFrame(src: Source, j: nat): Frame {
    FileChunk(j, Sealed(src.key, NonceFor(src.nonce, j), ChunkAt(src.data, j)), j + 1 == ChunkCount(|src.data|))
  }

  /** Chunks j, j+1, ... to the end, then the completion frame. */
  function Transmission(src: Source, id: string, peer: string, hash: Option<Digest>, j: nat): seq<Outbound>
    decreases ChunkCount(|src.data|) - j
  {
    if j >= ChunkCount(|src.data|) then [Outbound(peer, id, FileComplete(hash))]
    else [Outbound(peer, id, ChunkFrame(src, j))] + Transmission(src, id, peer, hash, j + 1)
  }

  lemma StreamOne(s: Slot, src: Source, env: Env, j: nat)
    requires Streaming(s, src, j) && env.sealOk
    ensures j < ChunkCount(|src.data|) ==>
      && Streaming(SendNext(s, env).slot, src, j + 1)
      && SendNext(s, env).slot.out.Some? && SendNext(s, env).slot.id == s.id
      && SendNext(s, env).slot.out.value.peer == s.out.value.peer
      && SendNext(s, env).slot.out.value.hash == s.out.value.hash
      && SendNext(s, env).sent == [Outbound(s.out.value.peer, s.id, ChunkFrame(src, j))]
      && SendNext(s, env).posted == 1 && SendNext(s, env).notices == []
    ensures j == ChunkCount(|src.data|) ==>
      SendNext(s, env) == Effect(Slot(s.id, None, None, None),
                                 [Outbound(s.out.value.peer, s.id, FileComplete(s.out.value.hash))], 0,
                                 [TransferCompleted(s.id, src.path, true)])
  {
    ChunkExistsIff(src.data, j);
    assert j < ChunkCount(|src.data|) ==> s.out.value.file.value.Available() == ChunkAt(src.data, j);
    assert j < ChunkCount(|src.data|) ==> (j + 1 == ChunkCount(|src.data|) <==> (j + 1) * CHUNK_SIZE >= |src.data|);
  }

  predicate Continuations(es: seq<(Event, Env)>) {
    forall i :: 0 <= i < |es| ==> es[i].0 == Continue && es[i].1.sealOk
  }

  lemma {:induction false} DoneIsQuiet(id: string, es: seq<(Event, Env)>, host: Host)
    requires Continuations(es)
    ensures Run(Slot(id, None, None, None), es, host) == Quiet(Slot(id, None, None, None))
    decreases |es|
  {
    if es != [] {
      DoneIsQuiet(id, es[1..], host);
    }
  }

  lemma {:induction false} TransmissionUnfolds(src: Source, id: string, peer: string, hash: Option<Digest>, j: nat)
    ensures Transmission(src, id, peer, hash, j)
         == if j >= ChunkCount(|src.data|) then [Outbound(peer, id, FileComplete(hash))]
            else [Outbound(peer, id, ChunkFrame(src, j))] + Transmission(src, id, peer, hash, j + 1)
  {
    hide ChunkFrame;
  }

  /** A run of continuations: the first of them, and the others. */
  lemma {:induction false} ContinueRun(s: Slot, es: seq<(Event, Env)>, host: Host)
    requires Continuations(es) && es != []
    ensures es[0].1.sealOk && Continuations(es[1..])
    ensures var r := SendNext(s, es[0].1);
      var rest := Run(r.slot, es[1..], host);
      Run(s, es, host)
      == Effect(rest.slot, r.sent + rest.sent, r.posted + rest.posted, r.notices + rest.notices)
  {
    hide SendNext;
  }

  lemma {:induction false} StreamAll(s: Slot, src: Source, es: seq<(Event, Env)>, host: Host, j: nat)
    requires s.out.Some? && Streaming(s, src, j) && Continuations(es)
    requires j <= ChunkCount(|src.data|) < |es| + j
    ensures Run(s, es, host).slot == Slot(s.id, None, None, None)
    ensures Run(s, es, host).sent == Transmission(src, s.id, s.out.value.peer, s.out.value.hash, j)
    ensures Run(s, es, host).posted == ChunkCount(|src.data|) - j
    ensures Run(s, es, host).notices == [TransferCompleted(s.id, src.path, true)]
    decreases |es|
  {
    hide SendNext, Streaming, ChunkFrame, Run, Continuations, Transmission;
    ContinueRun(s, es, host);
    StreamOne(s, src, es[0].1, j);
    TransmissionUnfolds(src, s.id, s.out.value.peer, s.out.value.hash, j);
    var next := SendNext(s, es[0].1);
    if j < ChunkCount(|src.data|) {
      StreamAll(next.slot, src, es[1..], host, j + 1);
    } else {
      DoneIsQuiet(s.id, es[1..], host);
    }
  }

  /**
   * From an accepted offer: as many continuations as the chunks post, or any number more, send exactly
   * ceil(n/65536) chunks in order, the last one marked, then one completion frame; nothing else follows.
   */
  lemma {:induction false} UninterruptedSend(s: Slot, from: string, accept: Env, es: seq<(Event, Env)>, host: Host,
                                             src: Source)
    requires SenderInv(s, src) && s.out.Some? && s.out.value.state == Pending && s.out.value.file.None? && s.saved.None?
    requires src.path in host.disk && OnDisk(src, host) && accept.sealOk && Continuations(es)
    requires |es| >= ChunkCount(|src.data|)
    ensures var r := Run(s, [(Receive(from, FileAccept), accept)] + es, host);
      && r.slot == Slot(s.id, None, None, None)
      && r.sent == Transmission(src, s.id, s.out.value.peer, s.out.value.hash, 0)
      && r.posted == ChunkCount(|src.data|)
      && r.notices == [Started(s.id, true), TransferCompleted(s.id, src.path, true)]
  {
    var all := [(Receive(from, FileAccept), accept)] + es;
    var t := s.out.value.(file := OpenFile(host, src.path), state := Active);
    var ready := s.(out := Some(t));
    assert all[1..] == es && all[0] == (Receive(from, FileAccept), accept);
    assert Streaming(ready, src, 0);
    StreamOne(ready, src, accept, 0);
    var next := SendNext(ready, accept);
    hide SendNext, Streaming, ChunkFrame, SenderInv;
    if ChunkCount(|src.data|) > 0 {
      StreamAll(next.slot, src, es, host, 1);
    } else {
      DoneIsQuiet(s.id, es, host);
    }
  }

  /** What a transmission consists of, frame by frame. */
  lemma {:induction false} TransmissionFrames(src: Source, id: string, peer: string, hash: Option<Digest>, j: nat)
    requires j <= ChunkCount(|src.data|)
    ensures var fs, n := Transmission(src, id, peer, hash, j), ChunkCount(|src.data|) - j;
      && |fs| == n + 1 && fs[n] == Outbound(peer, id, FileComplete(hash))
      && forall i :: 0 <= i < n ==> fs[i] == Outbound(peer, id, ChunkFrame(src, j + i))
    decreases ChunkCount(|src.data|) - j
  {
    if j < ChunkCount(|src.data|) {
      TransmissionFrames(src, id, peer, hash, j + 1);
    }
  }

  /** The plaintexts of a transmission concatenate to the file. */
  lemma {:induction false} TransmissionCarriesFile(src: Source, id: string, peer: string, hash: Option<Digest>, j: nat)
    requires j <= ChunkCount(|src.data|)
    ensures Prefix(src.data, j) + Plaintexts(Transmission(src, id, peer, hash, j)) == src.data
    decreases ChunkCount(|src.data|) - j
  {
    hide *;
    TransmissionUnfolds(src, id, peer, hash, j);
    if j == ChunkCount(|src.data|) {
      PrefixFull(src.data, j);
      NoPlaintext(Outbound(peer, id, FileComplete(hash)));
      Joined(src.data, [], []);
    } else {
      TransmissionCarriesFile(src, id, peer, hash, j + 1);
      PrefixGrows(src.data, j);
      var rest := Transmission(src, id, peer, hash, j + 1);
      FirstPlaintext(src, Outbound(peer, id, ChunkFrame(src, j)), rest, j);
      Joined(Prefix(src.data, j), ChunkAt(src.data, j), Plaintexts(rest));
    }
  }

  lemma {:induction false} FirstPlaintext(src: Source, first: Outbound, rest: seq<Outbound>, j: nat)
    requires first.frame == ChunkFrame(src, j)
    ensures Plaintexts([first] + rest) == ChunkAt(src.data, j) + Plaintexts(rest)
  {
    assert ([first] + rest)[1..] == rest;
  }

  lemma NoPlaintext(last: Outbound)
    requires last.frame.FileComplete?
    ensures Plaintexts([last]) == []
  {
    assert [last][1..] == [];
  }

  lemma Joined(a: seq<Byte>, b: seq<Byte>, c: seq<Byte>)
    ensures a + (b + c) == (a + b) + c && a + [] == a
  {}

  function Plaintext(f: Frame): seq<Byte> {
    if f.FileChunk? && f.box.Sealed? then f.box.plaintext else []
  }

  function Plaintexts(fs: seq<Outbound>): seq<Byte> {
    if fs == [] then []
    else Plaintext(fs[0].frame) + Plaintexts(fs[1..])
  }

  // Where a resumed stream ends

  /**
   * Chunks k, k+1, ... while the count of bytes, which starts at b, is below the size: the frame that reaches it is
   * marked last and the completion follows; if the file ends before, the stream just stops.
   */
  function Resumption(src: Source, id: string, peer: string, hash: Option<Digest>, b: int, k: int): seq<Outbound>
    decreases ChunkCount(|src.data|) - k
  {
    if b >= |src.data| then [Outbound(peer, id, FileComplete(hash))]
    else if k < 0 || k >= ChunkCount(|src.data|) then []
    else
      var after := b + |ChunkAt(src.data, k)|;
      var box := Sealed(src.key, NonceFor(src.nonce, k), ChunkAt(src.data, k));
      [Outbound(peer, id, FileChunk(k, box, after >= |src.data|))] + Resumption(src, id, peer, hash, after, k + 1)
  }

  /** The stream stands at chunk k, or beyond what can be read, and b bytes were counted. */
  ghost predicate Reading(s: Slot, src: Source, b: int, k: int) {
    && s.out.Some?
    && var t := s.out.value;
       && t.key == src.key && t.nonce == src.nonce && t.fileSize == |src.data| && t.state == Active
       && t.chunksSent == k && t.bytesSent == b && t.file.Some? && t.file.value.content == src.data
       && (0 <= k < ChunkCount(|src.data|) ==> t.file.value == Reader(src.data, k * CHUNK_SIZE, true))
       && (b < |src.data| && !(0 <= k < ChunkCount(|src.data|)) ==> t.file.value.Available() == [])
  }

  lemma ReadOne(s: Slot, src: Source, env: Env, b: int, k: int)
    requires Reading(s, src, b, k) && env.sealOk && b < |src.data| && 0 <= k < ChunkCount(|src.data|)
    ensures var r, chunk, t := SendNext(s, env), ChunkAt(src.data, k), s.out.value;
      && r.slot.out.Some? && Reading(r.slot, src, b + |chunk|, k + 1) && r.slot.id == s.id
      && r.slot.out.value.peer == t.peer && r.slot.out.value.hash == t.hash
      && r.sent == [Outbound(t.peer, s.id,
           FileChunk(k, Sealed(src.key, NonceFor(src.nonce, k), chunk), b + |chunk| >= |src.data|))]
  {
    hide NonceFor;
    assert s.out.value.file.value.Available() == ChunkAt(src.data, k);
  }

  lemma ReadDone(s: Slot, src: Source, env: Env, b: int, k: int)
    requires Reading(s, src, b, k) && (b >= |src.data| || !(0 <= k < ChunkCount(|src.data|)))
    ensures b >= |src.data| ==>
      && SendNext(s, env).slot == Slot(s.id, None, s.inc, None)
      && SendNext(s, env).sent == [Outbound(s.out.value.peer, s.id, FileComplete(s.out.value.hash))]
    ensures b < |src.data| ==> Reading(SendNext(s, env).slot, src, b, k) && SendNext(s, env).sent == []
  {}

  lemma {:induction false} DoneSendsNothing(s: Slot, es: seq<(Event, Env)>, host: Host)
    requires s.out.None? && Continuations(es)
    ensures Run(s, es, host).sent == []
    decreases |es|
  {
    if es != [] {
      DoneSendsNothing(s, es[1..], host);
    }
  }

  lemma {:induction false} StandsStill(s: Slot, src: Source, es: seq<(Event, Env)>, host: Host, b: int, k: int)
    requires Reading(s, src, b, k) && b < |src.data| && !(0 <= k < ChunkCount(|src.data|)) && Continuations(es)
    ensures Run(s, es, host).sent == []
    decreases |es|
  {
    if es != [] {
      ReadDone(s, src, es[0].1, b, k);
      hide SendNext, Reading;
      StandsStill(SendNext(s, es[0].1).slot, src, es[1..], host, b, k);
    }
  }

  lemma {:induction false} ResumptionMore(src: Source, id: string, peer: string, hash: Option<Digest>, b: int, k: int)
    requires b < |src.data| && 0 <= k < ChunkCount(|src.data|)
    ensures var after := b + |ChunkAt(src.data, k)|;
      var box := Sealed(src.key, NonceFor(src.nonce, k), ChunkAt(src.data, k));
      Resumption(src, id, peer, hash, b, k)
      == [Outbound(peer, id, FileChunk(k, box, after >= |src.data|))] + Resumption(src, id, peer, hash, after, k + 1)
  {
    hide NonceFor, ChunkAt;
  }

  lemma {:induction false} ResumptionEnds(s: Slot, src: Source, es: seq<(Event, Env)>, host: Host, b: int, k: int)
    requires Reading(s, src, b, k) && (b >= |src.data| || !(0 <= k < ChunkCount(|src.data|)))
    requires Continuations(es) && es != []
    ensures Run(s, es, host).sent == Resumption(src, s.id, s.out.value.peer, s.out.value.hash, b, k)
  {
    ContinueRun(s, es, host);
    ReadDone(s, src, es[0].1, b, k);
    var r := SendNext(s, es[0].1);
    hide SendNext, Reading, NonceFor, ChunkAt, Run, Continuations;
    if b >= |src.data| {
      DoneSendsNothing(r.slot, es[1..], host);
    } else {
      StandsStill(r.slot, src, es[1..], host, b, k);
    }
  }

  lemma {:induction false} ResumptionRuns(s: Slot, src: Source, es: seq<(Event, Env)>, host: Host, b: int, k: int)
    requires s.out.Some? && Reading(s, src, b, k) && Continuations(es)
    requires |es| > 0 && |es| > ChunkCount(|src.data|) - k
    ensures Run(s, es, host).sent == Resumption(src, s.id, s.out.value.peer, s.out.value.hash, b, k)
    decreases |es|
  {
    hide *;
    ContinueRun(s, es, host);
    var r := SendNext(s, es[0].1);
    if b >= |src.data| || !(0 <= k < ChunkCount(|src.data|)) {
      ResumptionEnds(s, src, es, host, b, k);
    } else {
      ReadOne(s, src, es[0].1, b, k);
      ResumptionMore(src, s.id, s.out.value.peer, s.out.value.hash, b, k);
      ResumptionRuns(r.slot, src, es[1..], host, b + |ChunkAt(src.data, k)|, k + 1);
    }
  }

  /** The rest of the file from chunk k on, last mark and completion included, goes out exactly for these counts b. */
  lemma {:induction false} ResumptionRightIff(src: Source, id: string, peer: string, hash: Option<Digest>, b: int,
                                              k: nat)
    ensures Resumption(src, id, peer, hash, b, k) == Transmission(src, id, peer, hash, k)
       <==> if k >= ChunkCount(|src.data|) then b >= |src.data|
            else k * CHUNK_SIZE <= b < k * CHUNK_SIZE + |ChunkAt(src.data, ChunkCount(|src.data|) - 1)|
    decreases ChunkCount(|src.data|) - k
  {
    if k < ChunkCount(|src.data|) && b < |src.data| {
      var after := b + |ChunkAt(src.data, k)|;
      var rest, right := Resumption(src, id, peer, hash, after, k + 1), Transmission(src, id, peer, hash, k + 1);
      ResumptionRightIff(src, id, peer, hash, after, k + 1);
      assert Resumption(src, id, peer, hash, b, k)[1..] == rest && Transmission(src, id, peer, hash, k)[1..] == right;
    }
  }
  /** A resume that is answered and finds the chunk readable, if there is such a chunk. */
  predicate Resumes(s: Slot, last: int, host: Host, env: Env, src: Source) {
    var t := Resumed(s, last, host, env);
    && t.Some? && t.value.file.Some?
    && (0 <= NextChunk(last) < ChunkCount(|src.data|) ==> t.value.file.value.good)
  }

  lemma ResumedReads(s: Slot, from: string, last: int, host: Host, env: Env, src: Source)
    requires SenderInv(s, src) && OnDisk(src, host) && env.sealOk && Resumes(s, last, host, env, src)
    requires SenderEvent(s, Receive(from, FileResumeRequest(last)), host, env, src)
    ensures var t := Resumed(s, last, host, env);
      Reading(s.(out := t), src, t.value.bytesSent, NextChunk(last))
  {
    var k := NextChunk(last);
    PositionIff(k);
    ChunkExistsIff(src.data, k);
    hide NextChunk, Position;
    assert ChunkCount(|src.data|) <= 0x8000_0000_0000;
    assert Resumed(s, last, host, env).value.chunksSent == k;
  }

  /** What a resume and the continuations after it send, from memory or from the saved state. */
  lemma {:induction false} ResumedStream(s: Slot, from: string, last: int, env: Env, es: seq<(Event, Env)>, host: Host,
                                         src: Source)
    requires SenderInv(s, src) && OnDisk(src, host) && env.sealOk && Resumes(s, last, host, env, src)
    requires SenderEvent(s, Receive(from, FileResumeRequest(last)), host, env, src)
    requires Continuations(es) && |es| >= ChunkCount(|src.data|) - NextChunk(last)
    ensures var t, k := Resumed(s, last, host, env).value, NextChunk(last);
      Run(s, [(Receive(from, FileResumeRequest(last)), env)] + es, host).sent
      == [Outbound(from, s.id, FileResumeAck(k))] + Resumption(src, s.id, t.peer, t.hash, t.bytesSent, k)
  {
    ResumedReads(s, from, last, host, env, src);
    ResumeThenContinue(s, from, last, env, es, host);
    var t, again := Resumed(s, last, host, env), [(Continue, env)] + es;
    assert Continuations(again);
    hide Resumed, Run, Reading, NextChunk, SenderInv, SenderEvent, Resumption, Continuations, Resumes;
    ResumptionRuns(s.(out := t), src, again, host, t.value.bytesSent, NextChunk(last));
  }

  /** A resume is an acknowledgement and a continuation of the entry it leaves. */
  lemma {:induction false} ResumeThenContinue(s: Slot, from: string, last: int, env: Env, es: seq<(Event, Env)>,
                                              host: Host)
    requires Resumed(s, last, host, env).Some?
    ensures Run(s, [(Receive(from, FileResumeRequest(last)), env)] + es, host).sent
         == [Outbound(from, s.id, FileResumeAck(NextChunk(last)))]
            + Run(s.(out := Resumed(s, last, host, env)), [(Continue, env)] + es, host).sent
  {
    hide Resumed, SendNext, NextChunk;
    var all, again := [(Receive(from, FileResumeRequest(last)), env)] + es, [(Continue, env)] + es;
    assert all[1..] == es && again[1..] == es;
  }

  /**
   * After a resume in memory at chunk k the rest of the file goes out, with the last mark on its last chunk and one
   * completion, exactly when the bytes counted are those of the first k chunks: the resume itself does not set them.
   */
  lemma {:induction false} ResumeEndsRightIff(s: Slot, from: string, k: nat, counted: nat, env: Env,
                                              es: seq<(Event, Env)>, host: Host, src: Source)
    requires SenderInv(s, src) && OnDisk(src, host) && env.sealOk && s.out.Some?
    requires s.out.value.file.Some? && s.out.value.file.value.good
    requires k <= ChunkCount(|src.data|) && counted <= ChunkCount(|src.data|)
    requires s.out.value.bytesSent == Min(counted * CHUNK_SIZE, |src.data|)
    requires Continuations(es) && |es| >= ChunkCount(|src.data|) - k
    ensures var r := Run(s, [(Receive(from, FileResumeRequest(k - 1)), env)] + es, host);
      && r.sent != [] && r.sent[0] == Outbound(from, s.id, FileResumeAck(k))
      && (r.sent[1..] == Transmission(src, s.id, s.out.value.peer, s.out.value.hash, k) <==> k == counted)
  {
    var t := s.out.value;
    MemoryResume(s, from, k, host, env, src);
    ResumedStream(s, from, k - 1, env, es, host, src);
    ResumptionRightIff(src, s.id, t.peer, t.hash, t.bytesSent, k);
    hide Run, Resumption, Transmission, NextChunk, Position;
  }

  lemma MemoryResume(s: Slot, from: string, k: nat, host: Host, env: Env, src: Source)
    requires SenderInv(s, src) && OnDisk(src, host) && s.out.Some? && k <= ChunkCount(|src.data|)
    requires s.out.value.file.Some? && s.out.value.file.value.good
    ensures NextChunk(k - 1) == k && Resumes(s, k - 1, host, env, src)
    ensures SenderEvent(s, Receive(from, FileResumeRequest(k - 1)), host, env, src)
  {
    assert ChunkCount(|src.data|) <= 0x8000_0000_0000;
    PositionIff(k);
    assert !PositionFits(k) ==> Position(k) < 0;
  }

  ghost predicate NothingEnds(sent: seq<Outbound>) {
    forall i :: 0 <= i < |sent| ==> !sent[i].frame.FileComplete? && (sent[i].frame.FileChunk? ==> !sent[i].frame.last)
  }

  /** With fewer bytes counted than precede the chunk, the stream ends without a last mark and without a completion. */
  lemma {:induction false} BehindNeverEnds(src: Source, id: string, peer: string, hash: Option<Digest>, b: int, k: nat)
    requires b < k * CHUNK_SIZE && b < |src.data|
    ensures NothingEnds(Resumption(src, id, peer, hash, b, k))
    decreases ChunkCount(|src.data|) - k
  {
    if k < ChunkCount(|src.data|) {
      BehindNeverEnds(src, id, peer, hash, b + |ChunkAt(src.data, k)|, k + 1);
    }
  }

  /**
   * A resume from the saved state counts one chunk less than it skips: no frame is marked last and nothing completes.
   */
  lemma {:induction false} SavedResumeNeverEnds(s: Slot, from: string, last: nat, env: Env, es: seq<(Event, Env)>,
                                                host: Host, src: Source)
    requires SenderInv(s, src) && OnDisk(src, host) && env.sealOk && s.out.None? && Resumes(s, last, host, env, src)
    requires last < ChunkCount(|src.data|) && Continuations(es) && |es| >= ChunkCount(|src.data|)
    ensures NothingEnds(Run(s, [(Receive(from, FileResumeRequest(last)), env)] + es, host).sent)
  {
    hide Run, Resumption, NextChunk, Position, NothingEnds, Resumed, SenderInv, SenderEvent, Continuations;
    SavedResume(s, from, last, host, env, src);
    var t := Resumed(s, last, host, env).value;
    ResumedStream(s, from, last, env, es, host, src);
    BehindNeverEnds(src, s.id, t.peer, t.hash, t.bytesSent, last + 1);
    FirstNothingEnds(Outbound(from, s.id, FileResumeAck(last + 1)),
                     Resumption(src, s.id, t.peer, t.hash, t.bytesSent, last + 1));
  }

  lemma SavedResume(s: Slot, from: string, last: nat, host: Host, env: Env, src: Source)
    requires SenderInv(s, src) && OnDisk(src, host) && s.out.None? && Resumes(s, last, host, env, src)
    requires last < ChunkCount(|src.data|)
    ensures NextChunk(last) == last + 1
    ensures Resumed(s, last, host, env).value.bytesSent == last * CHUNK_SIZE < |src.data|
    ensures SenderEvent(s, Receive(from, FileResumeRequest(last)), host, env, src)
  {
    ChunkExistsIff(src.data, last);
    assert ChunkCount(|src.data|) <= 0x8000_0000_0000;
    PositionIff(last);
    PositionIff(last + 1);
    assert !PositionFits(last + 1) ==> Position(last + 1) < 0;
  }

  lemma FirstNothingEnds(first: Outbound, rest: seq<Outbound>)
    requires first.frame.FileResumeAck? && NothingEnds(rest)
    ensures NothingEnds([first] + rest)
  {}

  // What a late accept does to the rest of the stream

  /** Chunk j of the file under number c + j: what goes out when c chunks were sent before the accept. */
  function ShiftedFrame(src: Source, c: nat, j: nat): Frame {
    FileChunk(c + j, Sealed(src.key, NonceFor(src.nonce, c + j), ChunkAt(src.data, j)),
              c + j + 1 == ChunkCount(|src.data|))
  }

  function ShiftedTransmission(src: Source, id: string, peer: string, hash: Option<Digest>, c: nat, j: nat)
    : seq<Outbound>
    decreases ChunkCount(|src.data|) - j
  {
    if c + j >= ChunkCount(|src.data|) then [Outbound(peer, id, FileComplete(hash))]
    else [Outbound(peer, id, ShiftedFrame(src, c, j))] + ShiftedTransmission(src, id, peer, hash, c, j + 1)
  }

  /** The file is read from its start while the counters stand c chunks further. */
  ghost predicate Shifted(s: Slot, src: Source, c: nat, j: nat) {
    && s.inc.None? && s.out.Some? && 0 < c && c + j <= ChunkCount(|src.data|)
    && var t := s.out.value;
       && t.path == src.path && t.key == src.key && t.nonce == src.nonce && t.fileSize == |src.data|
       && t.state == Active && t.chunksSent == c + j && t.bytesSent == (c + j) * CHUNK_SIZE
       && t.file == Some(Reader(src.data, j * CHUNK_SIZE, true))
  }

  lemma ShiftOne(s: Slot, src: Source, env: Env, c: nat, j: nat)
    requires Shifted(s, src, c, j) && env.sealOk
    ensures c + j < ChunkCount(|src.data|) ==>
      && Shifted(SendNext(s, env).slot, src, c, j + 1)
      && SendNext(s, env).slot.out.value.peer == s.out.value.peer
      && SendNext(s, env).slot.out.value.hash == s.out.value.hash
      && SendNext(s, env).sent == [Outbound(s.out.value.peer, s.id, ShiftedFrame(src, c, j))]
    ensures c + j == ChunkCount(|src.data|) ==>
      SendNext(s, env).slot == Slot(s.id, None, None, None)
      && SendNext(s, env).sent == [Outbound(s.out.value.peer, s.id, FileComplete(s.out.value.hash))]
  {
    hide NonceFor;
    if c + j < ChunkCount(|src.data|) {
      assert (j + 1) * CHUNK_SIZE <= |src.data|;
      assert s.out.value.file.value.Available() == ChunkAt(src.data, j);
    }
  }

  lemma {:induction false} ShiftAll(s: Slot, src: Source, es: seq<(Event, Env)>, host: Host, c: nat, j: nat)
    requires Shifted(s, src, c, j) && Continuations(es) && |es| > ChunkCount(|src.data|) - c - j
    ensures Run(s, es, host).slot == Slot(s.id, None, None, None)
    ensures Run(s, es, host).sent == ShiftedTransmission(src, s.id, s.out.value.peer, s.out.value.hash, c, j)
    decreases |es|
  {
    ContinueRun(s, es, host);
    ShiftOne(s, src, es[0].1, c, j);
    var next := SendNext(s, es[0].1);
    hide SendNext, Shifted, ShiftedFrame, Run, Continuations;
    if c + j < ChunkCount(|src.data|) {
      ShiftAll(next.slot, src, es[1..], host, c, j + 1);
    } else {
      DoneIsQuiet(s.id, es[1..], host);
    }
  }

  /** The slot a late accept leaves when it can still send: c chunks went out, c is not the whole file. */
  lemma AcceptShifts(s: Slot, host: Host, env: Env, src: Source)
    requires SenderInv(s, src) && src.path in host.disk && OnDisk(src, host) && env.sealOk && s.out.Some?
    requires 0 < s.out.value.chunksSent < ChunkCount(|src.data|)
    requires s.out.value.bytesSent == s.out.value.chunksSent * CHUNK_SIZE
    ensures var r, t := StartStreaming(s, host, env), s.out.value;
      && Shifted(r.slot, src, t.chunksSent, 1)
      && r.slot.out.value.peer == t.peer && r.slot.out.value.hash == t.hash && r.slot.id == s.id
      && r.sent == [Outbound(t.peer, s.id, ShiftedFrame(src, t.chunksSent, 0))]
  {
    var ready := s.(out := Some(s.out.value.(file := OpenFile(host, src.path), state := Active)));
    assert Shifted(ready, src, s.out.value.chunksSent, 0);
    ShiftOne(ready, src, env, s.out.value.chunksSent, 0);
  }

  /**
   * A late accept and the continuations after it send the file from its start under the numbers that were due. The
   * stream is right exactly when every chunk of the file equals the one c chunks further.
   */
  lemma {:induction false} LateAcceptRightIff(s: Slot, from: string, accept: Env, es: seq<(Event, Env)>, host: Host,
                                              src: Source)
    requires SenderInv(s, src) && src.path in host.disk && OnDisk(src, host) && accept.sealOk && s.out.Some?
    requires 0 < s.out.value.chunksSent < ChunkCount(|src.data|)
    requires s.out.value.bytesSent == s.out.value.chunksSent * CHUNK_SIZE
    requires Continuations(es) && |es| >= ChunkCount(|src.data|) - s.out.value.chunksSent
    ensures var r, c := Run(s, [(Receive(from, FileAccept), accept)] + es, host), s.out.value.chunksSent;
      && r.sent == ShiftedTransmission(src, s.id, s.out.value.peer, s.out.value.hash, c, 0)
      && (AllWellSealed(r.sent, src)
          <==> forall j ::
                 0 <= j && c + j < ChunkCount(|src.data|) ==> ChunkAt(src.data, j) == ChunkAt(src.data, c + j))
  {
    var all, c := [(Receive(from, FileAccept), accept)] + es, s.out.value.chunksSent;
    assert all[1..] == es && all[0] == (Receive(from, FileAccept), accept);
    AcceptShifts(s, host, accept, src);
    var first := Step(s, Receive(from, FileAccept), host, accept);
    assert first == StartStreaming(s, host, accept);
    hide StartStreaming, Shifted, ShiftedFrame, SenderInv, AllWellSealed;
    ShiftAll(first.slot, src, es, host, c, 1);
    ShiftedWellSealedIff(src, s.id, s.out.value.peer, s.out.value.hash, c, 0);
  }

  lemma ShiftedFrameIff(src: Source, c: nat, j: nat)
    requires c + j < ChunkCount(|src.data|)
    ensures WellSealed(ShiftedFrame(src, c, j), src) <==> ChunkAt(src.data, j) == ChunkAt(src.data, c + j)
  {}

  lemma {:induction false} ShiftedWellSealedIff(src: Source, id: string, peer: string, hash: Option<Digest>, c: nat,
                                                j: nat)
    ensures AllWellSealed(ShiftedTransmission(src, id, peer, hash, c, j), src)
       <==> Repeats(src, c, j)
    decreases ChunkCount(|src.data|) - j
  {
    if c + j < ChunkCount(|src.data|) {
      var first := Outbound(peer, id, ShiftedFrame(src, c, j));
      var rest := ShiftedTransmission(src, id, peer, hash, c, j + 1);
      ShiftedFrameIff(src, c, j);
      ShiftedWellSealedIff(src, id, peer, hash, c, j + 1);
      FirstWellSealed(first, rest, src);
      RepeatsMore(src, c, j);
      hide AllWellSealed, ChunkAt, ShiftedFrame, WellSealed, Repeats;
    }
  }

  /** From chunk j on, every chunk equals the one c chunks further. */
  ghost predicate Repeats(src: Source, c: nat, j: nat) {
    forall k :: j <= k && c + k < ChunkCount(|src.data|) ==> ChunkAt(src.data, k) == ChunkAt(src.data, c + k)
  }

  lemma RepeatsMore(src: Source, c: nat, j: nat)
    requires c + j < ChunkCount(|src.data|)
    ensures Repeats(src, c, j) <==> ChunkAt(src.data, j) == ChunkAt(src.data, c + j) && Repeats(src, c, j + 1)
  {
    hide ChunkAt;
  }

  lemma FirstWellSealed(first: Outbound, rest: seq<Outbound>, src: Source)
    ensures AllWellSealed([first] + rest, src) <==> WellSealed(first.frame, src) && AllWellSealed(rest, src)
  {
    assert ([first] + rest)[0] == first;
    assert forall i :: 0 <= i < |rest| ==> ([first] + rest)[i + 1] == rest[i];
    hide WellSealed;
  }

  // Nonces after a late accept

  /**
   * A late accept followed by a request to resume after chunk c - 1 seals chunk 0 and then chunk c under number c:
   * one key and nonce for two plaintexts, exactly when those chunks differ.
   */
  lemma {:induction false} AcceptThenResumeReusesNonce(s: Slot, from: string, accept: Env, resume: Env, host: Host,
                                                       src: Source)
    requires SenderInv(s, src) && src.path in host.disk && OnDisk(src, host) && s.out.Some?
    requires accept.sealOk && resume.sealOk
    requires 0 < s.out.value.chunksSent < ChunkCount(|src.data|) && s.out.value.bytesSent + CHUNK_SIZE < |src.data|
    ensures var c := s.out.value.chunksSent;
      var first := Step(s, Receive(from, FileAccept), host, accept);
      var second := Step(first.slot, Receive(from, FileResumeRequest(c - 1)), host, resume);
      && |first.sent| == 1 && |second.sent| == 2 && first.sent[0].frame.FileChunk? && second.sent[1].frame.FileChunk?
      && var a, b := first.sent[0].frame.box, second.sent[1].frame.box;
         && a == Sealed(src.key, NonceFor(src.nonce, c), ChunkAt(src.data, 0))
         && b == Sealed(src.key, NonceFor(src.nonce, c), ChunkAt(src.data, c))
         && (a.plaintext != b.plaintext <==> ChunkAt(src.data, c) != ChunkAt(src.data, 0))
  {
    hide NonceFor;
    var c := s.out.value.chunksSent;
    assert CHUNK_SIZE < |src.data|;
    assert Reader(src.data, 0, true).Available() == ChunkAt(src.data, 0);
    var first := Step(s, Receive(from, FileAccept), host, accept);
    assert first.slot.out.value.file == Some(Reader(src.data, CHUNK_SIZE, true));
    ChunkExistsIff(src.data, c);
    assert Reader(src.data, c * CHUNK_SIZE, true).Available() == ChunkAt(src.data, c);
  }

  /** A transfer whose offer has gone out under a key and nonce as sendFile makes them. */
  ghost predicate OfferedNow(s: Slot, src: Source) {
    && SenderInv(s, src) && s.out.Some? && s.out.value.file.None? && s.out.value.state == Pending
    && |src.key| == KEY_SIZE && |src.nonce| == NONCE_SIZE
  }

  lemma FirstAccept(s: Slot, from: string, env: Env, host: Host, src: Source)
    requires OfferedNow(s, src) && src.path in host.disk && OnDisk(src, host) && env.sealOk && |src.data| > CHUNK_SIZE
    ensures var first := Step(s, Receive(from, FileAccept), host, env);
      && SenderInv(first.slot, src) && AllWellSealed(first.sent, src)
      && first.slot.out.Some? && first.slot.out.value.chunksSent == 1 && first.slot.out.value.bytesSent == CHUNK_SIZE
  {
    AcceptAligned(s, host, env, src);
  }

  /**
   * Accepting twice: the second chunk frame is right exactly when the file's first two chunks are alike; the stream
   * never is.
   */
  lemma SecondAcceptMisaligns(s: Slot, from: string, env: Env, again: Env, host: Host, src: Source)
    requires OfferedNow(s, src) && src.path in host.disk && OnDisk(src, host) && |src.data| > CHUNK_SIZE
    requires env.sealOk && again.sealOk
    ensures var first := Step(s, Receive(from, FileAccept), host, env);
      var second := Step(first.slot, Receive(from, FileAccept), host, again);
      && AllWellSealed(first.sent, src) && |second.sent| == 1 && !SenderInv(second.slot, src)
      && (WellSealed(second.sent[0].frame, src) <==> ChunkAt(src.data, 1) == ChunkAt(src.data, 0))
  {
    FirstAccept(s, from, env, host, src);
    var first := Step(s, Receive(from, FileAccept), host, env);
    AcceptSealsChunkZero(first.slot, from, host, again, src);
    AcceptKeepsInvIff(first.slot, from, host, again, src);
  }

  /**
   * From the offer on: accept, accept, resume. The nonce of number 1 seals two plaintexts unless two chunks are alike.
   */
  lemma SecondAcceptThenResumeReusesNonce(s: Slot, from: string, env: Env, again: Env, resume: Env, host: Host,
                                          src: Source)
    requires OfferedNow(s, src) && src.path in host.disk && OnDisk(src, host) && |src.data| > 2 * CHUNK_SIZE
    requires env.sealOk && again.sealOk && resume.sealOk
    ensures var first := Step(s, Receive(from, FileAccept), host, env);
      var second := Step(first.slot, Receive(from, FileAccept), host, again);
      var third := Step(second.slot, Receive(from, FileResumeRequest(0)), host, resume);
      && |second.sent| == 1 && |third.sent| == 2 && second.sent[0].frame.FileChunk? && third.sent[1].frame.FileChunk?
      && var a, b := second.sent[0].frame.box, third.sent[1].frame.box;
         && a.Sealed? && b.Sealed? && a.key == b.key && a.nonce == b.nonce
         && (a.plaintext != b.plaintext <==> ChunkAt(src.data, 1) != ChunkAt(src.data, 0))
  {
    FirstAccept(s, from, env, host, src);
    AcceptThenResumeReusesNonce(Step(s, Receive(from, FileAccept), host, env).slot, from, again, resume, host, src);
  }
}
