/**
 * The receiving side: what is on disk, what was hashed and what was counted never part, and only the file is reported.
 */
module Receiver {
  import opened Text
  import opened Bytes
  import opened Int64
  import opened Nonce
  import opened Chunks
  import opened TransferModel
  import opened Sender

  // Whatever frames arrive

  /** Bytes written, bytes hashed and bytes counted agree and stay within the announced size. */
  ghost predicate InStep(t: Incoming) {
    && 0 <= t.bytesReceived <= t.fileSize
    && (t.file.None? ==> t.bytesReceived == 0)
    && (t.file.Some? ==> t.hasher == t.file.value && |t.file.value| == t.bytesReceived)
  }

  ghost predicate ReceiverInv(s: Slot) {
    s.inc.Some? ==> InStep(s.inc.value)
  }

  /** The digests a run has been promised: by the entry it starts with, or by an offer it receives. */
  function OfferedHashes(s: Slot, es: seq<(Event, Env)>): set<Digest> {
    (if s.inc.Some? then {s.inc.value.expectedHash} else {})
    + set i | 0 <= i < |es| && es[i].0.Receive? && es[i].0.frame.FileOffer? :: es[i].0.frame.hash
  }

  /** What every step owes the receiver, given the entry and the result of the handler. */
  ghost predicate Honest(s: Slot, r: Effect) {
    && ReceiverInv(r.slot)
    && forall n :: n in r.notices && n.FileReceived? ==>
         s.inc.Some? && Sha256(n.content) == s.inc.value.expectedHash && |n.content| <= s.inc.value.fileSize
  }

  lemma FinishHonest(s: Slot, env: Env)
    requires ReceiverInv(s) && s.inc.Some? && s.inc.value.file.Some?
    ensures Honest(s, Finish(s, env))
  {}

  lemma TakeHonest(s: Slot, plain: seq<Byte>, last: bool, env: Env)
    requires ReceiverInv(s) && s.inc.Some? && s.inc.value.file.Some?
    ensures Honest(s, TakePlain(s, plain, last, env))
    ensures var next := TakePlain(s, plain, last, env).slot.inc;
      next.Some? ==> next.value.expectedHash == s.inc.value.expectedHash
  {
    var t := s.inc.value;
    if t.bytesReceived + |plain| <= t.fileSize {
      var taken := t.(file := Some(t.file.value + plain), hasher := t.hasher + plain,
                      bytesReceived := t.bytesReceived + |plain|, chunksReceived := t.chunksReceived + 1);
      FinishHonest(s.(inc := Some(taken)), env);
    }
  }

  lemma ChunkHonest(s: Slot, f: Frame, env: Env)
    requires ReceiverInv(s) && f.FileChunk?
    ensures Honest(s, OnChunk(s, f, env))
    ensures OnChunk(s, f, env).slot.inc.Some? ==>
      s.inc.Some? && OnChunk(s, f, env).slot.inc.value.expectedHash == s.inc.value.expectedHash
  {
    if s.inc.Some? {
      var t := s.inc.value;
      var ready := if t.file.Some? then t else t.(file := Some([]), hasher := [], state := Active);
      TakeHonest(s.(inc := Some(ready)), OpenBox(f.box, t.key, NonceFor(t.nonce, f.seqNo)), f.last, env);
    }
  }

  // What a chunk leads to

  function Content(t: Incoming): seq<Byte> {
    if t.file.Some? then t.file.value else []
  }

  /** The chunk is the next one, and the transfer takes chunks. */
  predicate Expected(t: Incoming, f: Frame)
    requires f.FileChunk?
  {
    t.state != Paused && t.state != Cancelled && f.seqNo == t.chunksReceived
  }

  function Opened(t: Incoming, f: Frame): seq<Byte>
    requires f.FileChunk?
  {
    OpenBox(f.box, t.key, NonceFor(t.nonce, f.seqNo))
  }

  /** It can be stored: there is a file for it, it opens, and it does not exceed what was announced. */
  predicate Storable(t: Incoming, f: Frame, env: Env)
    requires f.FileChunk?
  {
    && (t.file.Some? || env.tempOpens)
    && Opened(t, f) != [] && |Content(t)| + |Opened(t, f)| <= t.fileSize
  }

  /** It is the last one, completes a file with the announced digest, and the file can be moved to its place. */
  predicate Completes(t: Incoming, f: Frame, env: Env)
    requires f.FileChunk?
  {
    f.last && Sha256(Content(t) + Opened(t, f)) == t.expectedHash && env.moveOk
  }

  /**
   * A chunk that is not expected changes nothing; one that cannot be stored, or is the last of a wrong file, ends the
   * transfer as failed; any other is appended, and the last one reports the file.
   */
  lemma ChunkOutcome(s: Slot, f: Frame, env: Env)
    requires ReceiverInv(s) && f.FileChunk? && s.inc.Some?
    ensures var r, t := OnChunk(s, f, env), s.inc.value;
      && r.sent == [] && r.slot.out == s.out
      && (r == Quiet(s) <==> !Expected(t, f))
      && (Expected(t, f) ==>
            if !Storable(t, f, env) || (f.last && !Completes(t, f, env)) then
              && r.slot.inc.None? && r.slot.saved == s.saved
              && r.notices != [] && r.notices[|r.notices| - 1].TransferFailed?
            else if f.last then
              && r.slot.inc.None? && r.slot.saved.None? && r.notices != []
              && r.notices[|r.notices| - 1] == FileReceived(t.peer, FileNames.FreeName(env.existing, t.finalPath),
                                                            t.name, Content(t) + Opened(t, f))
            else
              && r.slot.inc.Some? && Content(r.slot.inc.value) == Content(t) + Opened(t, f)
              && r.slot.inc.value.chunksReceived == t.chunksReceived + 1
              && r.notices == if t.file.None? then [Started(s.id, false)] else [])
  {
    hide FileNames.FreeName, NonceFor, OpenBox;
  }

  /** A file is reported exactly when the expected last chunk completes it. */
  lemma ReportsIff(s: Slot, e: Event, host: Host, env: Env)
    requires ReceiverInv(s)
    ensures (exists n :: n in Step(s, e, host, env).notices && n.FileReceived?)
       <==> e.Receive? && e.frame.FileChunk? && s.inc.Some?
            && Expected(s.inc.value, e.frame) && Storable(s.inc.value, e.frame, env)
            && Completes(s.inc.value, e.frame, env)
  {
    if SenderSide(e) {
      SenderSideApart(s, e, host, env);
    } else if e.Receive? && e.frame.FileChunk? && s.inc.Some? {
      hide FileNames.FreeName, NonceFor, OpenBox;
      ChunkReportsIff(s, e.frame, env);
    }
  }

  lemma ChunkReportsIff(s: Slot, f: Frame, env: Env)
    requires ReceiverInv(s) && f.FileChunk? && s.inc.Some?
    ensures (exists n :: n in OnChunk(s, f, env).notices && n.FileReceived?)
       <==> Expected(s.inc.value, f) && Storable(s.inc.value, f, env) && Completes(s.inc.value, f, env)
  {
    hide FileNames.FreeName, NonceFor, OpenBox;
    ChunkOutcome(s, f, env);
    var r := OnChunk(s, f, env);
    assert r.notices != [] ==> r.notices[|r.notices| - 1] in r.notices;
  }

  predicate SenderSide(e: Event) {
    e.SendFile? || e.HashDone? || e.Continue?
    || (e.Receive? && (e.frame.FileAccept? || e.frame.FileReject? || e.frame.FileResumeRequest?))
  }

  /** Handlers of the sending side leave the incoming entry alone and report no received file. */
  lemma SenderSideApart(s: Slot, e: Event, host: Host, env: Env)
    requires SenderSide(e)
    ensures Step(s, e, host, env).slot.inc == s.inc
    ensures forall n :: n in Step(s, e, host, env).notices ==> !n.FileReceived?
  {}

  lemma StepInStep(s: Slot, e: Event, host: Host, env: Env)
    requires ReceiverInv(s)
    ensures Honest(s, Step(s, e, host, env))
    ensures var r := Step(s, e, host, env);
      r.slot.inc.Some? ==> r.slot.inc.value.expectedHash in OfferedHashes(s, [(e, env)])
  {
    assert [(e, env)][0] == (e, env);
    if SenderSide(e) {
      SenderSideApart(s, e, host, env);
    } else if e.Receive? && e.frame.FileChunk? {
      ChunkHonest(s, e.frame, env);
    } else if e.Receive? && e.frame.FileOffer? {
      assert e.frame.hash in OfferedHashes(s, [(e, env)]);
    }
  }

  /**
   * Across every run, whatever arrives, the receiver stays in step, and a file is reported as received only
   * when its content has the digest some offer announced.
   */
  lemma {:induction false} RunInStep(s: Slot, es: seq<(Event, Env)>, host: Host)
    requires ReceiverInv(s)
    ensures ReceiverInv(Run(s, es, host).slot)
    ensures forall n :: n in Run(s, es, host).notices && n.FileReceived? ==> Sha256(n.content) in OfferedHashes(s, es)
    decreases |es|
  {
    if es != [] {
      var (e, env) := es[0];
      StepInStep(s, e, host, env);
      var r := Step(s, e, host, env);
      RunInStep(r.slot, es[1..], host);
      OfferedHashesSplit(s, r.slot, es);
    }
  }

  lemma OfferedHashesSplit(s: Slot, next: Slot, es: seq<(Event, Env)>)
    requires es != []
    requires next.inc.Some? ==> next.inc.value.expectedHash in OfferedHashes(s, [es[0]])
    ensures OfferedHashes(next, es[1..]) <= OfferedHashes(s, es)
  {
    forall h | h in OfferedHashes(next, es[1..])
      ensures h in OfferedHashes(s, es)
    {
      if !(next.inc.Some? && h == next.inc.value.expectedHash) {
        var i :| 0 <= i < |es[1..]| && es[1..][i].0.Receive? && es[1..][i].0.frame.FileOffer?
              && es[1..][i].0.frame.hash == h;
        assert es[i + 1] == es[1..][i];
      }
    }
  }

  // Chunks of one file, over a link that loses, repeats, reorders and recombines

  /** The entry belongs to the offer of this source. */
  ghost predicate ForSource(t: Incoming, src: Source) {
    && t.key == src.key && t.nonce == src.nonce && t.expectedHash == Sha256(src.data)
    && t.fileSize == |src.data| && IsInt64(t.fileSize)
    && InStep(t)
  }

  /** The temporary file is exactly the file's first min(chunksReceived*65536, size) bytes. */
  ghost predicate HoldsPrefix(t: Incoming, src: Source) {
    && ForSource(t, src)
    && 0 <= t.chunksReceived <= ChunkCount(|src.data|)
    && (t.file.None? ==> t.chunksReceived == 0)
    && Content(t) == Prefix(src.data, t.chunksReceived)
  }

  /** A box under the file's key was sealed by the sender; any other box is arbitrary. */
  ghost predicate Genuine(box: Box, src: Source) {
    box.Sealed? && box.key == src.key ==>
      exists j :: 0 <= j < ChunkCount(|src.data|)
        && box == Sealed(src.key, NonceFor(src.nonce, j), ChunkAt(src.data, j))
  }

  ghost predicate Usable(src: Source) {
    |src.nonce| >= 8 && IsInt64(|src.data|)
  }

  /** A genuine box opens under sequence number n only when it is chunk n. */
  lemma OpensOnlyItsChunk(box: Box, src: Source, n: int)
    requires Usable(src) && Genuine(box, src) && IsInt64(n)
    requires OpenBox(box, src.key, NonceFor(src.nonce, n)) != []
    ensures 0 <= n < ChunkCount(|src.data|)
    ensures OpenBox(box, src.key, NonceFor(src.nonce, n)) == ChunkAt(src.data, n)
  {
    var j :| 0 <= j < ChunkCount(|src.data|) && box == Sealed(src.key, NonceFor(src.nonce, j), ChunkAt(src.data, j));
    NonceInjective(src.nonce, j, n);
  }

  /**
   * What the receiver's slot may see: anything, provided boxes are genuine, offers of this id repeat the
   * sender's own, and a resume acknowledgement names the chunk that is due.
   */
  ghost predicate ReceiverEvent(s: Slot, e: Event, src: Source) {
    && (e.Receive? && e.frame.FileChunk? ==> Genuine(e.frame.box, src) && IsInt64(e.frame.seqNo))
    && (e.Receive? && e.frame.FileOffer? ==>
          && e.frame.size == |src.data| && e.frame.hash == Sha256(src.data)
          && OfferKey(e.frame.envelope) == Some((src.key, src.nonce)))
    && (e.Receive? && e.frame.FileResumeAck? && s.inc.Some? ==> e.frame.resumeFrom == s.inc.value.chunksReceived)
  }

  ghost predicate PrefixInv(s: Slot, src: Source) {
    s.inc.Some? ==> HoldsPrefix(s.inc.value, src)
  }

  lemma ChunkKeepsPrefix(s: Slot, f: Frame, env: Env, src: Source)
    requires Usable(src) && PrefixInv(s, src) && f.FileChunk? && Genuine(f.box, src) && IsInt64(f.seqNo)
    ensures PrefixInv(OnChunk(s, f, env).slot, src)
  {
    hide Prefix, ChunkAt, NonceFor, OpenBox, Genuine;
    if s.inc.Some? {
      var t := s.inc.value;
      if OpenBox(f.box, t.key, NonceFor(t.nonce, f.seqNo)) != [] {
        OpensOnlyItsChunk(f.box, src, f.seqNo);
        PrefixGrows(src.data, f.seqNo);
      }
    }
  }

  lemma StepKeepsPrefix(s: Slot, e: Event, host: Host, env: Env, src: Source)
    requires Usable(src) && PrefixInv(s, src) && ReceiverEvent(s, e, src)
    ensures PrefixInv(Step(s, e, host, env).slot, src)
    ensures forall n :: n in Step(s, e, host, env).notices && n.FileReceived? ==> n.content == src.data
  {
    StepInStep(s, e, host, env);
    if SenderSide(e) {
      SenderSideApart(s, e, host, env);
    } else if e.Receive? && e.frame.FileChunk? {
      ChunkKeepsPrefix(s, e.frame, env, src);
    }
  }

  /**
   * The acknowledgement condition is exact: setting the counter to n keeps the prefix property if and only if
   * n is the number of chunks already there.
   */
  lemma AckKeepsPrefixIff(s: Slot, from: string, n: int, host: Host, env: Env, src: Source)
    requires s.inc.Some? && HoldsPrefix(s.inc.value, src)
    ensures PrefixInv(Step(s, Receive(from, FileResumeAck(n)), host, env).slot, src)
        <==> n == s.inc.value.chunksReceived
  {
    var c := s.inc.value.chunksReceived;
    if 0 <= n <= ChunkCount(|src.data|) && n != c {
      assert |Prefix(src.data, n)| != |Prefix(src.data, c)|;
    }
  }

  /** What the taking of the last chunk ends with. */
  ghost function LastNotice(s: Slot, env: Env, src: Source): Notice
    requires s.inc.Some?
  {
    if env.moveOk
    then FileReceived(s.inc.value.peer, FileNames.FreeName(env.existing, s.inc.value.finalPath), s.inc.value.name,
                      src.data)
    else TransferFailed(s.id, "save")
  }

  lemma LastChunk(s: Slot, env: Env, src: Source, j: nat)
    requires Usable(src) && s.inc.Some? && HoldsPrefix(s.inc.value, src)
    requires s.inc.value.state != Paused && s.inc.value.state != Cancelled && (s.inc.value.file.Some? || env.tempOpens)
    requires j == s.inc.value.chunksReceived && ChunkFrame(src, j).last
    ensures var r := OnChunk(s, ChunkFrame(src, j), env);
      r.slot.inc.None? && r.notices != [] && r.notices[|r.notices| - 1] == LastNotice(s, env, src)
  {
    ChunkExistsIff(src.data, j);
    PrefixGrows(src.data, j);
    PrefixFull(src.data, j + 1);
  }

  /** When the frame the sender marked last is taken, the whole file is there: no hash mismatch is possible. */
  lemma LastChunkCompletes(s: Slot, from: string, host: Host, env: Env, src: Source, j: nat)
    requires Usable(src) && s.inc.Some? && HoldsPrefix(s.inc.value, src)
    requires s.inc.value.state != Paused && s.inc.value.state != Cancelled && (s.inc.value.file.Some? || env.tempOpens)
    requires j == s.inc.value.chunksReceived && ChunkFrame(src, j).last
    ensures var r := Step(s, Receive(from, ChunkFrame(src, j)), host, env);
      r.slot.inc.None? && r.notices != [] && r.notices[|r.notices| - 1] == LastNotice(s, env, src)
  {
    hide OnChunk, LastNotice, HoldsPrefix;
    LastChunk(s, env, src, j);
  }

  // Resuming

  /** Chunk c is missing from what was received, and the counter is past it. */
  ghost predicate LacksChunk(s: Slot, src: Source, c: nat) {
    && c < ChunkCount(|src.data|)
    && (s.inc.Some? ==>
          var t := s.inc.value;
          && ForSource(t, src) && c < t.chunksReceived
          && |Content(t)| + |ChunkAt(src.data, c)| <= |Prefix(src.data, t.chunksReceived)|)
  }

  /** No new offer of the id, and no acknowledgement that sets the counter back. */
  ghost predicate NoNewStart(s: Slot, e: Event, src: Source) {
    && !(e.Receive? && e.frame.FileOffer?)
    && (e.Receive? && e.frame.FileResumeAck? && s.inc.Some? ==> e.frame.resumeFrom >= s.inc.value.chunksReceived)
    && (e.Receive? && e.frame.FileChunk? ==> Genuine(e.frame.box, src) && IsInt64(e.frame.seqNo))
  }

  lemma ChunkLacksChunk(s: Slot, f: Frame, env: Env, src: Source, c: nat)
    requires Usable(src) && LacksChunk(s, src, c) && f.FileChunk? && Genuine(f.box, src) && IsInt64(f.seqNo)
    ensures LacksChunk(OnChunk(s, f, env).slot, src, c)
    ensures forall n :: n in OnChunk(s, f, env).notices ==> !n.FileReceived?
  {
    hide TakePlain, ChunkAt, Prefix, NonceFor, OpenBox, Genuine;
    if s.inc.Some? {
      var t := s.inc.value;
      var ready := if t.file.Some? then t else t.(file := Some([]), hasher := [], state := Active);
      var plain := OpenBox(f.box, t.key, NonceFor(t.nonce, f.seqNo));
      if f.seqNo == t.chunksReceived {
        if plain != [] {
          OpensOnlyItsChunk(f.box, src, f.seqNo);
          PrefixGrows(src.data, f.seqNo);
        }
        TakeLacksChunk(s.(inc := Some(ready)), plain, f.last, env, src, c);
      }
    }
  }

  lemma TakeLacksChunk(s: Slot, plain: seq<Byte>, last: bool, env: Env, src: Source, c: nat)
    requires LacksChunk(s, src, c) && s.inc.Some? && s.inc.value.file.Some?
    requires var n := s.inc.value.chunksReceived;
      plain != [] ==> |Prefix(src.data, n)| + |plain| == |Prefix(src.data, n + 1)|
    ensures LacksChunk(TakePlain(s, plain, last, env).slot, src, c)
    ensures forall n :: n in TakePlain(s, plain, last, env).notices ==> !n.FileReceived?
  {
    ChunkExistsIff(src.data, c);
    PrefixWithin(src.data, s.inc.value.chunksReceived + 1);
    hide ChunkAt, Prefix;
    assert plain != [] ==> |Content(s.inc.value) + plain| < |src.data|;
  }

  lemma PrefixWithin(data: seq<Byte>, n: nat)
    ensures |Prefix(data, n)| <= |data|
  {}

  lemma PrefixMonotone(data: seq<Byte>, m: nat, n: nat)
    requires m <= n
    ensures |Prefix(data, m)| <= |Prefix(data, n)|
  {}

  lemma StepLacksChunk(s: Slot, e: Event, host: Host, env: Env, src: Source, c: nat)
    requires Usable(src) && LacksChunk(s, src, c) && NoNewStart(s, e, src)
    ensures LacksChunk(Step(s, e, host, env).slot, src, c)
    ensures forall n :: n in Step(s, e, host, env).notices ==> !n.FileReceived?
  {
    if SenderSide(e) {
      SenderSideApart(s, e, host, env);
    } else if e.Receive? && e.frame.FileChunk? {
      ChunkLacksChunk(s, e.frame, env, src, c);
    } else if e.Receive? && e.frame.FileResumeAck? && s.inc.Some? {
      PrefixMonotone(src.data, s.inc.value.chunksReceived, e.frame.resumeFrom);
    }
  }

  /** A run without a new start. */
  ghost predicate NoNewStarts(s: Slot, es: seq<(Event, Env)>, host: Host, src: Source)
    decreases |es|
  {
    es == [] || (NoNewStart(s, es[0].0, src) && NoNewStarts(Step(s, es[0].0, host, es[0].1).slot, es[1..], host, src))
  }

  lemma {:induction false} NeverCompletes(s: Slot, es: seq<(Event, Env)>, host: Host, src: Source, c: nat)
    requires Usable(src) && LacksChunk(s, src, c) && NoNewStarts(s, es, host, src)
    ensures forall n :: n in Run(s, es, host).notices ==> !n.FileReceived?
    decreases |es|
  {
    if es != [] {
      StepLacksChunk(s, es[0].0, host, es[0].1, src, c);
      NeverCompletes(Step(s, es[0].0, host, es[0].1).slot, es[1..], host, src, c);
    }
  }

  /**
   * Resuming as the two sides do it: the receiver asks, the sender answers if it can, the receiver hears the answer.
   */
  ghost function Handshake(rcv: Slot, snd: Slot, me: string, hostR: Host, hostS: Host, env: Env): Slot
    requires rcv.inc.Some? && Resumed(snd, rcv.inc.value.chunksReceived, hostS, env).Some?
  {
    var ask := Step(rcv, Resume, hostR, env);
    var answer := Step(snd, Receive(me, ask.sent[0].frame), hostS, env);
    Step(ask.slot, Receive(ask.sent[0].to, answer.sent[0].frame), hostR, env).slot
  }

  /** A sender that has neither the transfer nor a saved state it can load and reopen does not answer. */
  lemma AnswersIffResumed(snd: Slot, me: string, last: int, hostS: Host, env: Env)
    ensures var r := Step(snd, Receive(me, FileResumeRequest(last)), hostS, env);
      (r.sent != [] && r.sent[0].frame == FileResumeAck(NextChunk(last))) <==> Resumed(snd, last, hostS, env).Some?
  {}

  /** The receiver asks with the number of chunks it has, the sender adds one, and the receiver counts on from there. */
  lemma HandshakeAddsOne(rcv: Slot, snd: Slot, me: string, hostR: Host, hostS: Host, env: Env, src: Source)
    requires rcv.inc.Some? && HoldsPrefix(rcv.inc.value, src)
    requires Resumed(snd, rcv.inc.value.chunksReceived, hostS, env).Some?
    ensures Handshake(rcv, snd, me, hostR, hostS, env).inc
         == Some(rcv.inc.value.(state := Active, chunksReceived := rcv.inc.value.chunksReceived + 1))
  {
    hide Prefix, SendNext, Resumed;
    assert NextChunk(rcv.inc.value.chunksReceived) == rcv.inc.value.chunksReceived + 1;
  }

  /** Hence the chunk in between is skipped, whether the sender answers from memory or from its saved state. */
  lemma ResumeSkipsAChunk(rcv: Slot, snd: Slot, me: string, hostR: Host, hostS: Host, env: Env, src: Source)
    requires rcv.inc.Some? && HoldsPrefix(rcv.inc.value, src) && rcv.inc.value.chunksReceived < ChunkCount(|src.data|)
    requires Resumed(snd, rcv.inc.value.chunksReceived, hostS, env).Some?
    ensures var resumed := Handshake(rcv, snd, me, hostR, hostS, env);
      && resumed.inc == Some(rcv.inc.value.(state := Active, chunksReceived := rcv.inc.value.chunksReceived + 1))
      && LacksChunk(resumed, src, rcv.inc.value.chunksReceived)
  {
    HandshakeAddsOne(rcv, snd, me, hostR, hostS, env, src);
    hide Prefix, ChunkAt, Handshake;
    PrefixGrows(src.data, rcv.inc.value.chunksReceived);
  }

  /** The counter is past the file's chunks: no chunk can be taken any more. */
  ghost predicate PastEnd(s: Slot, src: Source) {
    s.inc.Some? ==> ForSource(s.inc.value, src) && s.inc.value.chunksReceived >= ChunkCount(|src.data|)
  }

  lemma ChunkPastEnd(s: Slot, f: Frame, env: Env, src: Source)
    requires Usable(src) && PastEnd(s, src) && f.FileChunk? && Genuine(f.box, src) && IsInt64(f.seqNo)
    ensures PastEnd(OnChunk(s, f, env).slot, src)
    ensures forall n :: n in OnChunk(s, f, env).notices ==> !n.FileReceived?
  {
    hide ChunkAt, NonceFor, OpenBox, Genuine, Finish;
    if s.inc.Some? {
      var t := s.inc.value;
      if OpenBox(f.box, t.key, NonceFor(t.nonce, f.seqNo)) != [] {
        OpensOnlyItsChunk(f.box, src, f.seqNo);
      }
    }
  }

  lemma StepPastEnd(s: Slot, e: Event, host: Host, env: Env, src: Source)
    requires Usable(src) && PastEnd(s, src) && NoNewStart(s, e, src)
    ensures PastEnd(Step(s, e, host, env).slot, src)
    ensures forall n :: n in Step(s, e, host, env).notices ==> !n.FileReceived?
  {
    if SenderSide(e) {
      SenderSideApart(s, e, host, env);
    } else if e.Receive? && e.frame.FileChunk? {
      ChunkPastEnd(s, e.frame, env, src);
    }
  }

  /** All chunks arrived, but none was marked last: without a new start the file is never reported. */
  lemma {:induction false} PastEndNeverCompletes(s: Slot, es: seq<(Event, Env)>, host: Host, src: Source)
    requires Usable(src) && PastEnd(s, src) && NoNewStarts(s, es, host, src)
    ensures forall n :: n in Run(s, es, host).notices ==> !n.FileReceived?
    decreases |es|
  {
    if es != [] {
      StepPastEnd(s, es[0].0, host, es[0].1, src);
      PastEndNeverCompletes(Step(s, es[0].0, host, es[0].1).slot, es[1..], host, src);
    }
  }

  /**
   * Whatever follows a resume, further resumes included, and however many chunks were there, no file is reported
   * unless an acknowledgement sets the counter back.
   */
  lemma {:induction false} ResumeNeverCompletes(rcv: Slot, snd: Slot, me: string, es: seq<(Event, Env)>, hostR: Host,
                                                hostS: Host, env: Env, src: Source)
    requires Usable(src) && rcv.inc.Some? && HoldsPrefix(rcv.inc.value, src)
    requires Resumed(snd, rcv.inc.value.chunksReceived, hostS, env).Some?
    requires NoNewStarts(Handshake(rcv, snd, me, hostR, hostS, env), es, hostR, src)
    ensures forall n :: n in Run(Handshake(rcv, snd, me, hostR, hostS, env), es, hostR).notices ==> !n.FileReceived?
  {
    var resumed := Handshake(rcv, snd, me, hostR, hostS, env);
    if rcv.inc.value.chunksReceived < ChunkCount(|src.data|) {
      ResumeSkipsAChunk(rcv, snd, me, hostR, hostS, env, src);
      NeverCompletes(resumed, es, hostR, src, rcv.inc.value.chunksReceived);
    } else {
      HandshakeAddsOne(rcv, snd, me, hostR, hostS, env, src);
      PastEndNeverCompletes(resumed, es, hostR, src);
    }
  }

  /**
   * The condition is needed: right after a resume, an acknowledgement repairs the transfer exactly when it sets the
   * counter back to what it was.
   */
  lemma AckBackRepairsIff(rcv: Slot, snd: Slot, me: string, from: string, n: int, hostR: Host, hostS: Host, env: Env,
                          src: Source)
    requires rcv.inc.Some? && HoldsPrefix(rcv.inc.value, src)
    requires Resumed(snd, rcv.inc.value.chunksReceived, hostS, env).Some?
    ensures var resumed := Handshake(rcv, snd, me, hostR, hostS, env);
      PrefixInv(Step(resumed, Receive(from, FileResumeAck(n)), hostR, env).slot, src)
      <==> n == rcv.inc.value.chunksReceived
  {
    HandshakeAddsOne(rcv, snd, me, hostR, hostS, env, src);
    AckKeepsPrefixIff(rcv, from, n, hostR, env, src);
    hide Handshake, LacksChunk;
    var resumed := Handshake(rcv, snd, me, hostR, hostS, env);
    assert Step(resumed, Receive(from, FileResumeAck(n)), hostR, env).slot.inc
        == Step(rcv, Receive(from, FileResumeAck(n)), hostR, env).slot.inc;
  }

  // The two sides together

  /** The sender's slot, the receiver's slot, every frame the sender put on the link, what the receiver reported. */
  datatype System = System(snd: Slot, rcv: Slot, wire: seq<Outbound>, reported: seq<Notice>)

  datatype Action = AtSender(e: Event, env: Env) | AtReceiver(e: Event, env: Env)

  ghost function Act(sys: System, a: Action, hostS: Host, hostR: Host): System {
    match a
    case AtSender(e, env) =>
      var r := Step(sys.snd, e, hostS, env);
      sys.(snd := r.slot, wire := sys.wire + r.sent)
    case AtReceiver(e, env) =>
      var r := Step(sys.rcv, e, hostR, env);
      sys.(rcv := r.slot, reported := sys.reported + r.notices)
  }

  /** Some frame on the link carries this box. */
  ghost predicate OnWire(box: Box, wire: seq<Outbound>) {
    exists i :: 0 <= i < |wire| && wire[i].frame.FileChunk? && wire[i].frame.box == box
  }

  /**
   * The link may lose, repeat and reorder frames and recombine their fields; it cannot seal boxes under the
   * file's key. Every other event on either side is free, within SenderEvent and the exact resume condition.
   */
  ghost predicate Possible(sys: System, a: Action, hostS: Host, src: Source) {
    match a
    case AtSender(e, env) => SenderEvent(sys.snd, e, hostS, env, src)
    case AtReceiver(e, _) =>
      && (e.Receive? && e.frame.FileChunk? ==>
            && IsInt64(e.frame.seqNo)
            && (e.frame.box.Sealed? && e.frame.box.key == src.key ==> OnWire(e.frame.box, sys.wire)))
      && (!(e.Receive? && e.frame.FileChunk?) ==> ReceiverEvent(sys.rcv, e, src))
  }

  ghost predicate SystemInv(sys: System, src: Source) {
    && SenderInv(sys.snd, src) && AllWellSealed(sys.wire, src)
    && PrefixInv(sys.rcv, src)
    && forall n :: n in sys.reported && n.FileReceived? ==> n.content == src.data
  }

  lemma ActKeepsInv(sys: System, a: Action, hostS: Host, hostR: Host, src: Source)
    requires Usable(src) && OnDisk(src, hostS) && SystemInv(sys, src) && Possible(sys, a, hostS, src)
    ensures SystemInv(Act(sys, a, hostS, hostR), src)
  {
    match a
    case AtSender(e, env) => StepAligned(sys.snd, e, hostS, env, src);
    case AtReceiver(e, env) =>
      if e.Receive? && e.frame.FileChunk? && e.frame.box.Sealed? && e.frame.box.key == src.key {
        var i :| 0 <= i < |sys.wire| && sys.wire[i].frame.FileChunk? && sys.wire[i].frame.box == e.frame.box;
        assert WellSealed(sys.wire[i].frame, src);
      }
      StepKeepsPrefix(sys.rcv, e, hostR, env, src);
  }

  ghost predicate PossibleRun(sys: System, acts: seq<Action>, hostS: Host, hostR: Host, src: Source)
    decreases |acts|
  {
    acts == []
    || (&& Possible(sys, acts[0], hostS, src)
        && PossibleRun(Act(sys, acts[0], hostS, hostR), acts[1..], hostS, hostR, src))
  }

  ghost function ActAll(sys: System, acts: seq<Action>, hostS: Host, hostR: Host): System
    decreases |acts|
  {
    if acts == [] then sys else ActAll(Act(sys, acts[0], hostS, hostR), acts[1..], hostS, hostR)
  }

  /**
   * In every reachable state the temporary file is a prefix of the sent file, and only the whole file was ever
   * reported.
   */
  lemma {:induction false} SystemSafe(sys: System, acts: seq<Action>, hostS: Host, hostR: Host, src: Source)
    requires Usable(src) && OnDisk(src, hostS) && SystemInv(sys, src) && PossibleRun(sys, acts, hostS, hostR, src)
    ensures SystemInv(ActAll(sys, acts, hostS, hostR), src)
    decreases |acts|
  {
    if acts != [] {
      ActKeepsInv(sys, acts[0], hostS, hostR, src);
      SystemSafe(Act(sys, acts[0], hostS, hostR), acts[1..], hostS, hostR, src);
    }
  }

  // Delivery over a link that keeps every frame in order

  function Deliveries(from: string, fs: seq<Outbound>, env: Env): seq<(Event, Env)> {
    seq(|fs|, i requires 0 <= i < |fs| => (Receive(from, fs[i].frame), env))
  }

  /** A slot ready to take chunk j of the source. */
  ghost predicate Taking(s: Slot, src: Source, j: nat) {
    && s.inc.Some? && HoldsPrefix(s.inc.value, src) && j == s.inc.value.chunksReceived < ChunkCount(|src.data|)
    && (s.inc.value.state == Pending || s.inc.value.state == Active)
  }

  /** The slot once chunk j is stored. */
  function Stored(s: Slot, src: Source, j: nat): Slot
    requires s.inc.Some?
  {
    var t := s.inc.value;
    s.(inc := Some(t.(file := Some(Prefix(src.data, j + 1)), hasher := Prefix(src.data, j + 1),
                      bytesReceived := |Prefix(src.data, j + 1)|, chunksReceived := j + 1,
                      state := if t.file.Some? then t.state else Active)))
  }

  lemma TakeOne(s: Slot, env: Env, src: Source, j: nat)
    requires Usable(src) && Taking(s, src, j) && env.tempOpens && j + 1 < ChunkCount(|src.data|)
    ensures s.inc.Some? && Taking(Stored(s, src, j), src, j + 1)
    ensures OnChunk(s, ChunkFrame(src, j), env)
         == Effect(Stored(s, src, j), [], 0, if s.inc.value.file.None? then [Started(s.id, false)] else [])
  {
    ChunkExistsIff(src.data, j);
    PrefixGrows(src.data, j);
  }

  /** What the listeners hear when the last chunk is taken and the file is moved to its place. */
  ghost function Ending(s: Slot, env: Env, src: Source): seq<Notice>
    requires s.inc.Some?
  {
    var path := FileNames.FreeName(env.existing, s.inc.value.finalPath);
    [TransferCompleted(s.id, path, false), FileReceived(s.inc.value.peer, path, s.inc.value.name, src.data)]
  }

  /** What they hear of the rest of a delivery, its start included if no chunk was taken before. */
  ghost function Delivery(s: Slot, env: Env, src: Source): Effect
    requires s.inc.Some?
  {
    Effect(s.(inc := None, saved := None), [], 0,
           (if s.inc.value.file.None? then [Started(s.id, false)] else []) + Ending(s, env, src))
  }

  /** Delivering the rest of a transmission starts with handling its first chunk. */
  lemma {:induction false} DeliverUnfolds(s: Slot, from: string, peer: string, hash: Option<Digest>, host: Host,
                                          env: Env, src: Source, j: nat)
    requires j < ChunkCount(|src.data|)
    ensures var first := OnChunk(s, ChunkFrame(src, j), env);
      var rest := Run(first.slot, Deliveries(from, Transmission(src, s.id, peer, hash, j + 1), env), host);
      Run(s, Deliveries(from, Transmission(src, s.id, peer, hash, j), env), host)
      == Effect(rest.slot, first.sent + rest.sent, first.posted + rest.posted, first.notices + rest.notices)
  {
    var rest := Deliveries(from, Transmission(src, s.id, peer, hash, j + 1), env);
    var es := Deliveries(from, Transmission(src, s.id, peer, hash, j), env);
    assert es[0] == (Receive(from, ChunkFrame(src, j)), env);
    assert es[1..] == rest;
  }

  /** The transmission from chunk j on, delivered in order, is taken and ends with the file reported. */
  lemma {:induction false} DeliverFrom(s: Slot, from: string, peer: string, hash: Option<Digest>, host: Host, env: Env,
                                       src: Source, j: nat)
    requires s.inc.Some? && Usable(src) && Taking(s, src, j) && env.tempOpens && env.moveOk
    requires j < ChunkCount(|src.data|)
    ensures Run(s, Deliveries(from, Transmission(src, s.id, peer, hash, j), env), host) == Delivery(s, env, src)
    decreases ChunkCount(|src.data|) - j
  {
    hide Run, Transmission, Deliveries, OnChunk, Taking, Stored, Delivery, Quiet;
    DeliverUnfolds(s, from, peer, hash, host, env, src, j);
    if j + 1 == ChunkCount(|src.data|) {
      TakeLast(s, env, src, j);
      OnlyCompletion(OnChunk(s, ChunkFrame(src, j), env).slot, from, peer, hash, host, env, src, j + 1);
      NothingMore(Delivery(s, env, src));
    } else {
      TakeOne(s, env, src, j);
      DeliverFrom(Stored(s, src, j), from, peer, hash, host, env, src, j + 1);
      FirstThenDelivery(s, env, src, j);
    }
  }

  lemma NothingMore(r: Effect)
    ensures r == Effect(Quiet(r.slot).slot, r.sent + Quiet(r.slot).sent, r.posted + Quiet(r.slot).posted,
                        r.notices + Quiet(r.slot).notices)
  {}

  lemma FirstThenDelivery(s: Slot, env: Env, src: Source, j: nat)
    requires s.inc.Some?
    ensures Stored(s, src, j).inc.Some? && Stored(s, src, j).id == s.id
    ensures var rest := Delivery(Stored(s, src, j), env, src);
      Delivery(s, env, src)
      == Effect(rest.slot, [] + rest.sent, 0 + rest.posted,
                (if s.inc.value.file.None? then [Started(s.id, false)] else []) + rest.notices)
  {}

  lemma TakeLast(s: Slot, env: Env, src: Source, j: nat)
    requires Usable(src) && Taking(s, src, j) && env.tempOpens && env.moveOk && j + 1 == ChunkCount(|src.data|)
    ensures s.inc.Some? && Delivery(s, env, src).slot.id == s.id
    ensures OnChunk(s, ChunkFrame(src, j), env) == Delivery(s, env, src)
  {
    hide FileNames.FreeName, NonceFor;
    ChunkExistsIff(src.data, j);
    PrefixGrows(src.data, j);
    PrefixFull(src.data, j + 1);
  }

  /** The completion frame alone changes nothing. */
  lemma {:induction false} OnlyCompletion(s: Slot, from: string, peer: string, hash: Option<Digest>, host: Host,
                                          env: Env, src: Source, j: nat)
    requires j == ChunkCount(|src.data|)
    ensures Run(s, Deliveries(from, Transmission(src, s.id, peer, hash, j), env), host) == Quiet(s)
  {
    var es := Deliveries(from, Transmission(src, s.id, peer, hash, j), env);
    assert es[0] == (Receive(from, FileComplete(hash)), env) && es[1..] == [];
  }

  /** The entry an honest offer creates. */
  ghost predicate Awaiting(s: Slot, src: Source) {
    && s.inc.Some? && HoldsPrefix(s.inc.value, src)
    && s.inc.value.state == Pending && s.inc.value.chunksReceived == 0 && s.inc.value.file.None?
  }

  /** The sent file was reported, under the first free name, from the peer that offered it. */
  ghost predicate Reported(s: Slot, env: Env, src: Source, notices: seq<Notice>)
    requires s.inc.Some?
  {
    var path := FileNames.FreeName(env.existing, s.inc.value.finalPath);
    FileReceived(s.inc.value.peer, path, s.inc.value.name, src.data) in notices
  }

  /**
   * End to end: the frames of an uninterrupted transmission, delivered in order, make the receiver report the
   * file exactly when it is not empty. For an empty file the completion frame is ignored and the entry stays.
   */
  lemma {:induction false} DeliveredIffNonEmpty(s: Slot, from: string, peer: string, hash: Option<Digest>, host: Host,
                                                env: Env, src: Source)
    requires Usable(src) && Awaiting(s, src) && env.tempOpens && env.moveOk
    ensures var r := Run(s, Deliveries(from, Transmission(src, s.id, peer, hash, 0), env), host);
      && (Reported(s, env, src, r.notices) <==> src.data != [])
      && r == if src.data == [] then Quiet(s) else Delivery(s, env, src)
  {
    hide Run, Transmission, Deliveries, FileNames.FreeName, HoldsPrefix;
    if src.data != [] {
      AwaitingTakes(s, src);
      DeliverFrom(s, from, peer, hash, host, env, src, 0);
      var r := Delivery(s, env, src);
      assert r.notices[|r.notices| - 1] == Ending(s, env, src)[1];
    } else {
      OnlyCompletion(s, from, peer, hash, host, env, src, 0);
    }
  }

  lemma AwaitingTakes(s: Slot, src: Source)
    requires Awaiting(s, src) && src.data != []
    ensures Taking(s, src, 0) && ChunkCount(|src.data|) > 0
  {}
}
