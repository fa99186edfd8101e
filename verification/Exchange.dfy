/**
 * Both ends of one transfer (src/transfer/filetransfer.cpp): what one side sends, delivered to the other, from the
 * offer to the stored file, and how a reject, a cancel and a pause reach the other side.
 */
module Exchange {
  import opened Text
  import opened Bytes
  import opened Int64
  import opened Chunks
  import opened TransferModel
  import opened Sender
  import opened Receiver
  import opened Pausing
  import FileNames

  /** What sendFile was asked to send, and to whom. */
  datatype Order = Order(id: string, peer: string, path: string, name: string, durationMs: int, src: Source)

  /** A readable file of 64-bit size, under a key and base nonce as sendFile makes them. */
  ghost predicate Sendable(o: Order, hostS: Host) {
    && o.path == o.src.path && o.path in hostS.disk && OnDisk(o.src, hostS)
    && |o.src.key| == KEY_SIZE && |o.src.nonce| == NONCE_SIZE
  }

  function EmptySlot(id: string): Slot {
    Slot(id, None, None, None)
  }

  /** The slot and the frames after sendFile and the computed digest. */
  ghost function Offering(o: Order, hostS: Host, env: Env): Effect {
    var asked := SendFile(o.peer, o.path, o.name, |o.src.data|, o.src.key, o.src.nonce, o.durationMs);
    Step(Step(EmptySlot(o.id), asked, hostS, env).slot, HashDone(Some(Sha256(o.src.data))), hostS, env)
  }

  /** Exactly one frame goes out, to the peer and under the transfer's id; the transfer waits for the answer. */
  lemma OfferGoesOut(o: Order, hostS: Host, env: Env)
    requires Sendable(o, hostS) && env.session
    ensures var r := Offering(o, hostS, env);
      && |r.sent| == 1 && r.sent[0].to == o.peer && r.sent[0].id == o.id && r.sent[0].frame.FileOffer?
      && OfferedNow(r.slot, o.src) && r.slot.id == o.id && r.slot.saved.None?
      && r.slot.out.value.peer == o.peer && r.slot.out.value.hash == Some(Sha256(o.src.data))
      && r.slot.out.value.name == o.name && r.notices == [] && r.posted == 0
  {}

  /** Without an encrypted session no offer leaves: the transfer fails, and the key with it. */
  lemma NoOfferWithoutSession(o: Order, hostS: Host, env: Env)
    requires !env.session
    ensures Offering(o, hostS, env) == Effect(EmptySlot(o.id), [], 0, [TransferFailed(o.id, "no session")])
  {}

  /** The receiver's slot once the offer that was sent has reached it. */
  ghost function OfferTaken(o: Order, from: string, hostS: Host, hostR: Host, env: Env): Effect
    requires Offering(o, hostS, env).sent != []
  {
    Step(EmptySlot(o.id), Receive(from, Offering(o, hostS, env).sent[0].frame), hostR, env)
  }

  lemma KeyMaterialSplits(key: seq<Byte>, nonce: seq<Byte>)
    requires |key| == KEY_SIZE && |nonce| == NONCE_SIZE
    ensures OfferKey(InSession(Some(key + nonce))) == Some((key, nonce))
  {
    assert (key + nonce)[..KEY_SIZE] == key && (key + nonce)[KEY_SIZE..KEY_SIZE + NONCE_SIZE] == nonce;
  }

  /**
   * The offer carries the transfer: the entry it makes awaits the very file, under its key and nonce, the sanitized
   * name and the path for it, and the user is asked with the offered name, size and duration.
   */
  lemma OfferArrives(o: Order, from: string, hostS: Host, hostR: Host, env: Env)
    requires Sendable(o, hostS) && env.session
    ensures Offering(o, hostS, env).sent != []
    ensures var r, name := OfferTaken(o, from, hostS, hostR, env), FileNames.Sanitize(o.name);
      && Awaiting(r.slot, o.src) && r.slot.id == o.id && r.slot.out.None? && r.slot.saved.None?
      && r.slot.inc.value.peer == from && r.slot.inc.value.name == name
      && r.slot.inc.value.finalPath == hostR.pathFor(name)
      && r.sent == [] && r.posted == 0
      && r.notices == [Offered(from, name, |o.src.data|, o.id, if o.durationMs > 0 then o.durationMs else 0)]
  {
    hide FileNames.Sanitize, OfferKey;
    KeyMaterialSplits(o.src.key, o.src.nonce);
    assert Prefix(o.src.data, 0) == [];
  }

  /** The envelope holds this key and base nonce: in clear, or as the first 44 bytes of what the session decrypts. */
  ghost predicate Holds(envelope: Envelope, key: seq<Byte>, nonce: seq<Byte>) {
    || envelope == InClear(key, nonce)
    || (|key| == 32 && |nonce| == 12 && exists rest :: envelope == InSession(Some(key + nonce + rest)))
  }

  lemma KeyReadIff(envelope: Envelope, key: seq<Byte>, nonce: seq<Byte>)
    ensures OfferKey(envelope) == Some((key, nonce)) <==> Holds(envelope, key, nonce)
  {
    if envelope.InSession? && envelope.keyMaterial.Some? {
      var m := envelope.keyMaterial.value;
      if |m| >= 44 {
        assert m == m[..32] + m[32..44] + m[44..];
      }
      forall rest | m == key + nonce + rest && |key| == 32 && |nonce| == 12
        ensures OfferKey(envelope) == Some((key, nonce))
      {
        assert m[..32] == key && m[32..44] == nonce;
      }
    }
  }

  /** An offer is entered exactly if its size is not negative and its envelope holds a key, and then under that key. */
  lemma OfferEnteredIff(s: Slot, from: string, f: Frame, host: Host, env: Env, key: seq<Byte>, nonce: seq<Byte>)
    requires f.FileOffer?
    ensures var r, name := Step(s, Receive(from, f), host, env), FileNames.Sanitize(f.name);
      && (f.size >= 0 && Holds(f.envelope, key, nonce) ==>
            r.slot == s.(inc := Some(Incoming(from, name, host.pathFor(name), f.size, f.hash, key, nonce, 0, 0, None,
                                              [], Pending))))
      && (f.size < 0 || (forall k, n :: !Holds(f.envelope, k, n)) ==> r == Quiet(s))
  {
    hide FileNames.Sanitize, Holds, OfferKey;
    KeyReadIff(f.envelope, key, nonce);
    if OfferKey(f.envelope).Some? {
      KeyReadIff(f.envelope, OfferKey(f.envelope).value.0, OfferKey(f.envelope).value.1);
    }
  }

  /** With the paths of a downloads directory, the file of any offer that is entered goes directly into its folder. */
  lemma {:induction false} OfferPath(s: Slot, from: string, f: Frame, host: Host, env: Env, downloads: seq<string>,
                                     absolute: bool)
    requires f.FileOffer? && !Refused(f)
    requires forall n :: host.pathFor(n) == FileNames.SafeDownloadPath(downloads, absolute, n)
    ensures var r := Step(s, Receive(from, f), host, env);
      var folder := FileNames.Render(FileNames.Normal(downloads + [FileNames.APP_DIR], absolute), absolute);
      && r.slot.inc.Some? && FileNames.SafeName(r.slot.inc.value.name)
      && r.slot.inc.value.finalPath == folder + "/" + r.slot.inc.value.name
      && r.slot.inc.value.name == FileNames.Sanitize(f.name)
  {
    hide FileNames.Sanitize, FileNames.SafeDownloadPath, FileNames.SafeName, FileNames.Render, FileNames.Normal;
    FileNames.SanitizeIsSafe(f.name);
    FileNames.SanitizeFixedIffSafe(f.name);
    FileNames.DownloadStaysInBase(downloads, absolute, FileNames.Sanitize(f.name));
  }

  /** The receiver's acceptance is one frame, to the peer that offered. */
  lemma AcceptanceGoesOut(s: Slot, to: string, host: Host, env: Env)
    ensures Step(s, AcceptOffer(to), host, env)
         == if s.inc.None? then Quiet(s) else Effect(s, [Outbound(to, s.id, FileAccept)], 0, [])
  {}

  /** The whole exchange: offer, acceptance, chunks; every frame that one side sends is handed to the other. */
  ghost function WholeSend(o: Order, me: string, hostS: Host, hostR: Host, env: Env, es: seq<(Event, Env)>): Effect
    requires Offering(o, hostS, env).sent != []
    requires Step(OfferTaken(o, me, hostS, hostR, env).slot, AcceptOffer(me), hostR, env).sent != []
  {
    var accept := Step(OfferTaken(o, me, hostS, hostR, env).slot, AcceptOffer(me), hostR, env).sent[0];
    Run(Offering(o, hostS, env).slot, [(Receive(o.peer, accept.frame), env)] + es, hostS)
  }

  /**
   * A file of any size, sent to a peer that accepts it over a link that keeps frames in order: the sender reports
   * completion and forgets the transfer; the receiver reports exactly the sender's bytes, under the first free name,
   * and forgets it too. Only an empty file is never reported.
   */
  lemma {:induction false} FileArrives(o: Order, me: string, hostS: Host, hostR: Host, env: Env, es: seq<(Event, Env)>)
    requires Sendable(o, hostS) && env.session && env.sealOk && env.tempOpens && env.moveOk
    requires Continuations(es) && |es| >= ChunkCount(|o.src.data|)
    ensures Offering(o, hostS, env).sent != []
    ensures var entered := OfferTaken(o, me, hostS, hostR, env).slot;
      var answer := Step(entered, AcceptOffer(me), hostR, env);
      && answer.slot == entered && |answer.sent| == 1 && answer.sent[0] == Outbound(me, o.id, FileAccept)
      && var sending := WholeSend(o, me, hostS, hostR, env, es);
         && sending.slot == EmptySlot(o.id)
         && sending.notices == [Started(o.id, true), TransferCompleted(o.id, o.path, true)]
         && (forall i :: 0 <= i < |sending.sent| ==> sending.sent[i].to == o.peer && sending.sent[i].id == o.id)
         && var receiving := Run(entered, Deliveries(me, sending.sent, env), hostR);
            var path := FileNames.FreeName(env.existing, hostR.pathFor(FileNames.Sanitize(o.name)));
            if o.src.data == [] then receiving == Quiet(entered)
            else
              && receiving.slot == EmptySlot(o.id) && receiving.sent == []
              && receiving.notices == [Started(o.id, false), TransferCompleted(o.id, path, false),
                                       FileReceived(me, path, FileNames.Sanitize(o.name), o.src.data)]
  {
    hide Run, Transmission, Deliveries, FileNames.FreeName, FileNames.Sanitize, Offering, OfferTaken, Awaiting,
      OfferedNow, Continuations;
    OfferGoesOut(o, hostS, env);
    OfferArrives(o, me, hostS, hostR, env);
    var offered, entered := Offering(o, hostS, env).slot, OfferTaken(o, me, hostS, hostR, env).slot;
    AwaitingIn(entered, o.src);
    AcceptanceGoesOut(entered, me, hostR, env);
    OfferedIn(offered, o.src);
    UninterruptedSend(offered, o.peer, env, es, hostS, o.src);
    TransmissionAddressed(o.src, o.id, o.peer, offered.out.value.hash, 0);
    DeliveredIffNonEmpty(entered, me, o.peer, offered.out.value.hash, hostR, env, o.src);
  }

  lemma AwaitingIn(s: Slot, src: Source)
    requires Awaiting(s, src)
    ensures s.inc.Some? && s.inc.value.file.None?
  {}

  lemma OfferedIn(s: Slot, src: Source)
    requires OfferedNow(s, src)
    ensures SenderInv(s, src) && s.out.Some? && s.out.value.state == Pending && s.out.value.file.None?
  {}

  lemma {:induction false} TransmissionAddressed(src: Source, id: string, peer: string, hash: Option<Digest>, j: nat)
    ensures var sent := Transmission(src, id, peer, hash, j);
      forall i :: 0 <= i < |sent| ==> sent[i].to == peer && sent[i].id == id
    decreases ChunkCount(|src.data|) - j
  {
    TransmissionUnfolds(src, id, peer, hash, j);
    if j < ChunkCount(|src.data|) {
      TransmissionAddressed(src, id, peer, hash, j + 1);
    }
  }

  // How the other endings reach the other side

  /** A rejected offer ends both ends: the receiver forgets the entry, the sender the transfer, and nothing is sent. */
  lemma {:induction false} RejectEndsBoth(snd: Slot, rcv: Slot, me: string, hostS: Host, hostR: Host, env: Env,
                                          es: seq<(Event, Env)>)
    requires snd.id == rcv.id && Continuations(es)
    ensures var r := Step(rcv, RejectOffer(me), hostR, env);
      && r.slot.inc.None? && r.sent == [Outbound(me, rcv.id, FileReject)]
      && var end := Run(snd, [(Receive(me, r.sent[0].frame), env)] + es, hostS);
         end.slot.out.None? && end.sent == []
  {
    var r := Step(rcv, RejectOffer(me), hostR, env);
    var told := Step(snd, Receive(me, r.sent[0].frame), hostS, env);
    assert ([(Receive(me, r.sent[0].frame), env)] + es)[1..] == es;
    hide Step;
    StaysGone(told.slot, es, hostS);
  }

  lemma {:induction false} StaysGone(s: Slot, es: seq<(Event, Env)>, host: Host)
    requires s.out.None? && Continuations(es)
    ensures Run(s, es, host).sent == [] && Run(s, es, host).slot == s
    decreases |es|
  {
    if es != [] {
      StaysGone(s, es[1..], host);
    }
  }

  /** An end of a transfer, in one direction, with a given peer. */
  predicate HasOne(s: Slot, peer: string) {
    || (s.out.Some? && s.inc.None? && s.out.value.peer == peer)
    || (s.out.None? && s.inc.Some? && s.inc.value.peer == peer)
  }

  /** A cancel on either side ends both, saved state included; each side's listeners hear of it once. */
  lemma CancelEndsBoth(mine: Slot, theirs: Slot, me: string, peer: string, hostA: Host, hostB: Host, env: Env)
    requires mine.id == theirs.id && HasOne(mine, peer) && HasOne(theirs, me)
    ensures var r := Step(mine, Cancel, hostA, env);
      && r == Effect(EmptySlot(mine.id), [Outbound(peer, mine.id, FileCancel)], 0, [TransferCancelled(mine.id)])
      && Step(theirs, Receive(me, r.sent[0].frame), hostB, env)
         == Effect(EmptySlot(theirs.id), [], 0, [TransferCancelled(theirs.id)])
  {}

  /** The receiver's pause reaches the sender: one frame, and from then on no chunk leaves until the sender is woken. */
  lemma {:induction false} PauseReachesSender(snd: Slot, rcv: Slot, me: string, peer: string, hostS: Host, hostR: Host,
                                              env: Env, es: seq<(Event, Env)>)
    requires snd.id == rcv.id && rcv.out.None? && rcv.inc.Some? && rcv.inc.value.peer == peer && Unwoken(es)
    ensures var r := Step(rcv, Pause, hostR, env);
      && HeldReceiver(r.slot) && r.sent == [Outbound(peer, rcv.id, FilePause)]
      && SendsNothing(Run(snd, [(Receive(me, r.sent[0].frame), env)] + es, hostS).sent)
  {
    hide Run, SendsNothing, HeldReceiver, Step;
    PauseHoldsReceiver(rcv, hostR, env);
    PauseStopsTheStream(snd, me, true, es, hostS, env);
  }

  /**
   * A resume goes to the peer that offered, with the number of chunks received and nothing changed; a sender that still
   * has the transfer answers the one who asked, and its answer wakes the receiver at that number plus one.
   */
  lemma ResumeReachesSender(snd: Slot, rcv: Slot, me: string, peer: string, hostS: Host, hostR: Host, env: Env)
    requires snd.id == rcv.id && snd.out.Some? && rcv.inc.Some? && rcv.inc.value.peer == peer
    ensures var n := rcv.inc.value.chunksReceived;
      var asked := Step(rcv, Resume, hostR, env);
      && asked == Effect(rcv, [Outbound(peer, rcv.id, FileResumeRequest(n))], 0, [])
      && var answer := Step(snd, Receive(me, asked.sent[0].frame), hostS, env);
         && answer.sent != [] && answer.sent[0] == Outbound(me, snd.id, FileResumeAck(Wrap64(n + 1)))
         && var woken := Step(rcv, Receive(peer, answer.sent[0].frame), hostR, env);
            && woken.sent == [] && woken.notices == []
            && woken.slot == rcv.(inc := Some(rcv.inc.value.(state := Active, chunksReceived := Wrap64(n + 1))))
  {
    hide SendNext, Wrap64;
  }
}
