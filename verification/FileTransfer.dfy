/** FileTransfer itself (src/transfer/filetransfer.cpp): the two maps of transfers and the handlers that update them. */
module FileTransferEngine {
  import opened Text
  import opened Bytes
  import opened Nonce
  import opened TransferModel
  import FileNames

  const MAX_ID: nat := 64

  predicate IdChar(c: char) {
    '0' <= c <= '9' || 'a' <= c <= 'f' || 'A' <= c <= 'F' || c == '-'
  }

  predicate ValidTransferId(id: string) {
    0 < |id| <= MAX_ID && forall i :: 0 <= i < |id| ==> IdChar(id[i])
  }

  method IsValidTransferId(id: string) returns (ok: bool)
    ensures ok <==> ValidTransferId(id)
  {
    if id == "" || |id| > MAX_ID {
      return false;
    }
    for i := 0 to |id|
      invariant forall j :: 0 <= j < i ==> IdChar(id[j])
    {
      if !IdChar(id[i]) {
        return false;
      }
    }
    return true;
  }

  method EncryptChunk(plain: seq<Byte>, key: seq<Byte>, base: seq<Byte>, seqNo: int, env: Env)
    returns (box: Option<Box>)
    ensures box == if env.sealOk then Some(Sealed(key, NonceFor(base, seqNo), plain)) else None
  {
    var nonce := DeriveNonce(base, seqNo);
    box := if env.sealOk then Some(Sealed(key, nonce[..], plain)) else None;
  }

  method DecryptChunk(box: Box, key: seq<Byte>, base: seq<Byte>, seqNo: int) returns (plain: seq<Byte>)
    ensures plain == OpenBox(box, key, NonceFor(base, seqNo))
  {
    var nonce := DeriveNonce(base, seqNo);
    plain := OpenBox(box, key, nonce[..]);
  }

  class FileTransfer {
    const disk: map<string, seq<Byte>>
    const pathFor: string -> string
    const stateDir: string

    var outgoing: map<string, Outgoing>
    var incoming: map<string, Incoming>
    var saved: map<string, ResumeInfo>
    var posted: seq<string>
    var sent: seq<Outbound>
    var told: seq<Notice>

    constructor (disk: map<string, seq<Byte>>, downloads: seq<string>, absolute: bool, stateDir: string)
      ensures this.disk == disk && this.stateDir == stateDir
      ensures forall n :: pathFor(n) == FileNames.SafeDownloadPath(downloads, absolute, n)
      ensures outgoing == map[] && incoming == map[] && saved == map[] && posted == [] && sent == [] && told == []
    {
      this.disk, this.stateDir := disk, stateDir;
      this.pathFor := n => FileNames.SafeDownloadPath(downloads, absolute, n);
      outgoing, incoming, saved, posted, sent, told := map[], map[], map[], [], [], [];
    }

    function HostFor(id: string): Host {
      Host(disk, pathFor, stateDir + "/" + id + ".tmp")
    }

    ghost function SlotOf(id: string): Slot
      reads this
    {
      Slot(id, if id in outgoing then Some(outgoing[id]) else None,
           if id in incoming then Some(incoming[id]) else None,
           if id in saved then Some(saved[id]) else None)
    }

    /** The handler did to this id what the effect says, and nothing to any other transfer. */
    twostate predicate Did(id: string, r: Effect)
      reads this
    {
      && SlotOf(id) == r.slot
      && outgoing - {id} == old(outgoing) - {id} && incoming - {id} == old(incoming) - {id}
      && saved - {id} == old(saved) - {id}
      && posted == old(posted) + seq(r.posted, _ => id)
      && sent == old(sent) + r.sent
      && told == old(told) + r.notices
    }

    method Send(id: string, to: string, frame: Frame)
      modifies this`sent
      ensures sent == old(sent) + [Outbound(to, id, frame)]
    {
      sent := sent + [Outbound(to, id, frame)];
    }

    method Fire(notice: Notice)
      modifies this`told
      ensures told == old(told) + [notice]
    {
      told := told + [notice];
    }

    /** The part of sendFile that runs at once; the digest follows in HashComputed. */
    method SendFile(id: string, peer: string, path: string, name: string, size: int, key: seq<Byte>, nonce: seq<Byte>,
                    durationMs: int)
      modifies this`outgoing
      ensures var entered := FreshOutgoing(Event.SendFile(peer, path, name, size, key, nonce, durationMs));
        Did(id, Quiet(old(SlotOf(id)).(out := Some(entered))))
    {
      outgoing := outgoing[id := Outgoing(peer, path, name, size, None, durationMs, key, nonce, 0, 0, None, Pending)];
    }

    method HashComputed(id: string, hash: Option<Digest>, env: Env)
      modifies this`outgoing, this`sent, this`told
      ensures Did(id, OnHashDone(old(SlotOf(id)), hash, env))
    {
      if id !in outgoing {
        return;
      }
      if hash.None? {
        Abandon(id, "hash");
        return;
      }
      outgoing := outgoing[id := outgoing[id].(hash := hash)];
      SendFileOffer(id, env);
    }

    method SendFileOffer(id: string, env: Env)
      requires id in outgoing ==> outgoing[id].hash.Some?
      modifies this`outgoing, this`sent, this`told
      ensures Did(id, SendOffer(old(SlotOf(id)), env))
    {
      if id !in outgoing {
        return;
      }
      var t := outgoing[id];
      if !env.session {
        Abandon(id, "no session");
        return;
      }
      var duration := if t.durationMs > 0 then t.durationMs else 0;
      Send(id, t.peer, FileOffer(t.name, t.fileSize, t.hash.value, duration, InSession(Some(t.key + t.nonce))));
    }

    method StartStreaming(id: string, env: Env)
      modifies this`outgoing, this`saved, this`posted, this`sent, this`told
      ensures Did(id, TransferModel.StartStreaming(old(SlotOf(id)), HostFor(id), env))
    {
      if id !in outgoing {
        return;
      }
      var file := OpenFile(HostFor(id), outgoing[id].path);
      if file.None? {
        Abandon(id, "open");
        return;
      }
      outgoing := outgoing[id := outgoing[id].(file := file, state := Active)];
      Fire(Started(id, true));
      SendNextChunk(id, env);
    }

    /** The end of a stream. */
    method Complete(id: string)
      requires id in outgoing
      modifies this`outgoing, this`saved, this`sent, this`told
      ensures var t := old(outgoing[id]);
        Did(id, Effect(old(SlotOf(id)).(out := None, saved := None), [Outbound(t.peer, id, FileComplete(t.hash))], 0,
                       [TransferCompleted(id, t.path, true)]))
    {
      var t := outgoing[id];
      Send(id, t.peer, FileComplete(t.hash));
      Fire(TransferCompleted(id, t.path, true));
      saved := saved - {id};
      outgoing := outgoing - {id};
    }

    method SendNextChunk(id: string, env: Env)
      modifies this`outgoing, this`saved, this`posted, this`sent, this`told
      ensures Did(id, SendNext(old(SlotOf(id)), env))
    {
      if id !in outgoing {
        return;
      }
      var t := outgoing[id];
      if t.state == Paused || t.state == Cancelled {
        return;
      }
      if t.file.None? || t.bytesSent >= t.fileSize {
        Complete(id);
        return;
      }
      var chunk := t.file.value.Available();
      t := t.(file := Some(t.file.value.AfterRead()));
      outgoing := outgoing[id := t];
      if chunk == [] {
        return;
      }
      var box := EncryptChunk(chunk, t.key, t.nonce, t.chunksSent, env);
      if box.None? {
        Abandon(id, "encryption");
        return;
      }
      t := t.(bytesSent := t.bytesSent + |chunk|);
      Send(id, t.peer, FileChunk(t.chunksSent, box.value, t.bytesSent >= t.fileSize));
      outgoing := outgoing[id := t.(chunksSent := t.chunksSent + 1)];
      posted := posted + [id];
    }

    /** The io thread runs the oldest posted continuation. */
    method RunPosted(env: Env)
      requires posted != []
      modifies this`outgoing, this`saved, this`posted, this`sent, this`told
      ensures var id := old(posted)[0];
        var r := SendNext(old(SlotOf(id)), env);
        && SlotOf(id) == r.slot
        && outgoing - {id} == old(outgoing) - {id} && incoming - {id} == old(incoming) - {id}
        && saved - {id} == old(saved) - {id}
        && posted == old(posted)[1..] + seq(r.posted, _ => id)
        && sent == old(sent) + r.sent
        && told == old(told) + r.notices
    {
      var id := posted[0];
      posted := posted[1..];
      SendNextChunk(id, env);
    }

    method HandleMessage(from: string, id: string, frame: Frame, env: Env)
      modifies this
      ensures Did(id, if ValidTransferId(id) then OnFrame(old(SlotOf(id)), from, frame, HostFor(id), env)
                  else Quiet(old(SlotOf(id))))
    {
      var ok := IsValidTransferId(id);
      if !ok {
        return;
      }
      match frame
      case FileOffer(_, _, _, _, _) => HandleOffer(from, id, frame);
      case FileAccept => StartStreaming(id, env);
      case FileReject => outgoing := outgoing - {id};
      case FileChunk(_, _, _) => HandleFileChunk(id, frame, env);
      case FileComplete(_) =>
      case FileCancel => HandleCancel(id);
      case FilePause =>
        if id in outgoing {
          outgoing := outgoing[id := outgoing[id].(state := Paused)];
        }
      case FileResumeRequest(last) => HandleResumeRequest(from, id, last, env);
      case FileResumeAck(n) =>
        if id in incoming {
          incoming := incoming[id := incoming[id].(state := Active, chunksReceived := n)];
        }
    }

    method HandleOffer(from: string, id: string, f: Frame)
      requires f.FileOffer?
      modifies this`incoming, this`told
      ensures Did(id, OnOffer(old(SlotOf(id)), from, f, HostFor(id)))
    {
      var name := FileNames.SanitizeFileName(f.name);
      if f.size < 0 {
        return;
      }
      var material := OfferKey(f.envelope);
      if material.None? {
        return;
      }
      var (key, nonce) := material.value;
      incoming := incoming[id := Incoming(from, name, pathFor(name), f.size, f.hash, key, nonce, 0, 0, None, [],
                                          Pending)];
      Fire(Offered(from, name, f.size, id, f.durationMs));
    }

    method HandleFileChunk(id: string, f: Frame, env: Env)
      requires f.FileChunk?
      modifies this`incoming, this`saved, this`told
      ensures Did(id, OnChunk(old(SlotOf(id)), f, env))
    {
      hide TakePlain, NonceFor, OpenBox;
      if id !in incoming {
        return;
      }
      var t := incoming[id];
      if t.state == Paused || t.state == Cancelled || f.seqNo != t.chunksReceived {
        return;
      }
      if t.file.None? {
        if !env.tempOpens {
          Discard(id, "temp file");
          return;
        }
        t := t.(file := Some([]), hasher := [], state := Active);
        incoming := incoming[id := t];
        Fire(Started(id, false));
      }
      var plain := DecryptChunk(f.box, t.key, t.nonce, f.seqNo);
      StoreChunk(id, plain, f.last, env);
    }

    method StoreChunk(id: string, plain: seq<Byte>, last: bool, env: Env)
      requires id in incoming && incoming[id].file.Some?
      modifies this`incoming, this`saved, this`told
      ensures Did(id, TakePlain(old(SlotOf(id)), plain, last, env))
    {
      var t := incoming[id];
      if plain == [] {
        Discard(id, "decryption");
        return;
      }
      if t.bytesReceived + |plain| > t.fileSize {
        Discard(id, "size");
        return;
      }
      t := t.(file := Some(t.file.value + plain));
      t := t.(hasher := t.hasher + plain);
      t := t.(bytesReceived := t.bytesReceived + |plain|, chunksReceived := t.chunksReceived + 1);
      incoming := incoming[id := t];
      if last {
        FinishReceiving(id, env);
      }
    }

    /** The failures of a receiver: report, and forget the entry. */
    method Discard(id: string, error: string)
      modifies this`incoming, this`told
      ensures Did(id, Effect(old(SlotOf(id)).(inc := None), [], 0, [TransferFailed(id, error)]))
    {
      Fire(TransferFailed(id, error));
      incoming := incoming - {id};
    }

    /** The failures of a sender. */
    method Abandon(id: string, error: string)
      modifies this`outgoing, this`told
      ensures Did(id, Effect(old(SlotOf(id)).(out := None), [], 0, [TransferFailed(id, error)]))
    {
      Fire(TransferFailed(id, error));
      outgoing := outgoing - {id};
    }

    method Delivered(id: string, path: string)
      requires id in incoming && incoming[id].file.Some?
      modifies this`incoming, this`saved, this`told
      ensures var t := old(incoming[id]);
        Did(id, Effect(old(SlotOf(id)).(inc := None, saved := None), [], 0,
                       [TransferCompleted(id, path, false), FileReceived(t.peer, path, t.name, t.file.value)]))
    {
      var t := incoming[id];
      Fire(TransferCompleted(id, path, false));
      Fire(FileReceived(t.peer, path, t.name, t.file.value));
      saved := saved - {id};
      incoming := incoming - {id};
    }

    method FinishReceiving(id: string, env: Env)
      requires id in incoming ==> incoming[id].file.Some?
      modifies this`incoming, this`saved, this`told
      ensures Did(id, Finish(old(SlotOf(id)), env))
    {
      if id !in incoming {
        return;
      }
      var t := incoming[id];
      if Sha256(t.hasher) != t.expectedHash {
        Discard(id, "hash mismatch");
        return;
      }
      var finalPath, _ := FileNames.PickFreeName(env.existing, t.finalPath);
      if !env.moveOk {
        Discard(id, "save");
        return;
      }
      Delivered(id, finalPath);
    }

    method HandleCancel(id: string)
      modifies this`outgoing, this`incoming, this`saved, this`told
      ensures Did(id, OnCancelled(old(SlotOf(id)), false))
    {
      if id in outgoing {
        Fire(TransferCancelled(id));
        outgoing := outgoing - {id};
      }
      if id in incoming {
        Fire(TransferCancelled(id));
        incoming := incoming - {id};
      }
      saved := saved - {id};
    }

    method AcceptOffer(from: string, id: string)
      modifies this`sent
      ensures Did(id, OnAcceptOffer(old(SlotOf(id)), from))
    {
      if id !in incoming {
        return;
      }
      Send(id, from, FileAccept);
    }

    method RejectOffer(from: string, id: string)
      modifies this`incoming, this`sent
      ensures Did(id, OnRejectOffer(old(SlotOf(id)), from))
    {
      Send(id, from, FileReject);
      incoming := incoming - {id};
    }

    method CancelTransfer(id: string)
      modifies this`outgoing, this`incoming, this`saved, this`sent, this`told
      ensures Did(id, OnCancelled(old(SlotOf(id)), true))
    {
      if id in outgoing {
        Send(id, outgoing[id].peer, FileCancel);
        Fire(TransferCancelled(id));
        outgoing := outgoing - {id};
      }
      if id in incoming {
        Send(id, incoming[id].peer, FileCancel);
        Fire(TransferCancelled(id));
        incoming := incoming - {id};
      }
      saved := saved - {id};
    }

    method PauseTransfer(id: string)
      modifies this`outgoing, this`incoming, this`saved, this`sent
      ensures Did(id, OnPause(old(SlotOf(id)), HostFor(id)))
    {
      if id in outgoing {
        PauseSending(id);
      }
      if id in incoming {
        PauseReceiving(id);
      }
    }

    method PauseSending(id: string)
      requires id in outgoing
      modifies this`outgoing, this`saved, this`sent
      ensures var t := old(outgoing[id]);
        Did(id, Effect(old(SlotOf(id)).(out := Some(t.(state := Paused)), saved := Some(OutInfo(t))),
                       [Outbound(t.peer, id, FilePause)], 0, []))
    {
      var t := outgoing[id];
      outgoing := outgoing[id := t.(state := Paused)];
      saved := saved[id := ResumeInfo(t.peer, t.name, t.path, t.fileSize, t.chunksSent, t.key, t.nonce, true)];
      Send(id, t.peer, FilePause);
    }

    method PauseReceiving(id: string)
      requires id in incoming
      modifies this`incoming, this`saved, this`sent
      ensures var t := old(incoming[id]);
        Did(id, Effect(old(SlotOf(id)).(inc := Some(t.(state := Paused)),
                                        saved := Some(IncInfo(t, HostFor(id).tempPath))),
                       [Outbound(t.peer, id, FilePause)], 0, []))
    {
      var t := incoming[id];
      incoming := incoming[id := t.(state := Paused)];
      saved := saved[id := ResumeInfo(t.peer, t.name, HostFor(id).tempPath, t.fileSize, t.chunksReceived, t.key,
                                      t.nonce, false)];
      Send(id, t.peer, FilePause);
    }

    method ResumeTransfer(id: string)
      modifies this`sent
      ensures Did(id, OnResume(old(SlotOf(id))))
    {
      if id in incoming {
        Send(id, incoming[id].peer, FileResumeRequest(incoming[id].chunksReceived));
      }
    }

    /** Rewinds the transfer, or rebuilds it from its saved state. */
    method Restore(id: string, last: int, env: Env) returns (ok: bool)
      modifies this`outgoing
      ensures ok <==> Resumed(old(SlotOf(id)), last, HostFor(id), env).Some?
      ensures var t := Resumed(old(SlotOf(id)), last, HostFor(id), env);
        SlotOf(id) == if ok then old(SlotOf(id)).(out := t) else old(SlotOf(id))
      ensures outgoing - {id} == old(outgoing) - {id}
    {
      if id !in outgoing {
        if id !in saved || !env.loadOk {
          return false;
        }
        var info := saved[id];
        var file := OpenFile(HostFor(id), info.path);
        if file.None? {
          return false;
        }
        var t := Outgoing(info.peer, info.path, info.name, info.totalSize, None, 0, info.key, info.nonce,
                          Position(last), NextChunk(last), file, Active);
        outgoing := outgoing[id := t.(file := Some(file.value.Seek(Position(t.chunksSent))))];
      } else {
        var t := outgoing[id].(state := Active, chunksSent := NextChunk(last));
        if t.file.Some? {
          t := t.(file := Some(t.file.value.Seek(Position(t.chunksSent))));
        }
        outgoing := outgoing[id := t];
      }
      return true;
    }

    method HandleResumeRequest(from: string, id: string, last: int, env: Env)
      modifies this`outgoing, this`saved, this`posted, this`sent, this`told
      ensures Did(id, OnResumeRequest(old(SlotOf(id)), from, last, HostFor(id), env))
    {
      hide SendNext, Resumed;
      var ok := Restore(id, last, env);
      if ok {
        Send(id, from, FileResumeAck(NextChunk(last)));
        SendNextChunk(id, env);
      }
    }
  }
}
