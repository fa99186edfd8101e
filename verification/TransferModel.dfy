/**
 * What FileTransfer does to one transfer id (src/transfer/filetransfer.cpp): the entry in m_outgoing, the entry in
 * m_incoming and the saved resume file, as a function of the handler that runs. AES-256-GCM is ideal: only a box
 * sealed under a key and nonce opens under them. SHA-256 is injective.
 */
module TransferModel {
  import opened Text
  import opened Bytes
  import opened Int64
  import opened Nonce
  import opened Chunks
  import FileNames

  datatype TransferState = Pending | Active | Paused | Completed | Failed | Cancelled

  datatype Digest = Sha256(of: seq<Byte>) | OtherDigest(raw: seq<Byte>)

  /** Ciphertext with its authentication tag. */
  datatype Box = Sealed(key: seq<Byte>, nonce: seq<Byte>, plaintext: seq<Byte>) | Foreign(raw: seq<Byte>)

  /** Decryption: the empty result is the failure, as in the source. */
  function OpenBox(b: Box, key: seq<Byte>, nonce: seq<Byte>): seq<Byte> {
    if b.Sealed? && b.key == key && b.nonce == nonce then b.plaintext else []
  }

  /** An ifstream: a short read sets failbit, after which seeking and reading do nothing. */
  datatype Reader = Reader(content: seq<Byte>, pos: nat, good: bool) {
    function Available(): seq<Byte> {
      if good && pos < |content| then content[pos..Min(pos + CHUNK_SIZE, |content|)] else []
    }

    function AfterRead(): Reader {
      Reader(content, pos + |Available()|, good && |Available()| == CHUNK_SIZE)
    }

    function Seek(p: int): Reader {
      if !good then this else if p < 0 then Reader(content, pos, false) else Reader(content, p, true)
    }
  }

  datatype Outgoing = Outgoing(
    peer: string, path: string, name: string, fileSize: int, hash: Option<Digest>, durationMs: int,
    key: seq<Byte>, nonce: seq<Byte>,
    bytesSent: int, chunksSent: int, file: Option<Reader>, state: TransferState)

  /** `file` is what the temporary file holds, `hasher` what the running SHA-256 has absorbed. */
  datatype Incoming = Incoming(
    peer: string, name: string, finalPath: string, fileSize: int, expectedHash: Digest,
    key: seq<Byte>, nonce: seq<Byte>,
    bytesReceived: int, chunksReceived: int, file: Option<seq<Byte>>, hasher: seq<Byte>, state: TransferState)

  datatype ResumeInfo = ResumeInfo(
    peer: string, name: string, path: string, totalSize: int, lastConfirmedChunk: int,
    key: seq<Byte>, nonce: seq<Byte>, outgoing: bool)

  /** How an offer carries the file key: inside the E2E session (with what decryption yields), or in the clear. */
  datatype Envelope = InSession(keyMaterial: Option<seq<Byte>>) | InClear(key: seq<Byte>, nonce: seq<Byte>)

  datatype Frame =
    | FileOffer(name: string, size: int, hash: Digest, durationMs: int, envelope: Envelope)
    | FileAccept
    | FileReject
    | FileChunk(seqNo: int, box: Box, last: bool)
    | FileComplete(fileHash: Option<Digest>)
    | FileCancel
    | FilePause
    | FileResumeRequest(lastChunk: int)
    | FileResumeAck(resumeFrom: int)

  datatype Notice =
    | Offered(from: string, name: string, size: int, id: string, durationMs: int)
    | Started(id: string, outgoing: bool)
    | TransferCompleted(id: string, path: string, outgoing: bool)
    | TransferFailed(id: string, error: string)
    | TransferCancelled(id: string)
    | FileReceived(from: string, path: string, name: string, content: seq<Byte>)

  /**
   * The machine as one transfer sees it: readable files, where a file of a given name is stored, the temporary file.
   */
  datatype Host = Host(disk: map<string, seq<Byte>>, pathFor: string -> string, tempPath: string)

  /** What the outside decides during one handler. */
  datatype Env = Env(sealOk: bool, session: bool, loadOk: bool, tempOpens: bool, existing: set<string>, moveOk: bool)

  /** A frame leaving for a peer, with the transfer id every frame carries. */
  datatype Outbound = Outbound(to: string, id: string, frame: Frame)

  datatype Slot = Slot(id: string, out: Option<Outgoing>, inc: Option<Incoming>, saved: Option<ResumeInfo>)

  /** A handler's result: the new slot, the frames handed to the network, continuations posted, listeners told. */
  datatype Effect = Effect(slot: Slot, sent: seq<Outbound>, posted: nat, notices: seq<Notice>)

  datatype Event =
    | SendFile(peer: string, path: string, name: string, size: int, key: seq<Byte>, nonce: seq<Byte>, durationMs: int)
    | HashDone(hash: Option<Digest>)
    | Continue
    | Receive(from: string, frame: Frame)
    | AcceptOffer(to: string)
    | RejectOffer(to: string)
    | Cancel
    | Pause
    | Resume

  const KEY_SIZE: nat := 32
  const NONCE_SIZE: nat := 12

  function Quiet(s: Slot): Effect {
    Effect(s, [], 0, [])
  }

  // Sending

  function FreshOutgoing(e: Event): Outgoing
    requires e.SendFile?
  {
    Outgoing(e.peer, e.path, e.name, e.size, None, e.durationMs, e.key, e.nonce, 0, 0, None, Pending)
  }

  function OnHashDone(s: Slot, hash: Option<Digest>, env: Env): Effect {
    if s.out.None? then Quiet(s)
    else if hash.None? then Effect(s.(out := None), [], 0, [TransferFailed(s.id, "hash")])
    else SendOffer(s.(out := Some(s.out.value.(hash := hash))), env)
  }

  /** The offer of a transfer whose digest is known. */
  function SendOffer(s: Slot, env: Env): Effect
    requires s.out.Some? ==> s.out.value.hash.Some?
  {
    if s.out.None? then Quiet(s)
    else if !env.session then Effect(s.(out := None), [], 0, [TransferFailed(s.id, "no session")])
    else
      var t := s.out.value;
      var offer := FileOffer(t.name, t.fileSize, t.hash.value, if t.durationMs > 0 then t.durationMs else 0,
                             InSession(Some(t.key + t.nonce)));
      Effect(s, [Outbound(t.peer, s.id, offer)], 0, [])
  }

  function SendNext(s: Slot, env: Env): Effect {
    if s.out.None? || s.out.value.state == Paused || s.out.value.state == Cancelled then Quiet(s)
    else
      var t := s.out.value;
      if t.file.None? || t.bytesSent >= t.fileSize then
        Effect(s.(out := None, saved := None), [Outbound(t.peer, s.id, FileComplete(t.hash))], 0,
               [TransferCompleted(s.id, t.path, true)])
      else
        var chunk := t.file.value.Available();
        var moved := t.(file := Some(t.file.value.AfterRead()));
        if chunk == [] then Quiet(s.(out := Some(moved)))
        else if !env.sealOk then Effect(s.(out := None), [], 0, [TransferFailed(s.id, "encryption")])
        else
          var sent := moved.(bytesSent := t.bytesSent + |chunk|, chunksSent := t.chunksSent + 1);
          var box := Sealed(t.key, NonceFor(t.nonce, t.chunksSent), chunk);
          Effect(s.(out := Some(sent)),
                 [Outbound(t.peer, s.id, FileChunk(t.chunksSent, box, sent.bytesSent >= t.fileSize))], 1, [])
  }

  function OpenFile(host: Host, path: string): Option<Reader> {
    if path in host.disk then Some(Reader(host.disk[path], 0, true)) else None
  }

  function StartStreaming(s: Slot, host: Host, env: Env): Effect {
    if s.out.None? then Quiet(s)
    else if OpenFile(host, s.out.value.path).None? then Effect(s.(out := None), [], 0, [TransferFailed(s.id, "open")])
    else
      var t := s.out.value.(file := OpenFile(host, s.out.value.path), state := Active);
      var next := SendNext(s.(out := Some(t)), env);
      next.(notices := [Started(s.id, true)] + next.notices)
  }

  /** The chunk that follows a given one, in 64 bits. */
  function NextChunk(last: int): int {
    Wrap64(last + 1)
  }

  /** Where a chunk starts in the file, in 64 bits. */
  function Position(k: int): int {
    Wrap64(k * CHUNK_SIZE)
  }

  /** The chunk starts at a position that 64 bits can hold. */
  predicate PositionFits(k: int) {
    -0x8000_0000_0000 <= k < 0x8000_0000_0000
  }

  lemma PositionIff(k: int)
    ensures Position(k) == k * CHUNK_SIZE <==> PositionFits(k)
  {}

  /** The number and the position with which a resume goes on are those it asks for exactly if the position fits. */
  lemma ResumePositionIff(last: int)
    requires IsInt64(last)
    ensures NextChunk(last) == last + 1 && Position(NextChunk(last)) == (last + 1) * CHUNK_SIZE
       <==> PositionFits(last + 1)
  {
    PositionIff(NextChunk(last));
  }

  /** The entry a resume request leaves behind, before streaming goes on; None when it is refused. */
  function Resumed(s: Slot, last: int, host: Host, env: Env): Option<Outgoing> {
    var k := NextChunk(last);
    if s.out.Some? then
      var t := s.out.value;
      Some(t.(state := Active, chunksSent := k,
              file := if t.file.Some? then Some(t.file.value.Seek(Position(k))) else None))
    else if s.saved.None? || !env.loadOk then None
    else
      var info := s.saved.value;
      var file := OpenFile(host, info.path);
      if file.None? then None
      else Some(Outgoing(info.peer, info.path, info.name, info.totalSize, None, 0, info.key, info.nonce,
                         Position(last), k, Some(file.value.Seek(Position(k))), Active))
  }

  function OnResumeRequest(s: Slot, from: string, last: int, host: Host, env: Env): Effect {
    var t := Resumed(s, last, host, env);
    if t.None? then Quiet(s)
    else
      var next := SendNext(s.(out := t), env);
      next.(sent := [Outbound(from, s.id, FileResumeAck(NextChunk(last)))] + next.sent)
  }

  // Receiving

  /** The key and base nonce an offer yields; None drops the offer. */
  function OfferKey(envelope: Envelope): Option<(seq<Byte>, seq<Byte>)> {
    match envelope
    case InClear(key, nonce) => Some((key, nonce))
    case InSession(None) => None
    case InSession(Some(m)) =>
      if |m| < KEY_SIZE + NONCE_SIZE then None else Some((m[..KEY_SIZE], m[KEY_SIZE..KEY_SIZE + NONCE_SIZE]))
  }

  function OnOffer(s: Slot, from: string, f: Frame, host: Host): Effect
    requires f.FileOffer?
  {
    var material := OfferKey(f.envelope);
    if f.size < 0 || material.None? then Quiet(s)
    else
      var name := FileNames.Sanitize(f.name);
      var t := Incoming(from, name, host.pathFor(name), f.size, f.hash,
                        material.value.0, material.value.1, 0, 0, None, [], Pending);
      Effect(s.(inc := Some(t)), [], 0, [Offered(from, name, f.size, s.id, f.durationMs)])
  }

  ghost function Finish(s: Slot, env: Env): Effect
    requires s.inc.Some? ==> s.inc.value.file.Some?
  {
    if s.inc.None? then Quiet(s) else FinishEntry(s, env)
  }

  ghost function FinishEntry(s: Slot, env: Env): Effect
    requires s.inc.Some? && s.inc.value.file.Some?
  {
    var t := s.inc.value;
    if Sha256(t.hasher) != t.expectedHash then Effect(s.(inc := None), [], 0, [TransferFailed(s.id, "hash mismatch")])
    else if !env.moveOk then Effect(s.(inc := None), [], 0, [TransferFailed(s.id, "save")])
    else
      var path := FileNames.FreeName(env.existing, t.finalPath);
      Effect(s.(inc := None, saved := None), [], 0,
             [TransferCompleted(s.id, path, false), FileReceived(t.peer, path, t.name, t.file.value)])
  }

  /** A decrypted chunk: empty means it did not open; too much data ends the transfer; the last one finishes it. */
  ghost function TakePlain(s: Slot, plain: seq<Byte>, last: bool, env: Env): Effect
    requires s.inc.Some? && s.inc.value.file.Some?
  {
    var t := s.inc.value;
    if plain == [] then Effect(s.(inc := None), [], 0, [TransferFailed(s.id, "decryption")])
    else if t.bytesReceived + |plain| > t.fileSize then Effect(s.(inc := None), [], 0, [TransferFailed(s.id, "size")])
    else
      var taken := t.(file := Some(t.file.value + plain), hasher := t.hasher + plain,
                      bytesReceived := t.bytesReceived + |plain|, chunksReceived := t.chunksReceived + 1);
      if last then Finish(s.(inc := Some(taken)), env) else Quiet(s.(inc := Some(taken)))
  }

  ghost function OnChunk(s: Slot, f: Frame, env: Env): Effect
    requires f.FileChunk?
  {
    if s.inc.None? then Quiet(s)
    else
      var t := s.inc.value;
      if t.state == Paused || t.state == Cancelled || f.seqNo != t.chunksReceived then Quiet(s)
      else if t.file.None? && !env.tempOpens then Effect(s.(inc := None), [], 0, [TransferFailed(s.id, "temp file")])
      else
        var ready := if t.file.Some? then t else t.(file := Some([]), hasher := [], state := Active);
        var plain := OpenBox(f.box, t.key, NonceFor(t.nonce, f.seqNo));
        var r := TakePlain(s.(inc := Some(ready)), plain, f.last, env);
        if t.file.Some? then r else r.(notices := [Started(s.id, false)] + r.notices)
  }

  // Both directions

  function OnCancelled(s: Slot, byUser: bool): Effect {
    var outPart := if s.out.Some? then [Outbound(s.out.value.peer, s.id, FileCancel)] else [];
    var incPart := if s.inc.Some? then [Outbound(s.inc.value.peer, s.id, FileCancel)] else [];
    Effect(Slot(s.id, None, None, None), if byUser then outPart + incPart else [], 0,
           (if s.out.Some? then [TransferCancelled(s.id)] else [])
             + (if s.inc.Some? then [TransferCancelled(s.id)] else []))
  }

  function OutInfo(t: Outgoing): ResumeInfo {
    ResumeInfo(t.peer, t.name, t.path, t.fileSize, t.chunksSent, t.key, t.nonce, true)
  }

  function IncInfo(t: Incoming, tempPath: string): ResumeInfo {
    ResumeInfo(t.peer, t.name, tempPath, t.fileSize, t.chunksReceived, t.key, t.nonce, false)
  }

  function OnPause(s: Slot, host: Host): Effect {
    var out := if s.out.Some? then Some(s.out.value.(state := Paused)) else None;
    var inc := if s.inc.Some? then Some(s.inc.value.(state := Paused)) else None;
    var saved :=
      if s.inc.Some? then Some(IncInfo(s.inc.value, host.tempPath))
      else if s.out.Some? then Some(OutInfo(s.out.value)) else s.saved;
    Effect(Slot(s.id, out, inc, saved),
           (if s.out.Some? then [Outbound(s.out.value.peer, s.id, FilePause)] else [])
           + (if s.inc.Some? then [Outbound(s.inc.value.peer, s.id, FilePause)] else []), 0, [])
  }

  function OnAcceptOffer(s: Slot, to: string): Effect {
    if s.inc.None? then Quiet(s) else Effect(s, [Outbound(to, s.id, FileAccept)], 0, [])
  }

  function OnRejectOffer(s: Slot, to: string): Effect {
    Effect(s.(inc := None), [Outbound(to, s.id, FileReject)], 0, [])
  }

  function OnResume(s: Slot): Effect {
    if s.inc.None? then Quiet(s)
    else Effect(s, [Outbound(s.inc.value.peer, s.id, FileResumeRequest(s.inc.value.chunksReceived))], 0, [])
  }

  ghost function OnFrame(s: Slot, from: string, f: Frame, host: Host, env: Env): Effect {
    match f
    case FileOffer(_, _, _, _, _) => OnOffer(s, from, f, host)
    case FileAccept => StartStreaming(s, host, env)
    case FileReject => Quiet(s.(out := None))
    case FileChunk(_, _, _) => OnChunk(s, f, env)
    case FileComplete(_) => Quiet(s)
    case FileCancel => OnCancelled(s, false)
    case FilePause => Quiet(if s.out.Some? then s.(out := Some(s.out.value.(state := Paused))) else s)
    case FileResumeRequest(last) => OnResumeRequest(s, from, last, host, env)
    case FileResumeAck(n) =>
      Quiet(if s.inc.Some? then s.(inc := Some(s.inc.value.(state := Active, chunksReceived := n))) else s)
  }

  ghost function Step(s: Slot, e: Event, host: Host, env: Env): Effect {
    match e
    case SendFile(_, _, _, _, _, _, _) => Quiet(s.(out := Some(FreshOutgoing(e))))
    case HashDone(hash) => OnHashDone(s, hash, env)
    case Continue => SendNext(s, env)
    case Receive(from, f) => OnFrame(s, from, f, host, env)
    case AcceptOffer(to) => OnAcceptOffer(s, to)
    case RejectOffer(to) => OnRejectOffer(s, to)
    case Cancel => OnCancelled(s, true)
    case Pause => OnPause(s, host)
    case Resume => OnResume(s)
  }

  /** A run: the slot after every step, and everything sent and reported on the way. */
  ghost function Run(s: Slot, es: seq<(Event, Env)>, host: Host): (r: Effect)
    decreases |es|
  {
    if es == [] then Quiet(s)
    else
      var first := Step(s, es[0].0, host, es[0].1);
      var rest := Run(first.slot, es[1..], host);
      Effect(rest.slot, first.sent + rest.sent, first.posted + rest.posted, first.notices + rest.notices)
  }
}
