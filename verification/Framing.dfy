/**
 * Newline framing over arbitrary reads (src/net/network.cpp, startAsyncRead, tryParseFrames and writeFrame) for one
 * connection with one reader. `isObject` stands for the JSON parser: whether a line parses to an object.
 */
module Framing {
  import opened Text

  const MAX_FRAME: nat := 1024 * 1024
  const MAX_BUFFER: nat := 16 * 1024 * 1024
  const STAGE: nat := 8192

  /** The complete lines of a stream, without their newlines. */
  function Lines(s: string): seq<string>
    decreases |s|
  {
    var nl := IndexOf(s, '\n', 0);
    if nl == |s| then [] else [s[..nl]] + Lines(s[nl + 1..])
  }

  /** What follows the last newline. */
  function Tail(s: string): (t: string)
    ensures |t| <= |s| && '\n' !in t
    decreases |s|
  {
    var nl := IndexOf(s, '\n', 0);
    if nl == |s| then s else Tail(s[nl + 1..])
  }

  predicate Accepts(line: string, isObject: string -> bool) {
    |line| <= MAX_FRAME && isObject(line)
  }

  /** Lines that are neither oversize nor anything but an object, in order. */
  function Accepted(lines: seq<string>, isObject: string -> bool): seq<string> {
    if lines == [] then []
    else (if Accepts(lines[0], isObject) then [lines[0]] else []) + Accepted(lines[1..], isObject)
  }

  lemma {:induction false} AcceptedSplits(a: seq<string>, b: seq<string>, isObject: string -> bool)
    ensures Accepted(a + b, isObject) == Accepted(a, isObject) + Accepted(b, isObject)
  {
    if a == [] {
      assert a + b == b;
    } else {
      assert (a + b)[0] == a[0] && (a + b)[1..] == a[1..] + b;
      AcceptedSplits(a[1..], b, isObject);
    }
  }

  lemma {:induction false} LinesUnfold(s: string)
    ensures var nl := IndexOf(s, '\n', 0);
      if nl == |s| then Lines(s) == [] && Tail(s) == s
      else Lines(s) == [s[..nl]] + Lines(s[nl + 1..]) && Tail(s) == Tail(s[nl + 1..])
  {
    hide IndexOf;
  }

  lemma Appended<T>(a: seq<T>, b: seq<T>, c: seq<T>)
    ensures a + (b + c) == (a + b) + c
  {}

  lemma {:induction false} FirstLine(s: string, t: string)
    ensures var nl := IndexOf(s, '\n', 0);
      nl < |s| ==>
        IndexOf(s + t, '\n', 0) == nl && (s + t)[..nl] == s[..nl] && (s + t)[nl + 1..] == s[nl + 1..] + t
  {
    var nl := IndexOf(s, '\n', 0);
    if nl < |s| {
      IndexOfIs(s + t, '\n', nl);
    }
  }

  /** Splitting a stream in two: the tail of the first part is taken up again. */
  lemma {:induction false} LinesSplit(s: string, t: string)
    ensures Lines(s + t) == Lines(s) + Lines(Tail(s) + t)
    ensures Tail(s + t) == Tail(Tail(s) + t)
    decreases |s|
  {
    hide Lines, Tail, IndexOf;
    var nl := IndexOf(s, '\n', 0);
    LinesUnfold(s);
    if nl < |s| {
      FirstLine(s, t);
      LinesUnfold(s + t);
      LinesSplit(s[nl + 1..], t);
      Appended([s[..nl]], Lines(s[nl + 1..]), Lines(Tail(s) + t));
    }
  }

  /** What a connection has buffered, whether it is open, and the frames handed on so far. */
  datatype Conn = Conn(buf: string, live: bool, handled: seq<string>)

  const FRESH: Conn := Conn("", true, [])

  /** One read: a buffer that would overflow closes the connection, with the data dropped. */
  function OnRead(c: Conn, data: string, isObject: string -> bool): Conn {
    if !c.live then c
    else if |c.buf| + |data| > MAX_BUFFER then c.(live := false)
    else Conn(Tail(c.buf + data), true, c.handled + Accepted(Lines(c.buf + data), isObject))
  }

  function ReadAll(parts: seq<string>, isObject: string -> bool): Conn {
    if parts == [] then FRESH else OnRead(ReadAll(parts[..|parts| - 1], isObject), parts[|parts| - 1], isObject)
  }

  function Concat(parts: seq<string>): string {
    if parts == [] then "" else Concat(parts[..|parts| - 1]) + parts[|parts| - 1]
  }

  /** How many reads are taken: all before the first that would overflow what is left of a line. */
  function Taken(parts: seq<string>): (k: nat)
    ensures k <= |parts|
  {
    if parts == [] then 0
    else
      var k := Taken(parts[..|parts| - 1]);
      if k == |parts| - 1 && |Tail(Concat(parts[..k]))| + |parts[k]| <= MAX_BUFFER then k + 1 else k
  }

  /**
   * Framing does not depend on read boundaries: the frames handed on are those of the stream itself, split at
   * newlines, and the buffer is its newline-free tail; an overflow only cuts the stream short.
   */
  lemma {:induction false} FramesOfStream(parts: seq<string>, isObject: string -> bool)
    ensures var stream := Concat(parts[..Taken(parts)]);
      ReadAll(parts, isObject) == Conn(Tail(stream), Taken(parts) == |parts|, Accepted(Lines(stream), isObject))
    ensures |ReadAll(parts, isObject).buf| <= MAX_BUFFER
  {
    if parts == [] {
      assert parts[..0] == [];
    } else {
      var before, data := parts[..|parts| - 1], parts[|parts| - 1];
      FramesOfStream(before, isObject);
      var k := Taken(before);
      assert before[..k] == parts[..k];
      if k == |before| && |Tail(Concat(before))| + |data| <= MAX_BUFFER {
        assert before[..k] == before && parts[..k + 1] == parts;
        LinesSplit(Concat(before), data);
        AcceptedSplits(Lines(Concat(before)), Lines(Tail(Concat(before)) + data), isObject);
      } else {
        assert k == |before| ==> before[..k] == before;
      }
    }
  }

  /** A frame is handed on exactly if it is a line of the stream, at most a mebibyte long, and an object. */
  lemma {:induction false} HandledIff(parts: seq<string>, isObject: string -> bool, frame: string)
    ensures frame in ReadAll(parts, isObject).handled
       <==> frame in Lines(Concat(parts[..Taken(parts)])) && |frame| <= 1_048_576 && isObject(frame)
  {
    FramesOfStream(parts, isObject);
    AcceptedIff(Lines(Concat(parts[..Taken(parts)])), isObject, frame);
  }

  lemma {:induction false} AcceptedIff(lines: seq<string>, isObject: string -> bool, line: string)
    ensures line in Accepted(lines, isObject) <==> line in lines && |line| <= 1_048_576 && isObject(line)
  {
    if lines != [] {
      AcceptedIff(lines[1..], isObject, line);
      assert line in lines <==> line == lines[0] || line in lines[1..];
    }
  }

  // When no read is cut

  ghost predicate ShortLines(s: string, limit: nat) {
    |Tail(s)| <= limit && forall line :: line in Lines(s) ==> |line| <= limit
  }

  /** An unfinished line is a part of a line of the whole stream. */
  lemma {:induction false} ShortTail(s: string, t: string, limit: nat)
    requires ShortLines(s + t, limit)
    ensures |Tail(s)| <= limit
  {
    LinesSplit(s, t);
    var rest := Tail(s) + t;
    var nl := IndexOf(rest, '\n', 0);
    if nl < |rest| {
      assert rest[..nl] in Lines(rest);
      assert rest[..nl] in Lines(s + t);
      assert forall i :: 0 <= i < |Tail(s)| ==> rest[i] == Tail(s)[i];
    }
  }

  lemma {:induction false} NothingCut(parts: seq<string>, rest: string)
    requires forall r :: r in parts ==> |r| <= STAGE
    requires ShortLines(Concat(parts) + rest, MAX_BUFFER - STAGE)
    ensures Taken(parts) == |parts|
  {
    if parts != [] {
      var n := |parts| - 1;
      Appended(Concat(parts[..n]), parts[n], rest);
      hide ShortLines, Lines, Tail;
      NothingCut(parts[..n], parts[n] + rest);
      ShortTail(Concat(parts[..n]), parts[n] + rest, MAX_BUFFER - STAGE);
    }
  }

  // What writeFrame puts on the wire

  function Written(frames: seq<string>): string {
    if frames == [] then "" else frames[0] + "\n" + Written(frames[1..])
  }

  predicate Writable(frame: string, isObject: string -> bool) {
    '\n' !in frame && Accepts(frame, isObject)
  }

  lemma {:induction false} FirstWritten(frame: string, rest: string)
    requires '\n' !in frame
    ensures var s := frame + "\n" + rest;
      IndexOf(s, '\n', 0) == |frame| && s[..|frame|] == frame && s[|frame| + 1..] == rest
  {
    var s := frame + "\n" + rest;
    assert forall i :: 0 <= i < |frame| ==> s[i] == frame[i] && s[i] != '\n';
    IndexOfIs(s, '\n', |frame|);
  }

  lemma {:induction false} WrittenLines(frames: seq<string>, isObject: string -> bool)
    requires forall f :: f in frames ==> Writable(f, isObject)
    ensures Lines(Written(frames)) == frames && Tail(Written(frames)) == "" && Accepted(frames, isObject) == frames
  {
    if frames != [] {
      var rest := frames[1..];
      assert forall f :: f in rest ==> f in frames;
      assert Writable(frames[0], isObject);
      hide Lines, Tail, Accepted, Accepts;
      FirstFrame(frames[0], Written(rest), isObject);
      WrittenLines(rest, isObject);
    }
  }

  lemma {:induction false} FirstFrame(frame: string, rest: string, isObject: string -> bool)
    requires Writable(frame, isObject)
    ensures var s := frame + "\n" + rest;
      Lines(s) == [frame] + Lines(rest) && Tail(s) == Tail(rest)
      && Accepted([frame] + Lines(rest), isObject) == [frame] + Accepted(Lines(rest), isObject)
  {
    FirstWritten(frame, rest);
    LinesUnfold(frame + "\n" + rest);
    hide Lines, Tail, IndexOf;
    assert ([frame] + Lines(rest))[1..] == Lines(rest);
  }

  /** Frames written one after another, however the network splits the bytes into reads, arrive as they were. */
  lemma {:induction false} RoundTrip(frames: seq<string>, parts: seq<string>, isObject: string -> bool)
    requires forall f :: f in frames ==> Writable(f, isObject)
    requires Concat(parts) == Written(frames) && forall r :: r in parts ==> |r| <= STAGE
    ensures ReadAll(parts, isObject) == Conn("", true, frames)
  {
    WrittenLines(frames, isObject);
    assert Concat(parts) + "" == Concat(parts);
    NothingCut(parts, "");
    FramesOfStream(parts, isObject);
    assert parts[..|parts|] == parts;
  }

  /** What taking one line off the buffer does. */
  lemma {:induction false} NextLine(buf: string, handled: seq<string>, isObject: string -> bool)
    ensures var nl := IndexOf(buf, '\n', 0);
      if nl == |buf| then Tail(buf) == buf && handled + Accepted(Lines(buf), isObject) == handled
      else
        && Tail(buf) == Tail(buf[nl + 1..])
        && handled + Accepted(Lines(buf), isObject)
           == (if Accepts(buf[..nl], isObject) then handled + [buf[..nl]] else handled)
             + Accepted(Lines(buf[nl + 1..]), isObject)
  {
    LinesUnfold(buf);
    hide Lines, Tail, IndexOf;
    var nl := IndexOf(buf, '\n', 0);
    if nl < |buf| {
      var rest := Lines(buf[nl + 1..]);
      assert ([buf[..nl]] + rest)[1..] == rest;
      Appended(handled, [buf[..nl]], Accepted(rest, isObject));
    }
  }

  /** A connection as network.cpp keeps it. */
  class PeerConnection {
    const isObject: string -> bool
    var readBuf: string
    var live: bool
    var handled: seq<string>

    constructor (isObject: string -> bool)
      ensures this.isObject == isObject && Snapshot() == FRESH
    {
      this.isObject := isObject;
      readBuf, live, handled := "", true, [];
    }

    ghost function Snapshot(): Conn
      reads this
    {
      Conn(readBuf, live, handled)
    }

    /** The completion handler of a read of at most 8192 bytes. */
    method ReadDone(data: string)
      requires live && |data| <= STAGE
      modifies this
      ensures Snapshot() == OnRead(old(Snapshot()), data, isObject)
    {
      if |readBuf| + |data| > MAX_BUFFER {
        live := false;
        return;
      }
      readBuf := readBuf + data;
      TryParseFrames();
    }

    /** Hands on every complete line but the rejected ones, and keeps the rest. */
    method TryParseFrames()
      modifies this`readBuf, this`handled
      ensures readBuf == Tail(old(readBuf))
      ensures handled == old(handled) + Accepted(Lines(old(readBuf)), isObject)
    {
      while true
        invariant Tail(readBuf) == Tail(old(readBuf))
        invariant handled + Accepted(Lines(readBuf), isObject) == old(handled) + Accepted(Lines(old(readBuf)), isObject)
        decreases |readBuf|
      {
        NextLine(readBuf, handled, isObject);
        hide Lines, Tail, Accepted;
        var nl := IndexOf(readBuf, '\n', 0);
        if nl == |readBuf| {
          break;
        }
        var rawFrame := readBuf[..nl];
        readBuf := readBuf[nl + 1..];
        if |rawFrame| > MAX_FRAME {
          continue;
        }
        if isObject(rawFrame) {
          handled := handled + [rawFrame];
        }
      }
    }
  }
}
