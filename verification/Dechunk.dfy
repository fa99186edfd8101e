/** The decoder of chunked HTTP bodies (src/net/upnp.cpp, dechunk), against section 7.1 of RFC 9112. */
module Dechunk {
  import opened Text

  const ULONG: nat := 0x1_0000_0000_0000_0000

  predicate CrlfAt(s: string, i: int) {
    0 <= i && i + 1 < |s| && s[i] == '\r' && s[i + 1] == '\n'
  }

  /** The first line end at or after `from`; |s| when there is none. */
  function FindCrlf(s: string, from: nat): (i: nat)
    requires from <= |s|
    ensures from <= i <= |s|
    ensures i < |s| ==> CrlfAt(s, i)
    ensures forall j :: from <= j < i ==> !CrlfAt(s, j)
    decreases |s| - from
  {
    if from == |s| || CrlfAt(s, from) then from else FindCrlf(s, from + 1)
  }

  lemma {:induction false} FindCrlfIs(s: string, from: nat, i: nat)
    requires from <= i && CrlfAt(s, i) && forall j :: from <= j < i ==> !CrlfAt(s, j)
    ensures FindCrlf(s, from) == i
    decreases i - from
  {
    if from < i {
      FindCrlfIs(s, from + 1, i);
    }
  }

  lemma {:induction false} FindCrlfInSuffix(s: string, pos: nat)
    requires pos <= |s|
    ensures FindCrlf(s, pos) == pos + FindCrlf(s[pos..], 0)
  {
    var t := s[pos..];
    var i := FindCrlf(t, 0);
    assert forall j :: 0 <= j < |t| ==> CrlfAt(t, j) == CrlfAt(s, pos + j);
    assert forall j :: pos <= j < pos + i ==> CrlfAt(s, j) == CrlfAt(t, j - pos);
    if i < |t| {
      FindCrlfIs(s, pos, pos + i);
    }
  }

  /** stoul in base sixteen: None where it throws; a minus sign wraps around. */
  function ParseSize(line: string): (size: Option<nat>)
    ensures size.Some? ==> size.value < ULONG
  {
    match ParseSigned(line, 16)
    case None => None
    case Some(Signed(negative, magnitude)) =>
      if magnitude >= ULONG then None
      else Some(if negative && magnitude > 0 then ULONG - magnitude else magnitude)
  }

  /**
   * The size line at `pos`: where its data starts and the size it announces; None where the loop stops for the line
   * alone.
   */
  function SizeAt(s: string, pos: nat): (r: Option<(nat, nat)>)
    requires pos <= |s|
    ensures r.Some? ==> pos + 2 <= r.value.0 <= |s| && 0 < r.value.1 < ULONG
  {
    var lineEnd := FindCrlf(s, pos);
    if lineEnd == |s| then None
    else
      var size := ParseSize(s[pos..lineEnd]);
      if size.None? || size.value == 0 then None else Some((lineEnd + 2, size.value))
  }

  /** Where the data of the chunk at `pos` starts and how long it is; None where the loop stops. */
  function ChunkFrom(s: string, pos: nat): (r: Option<(nat, nat)>)
    requires pos <= |s|
    ensures r.Some? ==> pos + 2 <= r.value.0 && 0 < r.value.1 && r.value.0 + r.value.1 <= |s|
  {
    var line := SizeAt(s, pos);
    if line.None? || line.value.0 + line.value.1 > |s| then None else line
  }

  function From(s: string, pos: nat): string {
    if pos <= |s| then s[pos..] else ""
  }

  /** The decoded body: never longer than the input. */
  function Decode(s: string): (out: string)
    ensures |out| <= |s|
    decreases |s|
  {
    match ChunkFrom(s, 0)
    case None => ""
    case Some((start, size)) => s[start..start + size] + Decode(From(s, start + size + 2))
  }

  /** Decoding once the first chunk is known. */
  function DecodeFirst(s: string, first: Option<(nat, nat)>): string
    requires first.Some? ==> first.value.0 + first.value.1 <= |s|
  {
    if first.None? then "" else DecodeAt(s, first.value.0, first.value.1)
  }

  function DecodeAt(s: string, start: nat, size: nat): string
    requires start + size <= |s|
  {
    s[start..start + size] + Decode(From(s, start + size + 2))
  }

  lemma SliceOfSuffix(s: string, pos: nat, start: nat, end: nat)
    requires start <= end && pos + end <= |s|
    ensures s[pos..][start..end] == s[pos + start..pos + end]
  {}

  lemma ChunkFromSuffix(s: string, pos: nat)
    requires pos < |s|
    ensures var here, there := ChunkFrom(s, pos), ChunkFrom(s[pos..], 0);
      && (here.Some? <==> there.Some?)
      && (here.Some? ==> here.value == (there.value.0 + pos, there.value.1))
  {
    hide ParseSize, FindCrlf;
    FindCrlfInSuffix(s, pos);
    SliceOfSuffix(s, pos, 0, FindCrlf(s, pos) - pos);
  }

  lemma FromSuffix(s: string, pos: nat, k: nat)
    requires pos <= |s|
    ensures From(s[pos..], k) == From(s, pos + k)
  {}

  lemma FirstOfSuffix(s: string, pos: nat, start: nat, size: nat)
    requires pos + start + size <= |s|
    ensures DecodeAt(s[pos..], start, size) == DecodeAt(s, pos + start, size)
  {
    hide Decode, From;
    SliceOfSuffix(s, pos, start, start + size);
    FromSuffix(s, pos, start + size + 2);
  }

  lemma {:induction false} DecodeIs(s: string)
    ensures Decode(s) == DecodeFirst(s, ChunkFrom(s, 0))
  {
    hide ChunkFrom, From;
  }

  /** Decoding from a position on, chunk by chunk. */
  lemma DecodeFrom(s: string, pos: nat)
    requires pos < |s|
    ensures Decode(From(s, pos)) == DecodeFirst(s, ChunkFrom(s, pos))
  {
    hide ChunkFrom, Decode, DecodeAt;
    var there := ChunkFrom(s[pos..], 0);
    DecodeIs(s[pos..]);
    ChunkFromSuffix(s, pos);
    if there.Some? {
      FirstOfSuffix(s, pos, there.value.0, there.value.1);
    }
  }

  lemma Associative(a: string, b: string, c: string)
    ensures a + (b + c) == (a + b) + c
  {}

  lemma DecodeNothing(s: string, pos: nat)
    requires pos >= |s|
    ensures Decode(From(s, pos)) == ""
  {}

  /** What one turn of the loop does to the invariant. */
  lemma Consume(s: string, pos: nat, out: string)
    requires pos < |s| && out + Decode(From(s, pos)) == Decode(s)
    ensures match ChunkFrom(s, pos)
      case None => out == Decode(s)
      case Some((start, size)) => out + s[start..start + size] + Decode(From(s, start + size + 2)) == Decode(s)
  {
    hide ChunkFrom, Decode, From;
    DecodeFrom(s, pos);
    var here := ChunkFrom(s, pos);
    if here.Some? {
      var (start, size) := here.value;
      Associative(out, s[start..start + size], Decode(From(s, start + size + 2)));
    }
  }

  /** The loop, over mathematical integers. */
  method DechunkBody(s: string) returns (out: string)
    ensures out == Decode(s) && |out| <= |s|
  {
    hide Decode, From, ParseSize, CrlfAt, FindCrlf;
    out := "";
    var pos := 0;
    assert From(s, 0) == s by {
      WholeFrom(s);
    }
    while pos < |s|
      invariant out + Decode(From(s, pos)) == Decode(s)
      decreases |s| - pos
    {
      Consume(s, pos, out);
      var lineEnd := FindCrlf(s, pos);
      if lineEnd == |s| {
        return;
      }
      var size := ParseSize(s[pos..lineEnd]);
      if size.None? || size.value == 0 {
        return;
      }
      var dataStart := lineEnd + 2;
      if dataStart + size.value > |s| {
        return;
      }
      out := out + s[dataStart..dataStart + size.value];
      pos := dataStart + size.value + 2;
    }
    DecodeNothing(s, pos);
  }

  lemma WholeFrom(s: string)
    ensures From(s, 0) == s
  {}

  // Encoding

  /** A chunk as it was sent: the line before the data, without its line end, and the data. */
  datatype Chunk = Chunk(line: string, digits: nat, data: string)

  predicate OneLine(line: string) {
    forall i :: 0 <= i < |line| ==> !CrlfAt(line, i)
  }

  /** chunk-size [ chunk-ext ]: hexadecimal digits for `size`, then nothing, blanks or extensions. */
  predicate SizeLine(line: string, digits: nat, size: nat) {
    && 0 < digits <= |line| && AllDigits(line[..digits], 16) && Value(line[..digits], 16) == size
    && (digits < |line| ==> line[digits] == ';' || line[digits] == ' ' || line[digits] == '\t')
    && OneLine(line)
  }

  predicate WellFormed(c: Chunk) {
    SizeLine(c.line, c.digits, |c.data|) && 0 < |c.data| < ULONG
  }

  function EncodeOne(c: Chunk, rest: string): string {
    c.line + "\r\n" + c.data + "\r\n" + rest
  }

  function Encode(cs: seq<Chunk>, last: string, trailer: string): string {
    if cs == [] then last + "\r\n" + trailer else EncodeOne(cs[0], Encode(cs[1..], last, trailer))
  }

  function Concat(cs: seq<Chunk>): string {
    if cs == [] then "" else cs[0].data + Concat(cs[1..])
  }

  lemma SizeLineParses(line: string, digits: nat, size: nat)
    requires SizeLine(line, digits, size) && size < ULONG
    ensures ParseSize(line) == Some(size)
  {
    ParseDigits(line, digits, 16);
  }

  /** A line followed by its end is found whole, whatever comes next. */
  lemma LineFound(line: string, rest: string)
    requires OneLine(line)
    ensures var s := line + "\r\n" + rest;
      FindCrlf(s, 0) == |line| && s[..|line|] == line
  {
    var s := line + "\r\n" + rest;
    assert CrlfAt(s, |line|);
    forall j | 0 <= j < |line|
      ensures !CrlfAt(s, j)
    {
      assert !CrlfAt(line, j);
      assert s[j] == line[j] && (j + 1 < |line| ==> s[j + 1] == line[j + 1]);
    }
    FindCrlfIs(s, 0, |line|);
  }

  /** Where the parts of an encoded chunk are found again. */
  lemma EncodedParts(c: Chunk, rest: string)
    ensures var s, start := EncodeOne(c, rest), |c.line| + 2;
      && |s| == start + |c.data| + 2 + |rest| && s == c.line + "\r\n" + (c.data + "\r\n" + rest)
      && s[start..start + |c.data|] == c.data && From(s, start + |c.data| + 2) == rest
  {}

  lemma EncodedLine(c: Chunk, rest: string)
    requires WellFormed(c)
    ensures var s := EncodeOne(c, rest);
      |c.line| < |s| && FindCrlf(s, 0) == |c.line| && s[..|c.line|] == c.line
  {
    EncodedParts(c, rest);
    LineFound(c.line, c.data + "\r\n" + rest);
  }

  lemma EncodedChunk(c: Chunk, rest: string)
    requires WellFormed(c)
    ensures ChunkFrom(EncodeOne(c, rest), 0) == Some((|c.line| + 2, |c.data|))
  {
    SizeLineParses(c.line, c.digits, |c.data|);
    EncodedParts(c, rest);
    EncodedLine(c, rest);
    SizeAtLine(EncodeOne(c, rest), |c.line|, |c.data|);
    hide EncodeOne, SizeAt, WellFormed;
  }

  lemma {:induction false} SizeAtLine(s: string, lineEnd: nat, size: nat)
    requires FindCrlf(s, 0) == lineEnd < |s| && ParseSize(s[..lineEnd]) == Some(size) && size > 0
    ensures SizeAt(s, 0) == Some((lineEnd + 2, size))
  {
    hide FindCrlf, ParseSize;
    assert s[0..lineEnd] == s[..lineEnd];
  }

  lemma {:induction false} EncodedStep(c: Chunk, rest: string)
    requires WellFormed(c)
    ensures Decode(EncodeOne(c, rest)) == c.data + Decode(rest)
  {
    hide EncodeOne, WellFormed, ChunkFrom, Decode, From;
    EncodedParts(c, rest);
    EncodedChunk(c, rest);
    DecodeIs(EncodeOne(c, rest));
  }

  /**
   * The decoder inverts chunked coding: data may hold line ends, sizes may carry extensions, any trailer may follow.
   */
  lemma {:induction false} DecodeInvertsEncode(cs: seq<Chunk>, last: string, zeros: nat, trailer: string)
    requires (forall i :: 0 <= i < |cs| ==> WellFormed(cs[i])) && SizeLine(last, zeros, 0)
    ensures Decode(Encode(cs, last, trailer)) == Concat(cs)
  {
    if cs == [] {
      LineFound(last, trailer);
      SizeLineParses(last, zeros, 0);
    } else {
      DecodeInvertsEncode(cs[1..], last, zeros, trailer);
      EncodedStep(cs[0], Encode(cs[1..], last, trailer));
    }
  }

  /** A plain hexadecimal size is a size line. */
  lemma {:induction false} HexSizeLine(n: nat)
    ensures SizeLine(Numeral(n, 16), |Numeral(n, 16)|, n)
  {
    NumeralValue(n, 16);
    var line := Numeral(n, 16);
    assert line[..|line|] == line;
    forall i
      ensures !CrlfAt(line, i)
    {
      if 0 <= i < |line| {
        assert IsDigit(line[i], 16);
      }
    }
  }

  // Bodies cut short

  lemma CutLine(c: Chunk, rest: string, n: nat)
    requires WellFormed(c) && n < |c.line| + 2 + |c.data|
    requires n <= |EncodeOne(c, rest)|
    ensures Decode(EncodeOne(c, rest)[..n]) == ""
  {
    var s := EncodeOne(c, rest);
    var cut := s[..n];
    if n >= |c.line| + 2 {
      assert cut == c.line + "\r\n" + cut[|c.line| + 2..];
      LineFound(c.line, cut[|c.line| + 2..]);
      SizeLineParses(c.line, c.digits, |c.data|);
    } else {
      assert s == c.line + "\r\n" + (c.data + "\r\n" + rest);
      LineFound(c.line, c.data + "\r\n" + rest);
      var i := FindCrlf(cut, 0);
      assert i < n ==> CrlfAt(s, i);
      assert forall j :: 0 <= j < |c.line| ==> !CrlfAt(s, j);
    }
  }

  /** Where in the encoded body the data of chunk i ends. */
  function DataEnd(cs: seq<Chunk>, i: nat): nat
    requires i < |cs|
    decreases |cs|
  {
    var whole := |cs[0].line| + 2 + |cs[0].data|;
    if i == 0 then whole else whole + 2 + DataEnd(cs[1..], i - 1)
  }

  /** How many chunks have their data within the first n characters. */
  function Arrived(cs: seq<Chunk>, n: nat): (k: nat)
    ensures k <= |cs|
  {
    if cs == [] || n < DataEnd(cs, 0) then
      0
    else if n < DataEnd(cs, 0) + 2 then
      1
    else
      1 + Arrived(cs[1..], n - DataEnd(cs, 0) - 2)
  }

  lemma {:induction false} ArrivedEndInTime(cs: seq<Chunk>, n: nat)
    ensures forall i :: 0 <= i < |cs| ==> (i < Arrived(cs, n) <==> DataEnd(cs, i) <= n)
  {
    if cs != [] && n >= DataEnd(cs, 0) + 2 {
      var m := n - DataEnd(cs, 0) - 2;
      ArrivedEndInTime(cs[1..], m);
      forall i | 0 < i < |cs|
        ensures i < Arrived(cs, n) <==> DataEnd(cs, i) <= n
      {
        assert i - 1 < Arrived(cs[1..], m) <==> DataEnd(cs[1..], i - 1) <= m;
      }
    }
  }

  /** A body cut anywhere decodes to the chunks whose data arrived whole, and to nothing else. */
  lemma CutDecodesToWholeChunks(cs: seq<Chunk>, last: string, zeros: nat, trailer: string, n: nat) returns (k: nat)
    requires (forall i :: 0 <= i < |cs| ==> WellFormed(cs[i])) && SizeLine(last, zeros, 0)
    requires n <= |Encode(cs, last, trailer)|
    ensures k <= |cs| && Decode(Encode(cs, last, trailer)[..n]) == Concat(cs[..k])
    ensures forall i :: 0 <= i < |cs| ==> (i < k <==> DataEnd(cs, i) <= n)
  {
    k := Arrived(cs, n);
    ArrivedEndInTime(cs, n);
    CutDecodes(cs, last, zeros, trailer, n);
  }

  ghost predicate AllWellFormed(cs: seq<Chunk>) {
    forall i :: 0 <= i < |cs| ==> WellFormed(cs[i])
  }

  lemma {:induction false} CutDecodes(cs: seq<Chunk>, last: string, zeros: nat, trailer: string, n: nat)
    requires AllWellFormed(cs) && SizeLine(last, zeros, 0)
    requires n <= |Encode(cs, last, trailer)|
    ensures Decode(Encode(cs, last, trailer)[..n]) == Concat(cs[..Arrived(cs, n)])
  {
    hide *;
    if cs == [] {
      CutNone(cs, last, zeros, trailer, n);
    } else {
      var rest := Encode(cs[1..], last, trailer);
      Unrolled(cs, last, trailer);
      if n >= DataEnd(cs, 0) + 2 {
        CutDecodes(cs[1..], last, zeros, trailer, n - DataEnd(cs, 0) - 2);
      }
      CutOne(cs, rest, n);
    }
  }

  lemma {:induction false} Unrolled(cs: seq<Chunk>, last: string, trailer: string)
    requires cs != [] && AllWellFormed(cs)
    ensures WellFormed(cs[0]) && AllWellFormed(cs[1..])
    ensures Encode(cs, last, trailer) == EncodeOne(cs[0], Encode(cs[1..], last, trailer))
    ensures |Encode(cs, last, trailer)| == DataEnd(cs, 0) + 2 + |Encode(cs[1..], last, trailer)|
  {
    hide WellFormed;
    EncodedParts(cs[0], Encode(cs[1..], last, trailer));
  }

  lemma {:induction false} CutNone(cs: seq<Chunk>, last: string, zeros: nat, trailer: string, n: nat)
    requires cs == [] && SizeLine(last, zeros, 0) && n <= |Encode(cs, last, trailer)|
    ensures Decode(Encode(cs, last, trailer)[..n]) == Concat(cs[..Arrived(cs, n)])
  {
    hide SizeLine, Decode;
    CutLast(last, zeros, trailer, n);
  }

  lemma {:induction false} CutOne(cs: seq<Chunk>, rest: string, n: nat)
    requires cs != [] && WellFormed(cs[0]) && n <= |EncodeOne(cs[0], rest)|
    requires var m := n - DataEnd(cs, 0) - 2;
      0 <= m ==> m <= |rest| && Decode(rest[..m]) == Concat(cs[1..][..Arrived(cs[1..], m)])
    ensures Decode(EncodeOne(cs[0], rest)[..n]) == Concat(cs[..Arrived(cs, n)])
  {
    hide WellFormed, EncodeOne, ChunkFrom, Decode, Concat;
    if n < DataEnd(cs, 0) {
      CutLine(cs[0], rest, n);
      ConcatNone(cs);
    } else if n < DataEnd(cs, 0) + 2 {
      CutAfterData(cs[0], rest, n);
      ConcatMore(cs, 0);
    } else {
      var m := n - DataEnd(cs, 0) - 2;
      CutMore(cs[0], rest, m);
      ConcatMore(cs, Arrived(cs[1..], m));
    }
  }

  lemma ConcatNone(cs: seq<Chunk>)
    ensures Concat(cs[..0]) == ""
  {}

  lemma {:induction false} ConcatMore(cs: seq<Chunk>, k: nat)
    requires k < |cs|
    ensures Concat(cs[..k + 1]) == cs[0].data + Concat(cs[1..][..k])
    ensures k == 0 ==> Concat(cs[..k + 1]) == cs[0].data
  {
    assert cs[..k + 1][0] == cs[0] && cs[..k + 1][1..] == cs[1..][..k];
  }

  lemma CutMore(c: Chunk, rest: string, m: nat)
    requires WellFormed(c) && m <= |rest|
    ensures var n := |c.line| + 2 + |c.data| + 2 + m;
      n <= |EncodeOne(c, rest)| && Decode(EncodeOne(c, rest)[..n]) == c.data + Decode(rest[..m])
  {
    hide WellFormed, Decode;
    EncodedStep(c, rest[..m]);
    assert EncodeOne(c, rest)[..|c.line| + 2 + |c.data| + 2 + m] == EncodeOne(c, rest[..m]);
  }

  lemma CutLast(last: string, zeros: nat, trailer: string, n: nat)
    requires SizeLine(last, zeros, 0) && n <= |last + "\r\n" + trailer|
    ensures Decode((last + "\r\n" + trailer)[..n]) == ""
  {
    var s := last + "\r\n" + trailer;
    var cut := s[..n];
    LineFound(last, trailer);
    SizeLineParses(last, zeros, 0);
    var i := FindCrlf(cut, 0);
    assert forall j :: 0 <= j < n - 1 ==> CrlfAt(cut, j) == CrlfAt(s, j);
    if i < |cut| {
      assert i == |last|;
      assert cut[..i] == last;
    }
  }

  lemma SliceOfPrefix(s: string, n: nat, from: nat, end: nat)
    requires from <= end <= n <= |s|
    ensures s[..n][from..end] == s[from..end]
  {}

  lemma {:induction false} CutAfterData(c: Chunk, rest: string, n: nat)
    requires WellFormed(c) && |c.line| + 2 + |c.data| <= n < |c.line| + 4 + |c.data|
    ensures Decode(EncodeOne(c, rest)[..n]) == c.data
  {
    var s, start := EncodeOne(c, rest), |c.line| + 2;
    var cut := s[..n];
    ChunkUncut(c, rest, n);
    hide *;
    EncodedParts(c, rest);
    SliceOfPrefix(s, n, start, start + |c.data|);
    DecodeOnly(cut, start, |c.data|);
  }

  lemma ChunkUncut(c: Chunk, rest: string, n: nat)
    requires WellFormed(c) && |c.line| + 2 + |c.data| <= n < |c.line| + 4 + |c.data|
    ensures n <= |EncodeOne(c, rest)| && ChunkFrom(EncodeOne(c, rest)[..n], 0) == Some((|c.line| + 2, |c.data|))
  {
    var cut := EncodeOne(c, rest)[..n];
    assert cut == c.line + "\r\n" + cut[|c.line| + 2..];
    LineFound(c.line, cut[|c.line| + 2..]);
    SizeLineParses(c.line, c.digits, |c.data|);
    SizeAtLine(cut, |c.line|, |c.data|);
    hide EncodeOne, SizeAt, WellFormed;
  }

  lemma {:induction false} DecodeOnly(s: string, start: nat, size: nat)
    requires ChunkFrom(s, 0) == Some((start, size)) && |s| < start + size + 2
    ensures Decode(s) == s[start..start + size]
  {
    hide ChunkFrom, Decode;
    DecodeIs(s);
    DecodeNothing(s, start + size + 2);
    assert s[start..start + size] + "" == s[start..start + size];
  }

  // Positions of 64 bits

  /** No string reaches this length. */
  const MAX_BODY: nat := ULONG / 2

  function Min(a: nat, b: nat): nat {
    if a < b then a else b
  }

  /** One turn of the loop as the program computes it: what is appended and where the next turn starts. */
  function Turn64(s: string, pos: nat): Option<(string, nat)>
    requires pos <= |s|
  {
    var line := SizeAt(s, pos);
    if line.None? then None
    else
      var (dataStart, size) := line.value;
      if (dataStart + size) % ULONG > |s| then None
      else Some((s[dataStart..Min(dataStart + size, |s|)], (dataStart + size + 2) % ULONG))
  }

  /** The same turn over mathematical integers. */
  function TurnOf(s: string, chunk: Option<(nat, nat)>): Option<(string, nat)>
    requires chunk.Some? ==> chunk.value.0 + chunk.value.1 <= |s|
  {
    match chunk case None => None case Some((start, size)) => Some((s[start..start + size], start + size + 2))
  }

  /** The end of the announced data wraps around and lands inside the body. */
  predicate Wraps(s: string, pos: nat)
    requires pos <= |s|
  {
    var line := SizeAt(s, pos);
    line.Some? && ULONG <= line.value.0 + line.value.1 <= ULONG + |s|
  }

  /** A turn is the mathematical one exactly when its size line does not wrap. */
  lemma TurnsAgreeIff(s: string, pos: nat)
    requires pos < |s| < MAX_BODY
    ensures Turn64(s, pos) == TurnOf(s, ChunkFrom(s, pos)) <==> !Wraps(s, pos)
  {
    hide SizeAt;
    var line := SizeAt(s, pos);
    if line.Some? {
      var end := line.value.0 + line.value.1;
      if end >= ULONG {
        assert end % ULONG == end - ULONG;
      } else if end <= |s| {
        assert (end + 2) % ULONG == end + 2;
      }
    }
  }

  datatype Loop = Running(pos: nat, out: string) | Stopped(out: string)

  const START: Loop := Running(0, "")

  function Turn(s: string, l: Loop): Loop {
    if l.Stopped? then l
    else if l.pos >= |s| then Stopped(l.out)
    else
      var t := Turn64(s, l.pos);
      if t.None? then Stopped(l.out) else Running(t.value.1, l.out + t.value.0)
  }

  function Turns(s: string, l: Loop, n: nat): Loop {
    if n == 0 then l else Turn(s, Turns(s, l, n - 1))
  }

  /** The loop of dechunk on 64-bit positions, given a number of turns. */
  method DechunkTurns(s: string, turns: nat) returns (l: Loop)
    requires |s| < MAX_BODY
    ensures l == Turns(s, START, turns)
  {
    hide SizeAt;
    var out, stopped := "", false;
    var pos: nat := 0;
    for k := 0 to turns
      invariant (if stopped then Stopped(out) else Running(pos, out)) == Turns(s, START, k)
    {
      if !stopped {
        var line := if pos < |s| then SizeAt(s, pos) else None;
        if line.None? || (line.value.0 + line.value.1) % ULONG > |s| {
          stopped := true;
        } else {
          var (dataStart, size) := line.value;
          out := out + s[dataStart..Min(dataStart + size, |s|)];
          pos := (dataStart + size + 2) % ULONG;
        }
      }
    }
    l := if stopped then Stopped(out) else Running(pos, out);
  }

  lemma {:induction false} TurnsFirst(s: string, l: Loop, n: nat)
    ensures Turns(s, Turn(s, l), n) == Turns(s, l, n + 1)
  {
    hide Turn;
    if n > 0 {
      TurnsFirst(s, l, n - 1);
    }
  }

  /** The size line the loop reads next, if it reads one, wraps. */
  predicate AtWrap(s: string, l: Loop) {
    l.Running? && l.pos < |s| && Wraps(s, l.pos)
  }

  ghost predicate NoWrapReached(s: string, l: Loop) {
    forall n: nat :: !AtWrap(s, Turns(s, l, n))
  }

  lemma NextNoWrap(s: string, l: Loop)
    requires NoWrapReached(s, l)
    ensures !AtWrap(s, l) && NoWrapReached(s, Turn(s, l))
  {
    assert Turns(s, l, 0) == l;
    forall n: nat
      ensures !AtWrap(s, Turns(s, Turn(s, l), n))
    {
      TurnsFirst(s, l, n);
      assert !AtWrap(s, Turns(s, l, n + 1));
    }
  }

  /** What the loop has put out, and what it would still put out over mathematical integers. */
  function Promised(s: string, l: Loop): string {
    match l case Running(pos, out) => out + Decode(From(s, pos)) case Stopped(out) => out
  }

  /** A turn that does not wrap keeps the promise, and moves forward or stops. */
  lemma {:induction false} TurnKeepsPromise(s: string, l: Loop)
    requires |s| < MAX_BODY && !AtWrap(s, l)
    ensures Promised(s, Turn(s, l)) == Promised(s, l)
    ensures l.Running? && l.pos < |s| && Turn(s, l).Running? ==> l.pos < Turn(s, l).pos
    ensures l.Running? && l.pos >= |s| ==> Turn(s, l).Stopped?
  {
    hide Decode, From, Turn64, Wraps, SizeAt;
    if l.Running? {
      if l.pos >= |s| {
        DecodeNothing(s, l.pos);
      } else {
        TurnsAgreeIff(s, l.pos);
        DecodeFrom(s, l.pos);
        hide ChunkFrom;
        var chunk := ChunkFrom(s, l.pos);
        if chunk.Some? {
          var (start, size) := chunk.value;
          Associative(l.out, s[start..start + size], Decode(From(s, start + size + 2)));
        }
      }
    }
  }

  function Left(s: string, l: Loop): nat {
    if l.Stopped? then 0 else if l.pos >= |s| then 1 else |s| - l.pos + 1
  }

  /** As long as no size line that is reached wraps, the loop stops with everything it promised. */
  lemma {:induction false} LoopStops(s: string, l: Loop) returns (n: nat)
    requires |s| < MAX_BODY && NoWrapReached(s, l)
    ensures Turns(s, l, n) == Stopped(Promised(s, l))
    decreases Left(s, l)
  {
    n := 0;
    if l.Running? {
      NextNoWrap(s, l);
      TurnKeepsPromise(s, l);
      hide Turn, AtWrap, Promised, NoWrapReached;
      n := LoopStops(s, Turn(s, l));
      TurnsFirst(s, l, n);
      n := n + 1;
    }
  }

  /**
   * On 64-bit positions: for every body in which no size line that is reached wraps, the loop ends with its decoding.
   */
  lemma {:induction false} LoopDecodes(s: string) returns (n: nat)
    requires |s| < MAX_BODY && NoWrapReached(s, START)
    ensures Turns(s, START, n) == Stopped(Decode(s))
  {
    n := LoopStops(s, START);
    WholeFrom(s);
    assert "" + Decode(s) == Decode(s);
  }

  ghost predicate NoWrapBefore(s: string, n: nat) {
    forall k: nat :: k < n ==> !AtWrap(s, Turns(s, START, k))
  }

  /** The n-th turn is the first to meet a size line that wraps. */
  ghost predicate FirstWrap(s: string, n: nat) {
    AtWrap(s, Turns(s, START, n)) && NoWrapBefore(s, n)
  }

  lemma {:induction false} PromiseUntilWrap(s: string, n: nat)
    requires |s| < MAX_BODY && NoWrapBefore(s, n)
    ensures Promised(s, Turns(s, START, n)) == Decode(s)
  {
    if n == 0 {
      WholeFrom(s);
      assert "" + Decode(s) == Decode(s);
    } else {
      PromiseUntilWrap(s, n - 1);
      TurnKeepsPromise(s, Turns(s, START, n - 1));
    }
  }

  /** A turn at a size line that wraps: nothing was left to decode, yet the rest of the body is appended. */
  lemma {:induction false} WrapTurn(s: string, l: Loop)
    requires |s| < MAX_BODY && AtWrap(s, l)
    ensures SizeAt(s, l.pos).Some? && Promised(s, l) == l.out
    ensures var (dataStart, size) := SizeAt(s, l.pos).value;
      Turn(s, l) == Running((dataStart + size + 2) % ULONG, l.out + s[dataStart..])
  {
    NothingAtWrap(s, l);
    WrapTurn64(s, l.pos);
    hide Promised, SizeAt, Turn64, Wraps;
  }

  lemma WrapTurn64(s: string, pos: nat)
    requires pos < |s| < MAX_BODY && Wraps(s, pos)
    ensures var (dataStart, size) := SizeAt(s, pos).value;
      Turn64(s, pos) == Some((s[dataStart..], (dataStart + size + 2) % ULONG))
  {
    hide SizeAt;
    var (dataStart, size) := SizeAt(s, pos).value;
    assert (dataStart + size) % ULONG == dataStart + size - ULONG;
    assert s[dataStart..|s|] == s[dataStart..];
  }

  lemma {:induction false} NothingAtWrap(s: string, l: Loop)
    requires |s| < MAX_BODY && AtWrap(s, l)
    ensures Promised(s, l) == l.out
  {
    DecodeFrom(s, l.pos);
    hide Decode, SizeAt, From;
    assert l.out + "" == l.out;
  }

  /**
   * At the first size line that wraps the decoding is complete, but the loop appends the rest of the body and goes on.
   */
  lemma {:induction false} FirstWrapGoesOn(s: string, n: nat)
    requires |s| < MAX_BODY && FirstWrap(s, n)
    ensures var l := Turns(s, START, n);
      && SizeAt(s, l.pos).Some? && l.out == Decode(s)
      && var (dataStart, size) := SizeAt(s, l.pos).value;
         Turns(s, START, n + 1) == Running((dataStart + size + 2) % ULONG, Decode(s) + s[dataStart..])
  {
    hide Decode, SizeAt, Turn, Promised, AtWrap, NoWrapBefore;
    PromiseUntilWrap(s, n);
    WrapTurn(s, Turns(s, START, n));
    assert Turns(s, START, n + 1) == Turn(s, Turns(s, START, n));
  }

  lemma TurnGrows(s: string, l: Loop)
    ensures |l.out| <= |Turn(s, l).out| && (l.Stopped? ==> Turn(s, l) == l)
  {
    hide SizeAt;
  }

  lemma {:induction false} OutGrows(s: string, l: Loop, m: nat, n: nat)
    requires m <= n
    ensures |Turns(s, l, m).out| <= |Turns(s, l, n).out|
    ensures Turns(s, l, m).Stopped? ==> Turns(s, l, n) == Turns(s, l, m)
    decreases n - m
  {
    hide Turn;
    if m < n {
      OutGrows(s, l, m, n - 1);
      TurnGrows(s, Turns(s, l, n - 1));
    }
  }

  /** Where the data announced by that line would start. */
  function DataStart(s: string, l: Loop): nat
    requires AtWrap(s, l)
  {
    SizeAt(s, l.pos).value.0
  }

  /** If data follows that line, the loop never ends with the decoding: it puts out more, or never ends. */
  lemma {:induction false} WrapSpoils(s: string, n: nat, m: nat)
    requires |s| < MAX_BODY && FirstWrap(s, n) && DataStart(s, Turns(s, START, n)) < |s|
    ensures Turns(s, START, m) != Stopped(Decode(s))
  {
    hide Decode, SizeAt, Turn, Turns, Wraps, NoWrapBefore;
    FirstWrapGoesOn(s, n);
    if m <= n {
      OutGrows(s, START, m, n);
    } else {
      OutGrows(s, START, n + 1, m);
    }
  }

  lemma {:induction false} SomeFirstWrap(s: string, n: nat) returns (k: nat)
    requires AtWrap(s, Turns(s, START, n))
    ensures k <= n && FirstWrap(s, k)
  {
    hide AtWrap, Turns;
    if j: nat :| j < n && AtWrap(s, Turns(s, START, j)) {
      k := SomeFirstWrap(s, j);
    } else {
      k := n;
    }
  }

  /**
   * For every body in which data follows the first line that wraps: the loop decodes exactly if no line reached wraps.
   */
  lemma {:induction false} DecodesIffNoWrap(s: string)
    requires |s| < MAX_BODY
    requires forall n: nat :: FirstWrap(s, n) ==> DataStart(s, Turns(s, START, n)) < |s|
    ensures (exists n: nat :: Turns(s, START, n) == Stopped(Decode(s))) <==> NoWrapReached(s, START)
  {
    hide Decode, Turns, AtWrap, DataStart;
    if NoWrapReached(s, START) {
      var n := LoopDecodes(s);
    } else {
      var n: nat :| AtWrap(s, Turns(s, START, n));
      var k := SomeFirstWrap(s, n);
      forall m: nat
        ensures Turns(s, START, m) != Stopped(Decode(s))
      {
        WrapSpoils(s, k, m);
      }
    }
  }

  // Where the positions lead

  /** The line at pos wraps and nothing follows it: the loop only moves on. */
  predicate WrapsEmpty(s: string, pos: nat)
    requires pos <= |s|
  {
    Wraps(s, pos) && SizeAt(s, pos).value.0 == |s|
  }

  /** Where it moves on to. */
  function Hop(s: string, pos: nat): nat
    requires pos <= |s| && WrapsEmpty(s, pos)
  {
    (|s| + SizeAt(s, pos).value.1 + 2) % ULONG
  }

  /** At most `hops` such moves from pos lead to a turn that ends the loop without another character. */
  predicate Lands(s: string, pos: nat, hops: nat)
    decreases hops
  {
    || pos >= |s|
    || (if WrapsEmpty(s, pos) then hops > 0 && Lands(s, Hop(s, pos), hops - 1)
        else !Wraps(s, pos) && ChunkFrom(s, pos).None?)
  }

  /**
   * What the body itself says about the loop from pos on: ordinary chunks, and then an ordinary end, or a line that
   * wraps with nothing after it and from which the positions land.
   */
  predicate EndsRight(s: string, pos: nat)
    decreases |s| - pos
  {
    if pos >= |s| then true
    else if Wraps(s, pos) then WrapsEmpty(s, pos) && Lands(s, pos, |s|)
    else
      match ChunkFrom(s, pos)
      case None => true
      case Some((start, size)) => EndsRight(s, start + size + 2)
  }

  lemma {:induction false} MoreHops(s: string, pos: nat, hops: nat)
    requires Lands(s, pos, hops)
    ensures Lands(s, pos, hops + 1)
    decreases hops
  {
    hide Wraps, Hop, WrapsEmpty, ChunkFrom;
    if pos < |s| && WrapsEmpty(s, pos) {
      MoreHops(s, Hop(s, pos), hops - 1);
    }
  }

  /** The positions of a shortest way to land are all different. */
  lemma {:induction false} Visited(s: string, pos: nat, hops: nat) returns (visited: set<nat>)
    requires Lands(s, pos, hops) && (hops > 0 ==> !Lands(s, pos, hops - 1))
    ensures |visited| == hops && forall p :: p in visited ==> p < |s| && Lands(s, p, hops)
    decreases hops
  {
    hide Wraps, Hop, WrapsEmpty, ChunkFrom;
    visited := {};
    if hops > 0 {
      var rest := Visited(s, Hop(s, pos), hops - 1);
      forall p | p in rest
        ensures Lands(s, p, hops)
      {
        MoreHops(s, p, hops - 1);
      }
      visited := rest + {pos};
    }
  }

  lemma {:induction false} FewBelow(below: set<nat>, n: nat)
    requires forall p :: p in below ==> p < n
    ensures |below| <= n
  {
    if n > 0 {
      FewBelow(below - {n - 1}, n - 1);
      assert below <= below - {n - 1} + {n - 1};
    } else {
      assert below == {};
    }
  }

  /** Landing at all takes no more moves than the body has positions. */
  lemma {:induction false} LandsSoon(s: string, pos: nat, hops: nat)
    requires Lands(s, pos, hops)
    ensures Lands(s, pos, |s|)
    decreases hops
  {
    hide Lands;
    if hops > 0 && Lands(s, pos, hops - 1) {
      LandsSoon(s, pos, hops - 1);
    } else {
      var visited := Visited(s, pos, hops);
      FewBelow(visited, |s|);
      LandsWithin(s, pos, hops, |s|);
    }
  }

  lemma {:induction false} LandsWithin(s: string, pos: nat, hops: nat, more: nat)
    requires Lands(s, pos, hops) && hops <= more
    ensures Lands(s, pos, more)
  {
    hide Lands;
    if hops < more {
      LandsWithin(s, pos, hops, more - 1);
      MoreHops(s, pos, more - 1);
    }
  }

  /** A turn at a position inside the body, after the decoding is complete. */
  lemma {:induction false} LaterTurn(s: string, l: Loop)
    requires l.Running? && l.pos < |s| < MAX_BODY
    ensures WrapsEmpty(s, l.pos) ==> Turn(s, l) == Running(Hop(s, l.pos), l.out)
    ensures Wraps(s, l.pos) && !WrapsEmpty(s, l.pos) ==> |l.out| < |Turn(s, l).out|
    ensures !Wraps(s, l.pos) && ChunkFrom(s, l.pos).None? ==> Turn(s, l) == Stopped(l.out)
    ensures !Wraps(s, l.pos) && ChunkFrom(s, l.pos).Some? ==> |l.out| < |Turn(s, l).out|
  {
    if Wraps(s, l.pos) {
      WrapTurn(s, l);
      hide SizeAt, Turn, Wraps;
      assert l.out + s[|s|..] == l.out;
    } else {
      TurnsAgreeIff(s, l.pos);
      hide ChunkFrom, Turn64, Wraps;
    }
  }

  /** The first turn and the others. */
  lemma {:induction false} StopsLater(s: string, l: Loop, out: string, n: nat)
    requires l.Running? && Turns(s, l, n) == Stopped(out)
    ensures n > 0 && Turns(s, Turn(s, l), n - 1) == Stopped(out) && |Turn(s, l).out| <= |out|
  {
    hide Turn;
    assert Turns(s, l, 0) == l;
    TurnsFirst(s, l, n - 1);
    OutGrows(s, Turn(s, l), 0, n - 1);
    assert Turns(s, Turn(s, l), 0) == Turn(s, l);
  }

  /** If the loop ends with what it has put out, its positions land. */
  lemma {:induction false} LandsIfStops(s: string, l: Loop, n: nat)
    requires |s| < MAX_BODY && l.Running? && Turns(s, l, n) == Stopped(l.out)
    ensures Lands(s, l.pos, n)
    decreases n
  {
    hide Turn, Turns, Wraps, Hop, WrapsEmpty, ChunkFrom;
    if l.pos < |s| {
      StopsLater(s, l, l.out, n);
      LaterTurn(s, l);
      if WrapsEmpty(s, l.pos) {
        LandsIfStops(s, Turn(s, l), n - 1);
      }
    }
  }

  lemma {:induction false} StopsIfLands(s: string, l: Loop, hops: nat)
    requires |s| < MAX_BODY && l.Running? && Lands(s, l.pos, hops)
    ensures Turns(s, l, hops + 1) == Stopped(l.out)
    decreases hops
  {
    hide Turn, Turns, Wraps, Hop, WrapsEmpty, ChunkFrom;
    TurnsFirst(s, l, hops);
    if l.pos >= |s| || !WrapsEmpty(s, l.pos) {
      StopsNow(s, l);
      StaysStopped(s, Turn(s, l), hops);
    } else {
      LaterTurn(s, l);
      StopsIfLands(s, Turn(s, l), hops - 1);
    }
  }

  lemma StopsNow(s: string, l: Loop)
    requires |s| < MAX_BODY && l.Running?
    requires l.pos >= |s| || (!Wraps(s, l.pos) && ChunkFrom(s, l.pos).None?)
    ensures Turn(s, l) == Stopped(l.out)
  {
    if l.pos < |s| {
      LaterTurn(s, l);
    }
  }

  lemma {:induction false} StaysStopped(s: string, l: Loop, n: nat)
    requires l.Stopped?
    ensures Turns(s, l, n) == l
  {
    OutGrows(s, l, 0, n);
  }

  /** Some number of turns ends the loop with `out`. */
  ghost predicate EndsWith(s: string, l: Loop, out: string) {
    exists n: nat :: Turns(s, l, n) == Stopped(out)
  }

  lemma {:induction false} EndsWithNext(s: string, l: Loop, out: string)
    requires l.Running?
    ensures EndsWith(s, l, out) <==> EndsWith(s, Turn(s, l), out)
  {
    hide Turn;
    if n: nat :| Turns(s, l, n) == Stopped(out) {
      StopsLater(s, l, out, n);
    }
    if n: nat :| Turns(s, Turn(s, l), n) == Stopped(out) {
      TurnsFirst(s, l, n);
    }
  }

  /** The number of turns that suffice when the loop ends right. */
  function Enough(s: string, l: Loop): nat {
    Left(s, l) + |s| + 1
  }

  lemma {:induction false} WrapEndsRightIff(s: string, l: Loop)
    requires |s| < MAX_BODY && AtWrap(s, l)
    ensures EndsWith(s, l, Promised(s, l)) <==> EndsRight(s, l.pos)
    ensures EndsRight(s, l.pos) ==> Turns(s, l, |s| + 1) == Stopped(Promised(s, l))
  {
    NothingAtWrap(s, l);
    LaterTurn(s, l);
    hide Turn, Turns, Wraps, WrapsEmpty, Lands, Promised;
    if EndsRight(s, l.pos) {
      StopsIfLands(s, l, |s|);
    }
    if n: nat :| Turns(s, l, n) == Stopped(l.out) {
      StopsLater(s, l, l.out, n);
      LandsIfStops(s, l, n);
      LandsSoon(s, l.pos, n);
    }
  }

  lemma {:induction false} EndsRightIff(s: string, l: Loop)
    requires |s| < MAX_BODY && l.Running?
    ensures EndsWith(s, l, Promised(s, l)) <==> EndsRight(s, l.pos)
    ensures EndsRight(s, l.pos) ==> Turns(s, l, Enough(s, l)) == Stopped(Promised(s, l))
    decreases Left(s, l)
  {
    hide Turn, Turns, Promised, AtWrap, Decode, EndsRight, EndsWith;
    if AtWrap(s, l) {
      WrapEndsRightIff(s, l);
      if EndsRight(s, l.pos) {
        OutGrows(s, l, |s| + 1, Enough(s, l));
      }
    } else {
      TurnKeepsPromise(s, l);
      EndsWithNext(s, l, Promised(s, l));
      TurnsFirst(s, l, Enough(s, l) - 1);
      NextEndsRight(s, l);
      var next := Turn(s, l);
      if next.Running? {
        EndsRightIff(s, next);
        if EndsRight(s, next.pos) {
          OutGrows(s, next, Enough(s, next), Enough(s, l) - 1);
        }
      } else {
        StaysStopped(s, next, Enough(s, l) - 1);
        StoppedEndsWith(s, next);
      }
    }
  }

  lemma StoppedEndsWith(s: string, l: Loop)
    requires l.Stopped?
    ensures EndsWith(s, l, l.out) && Promised(s, l) == l.out
  {
    assert Turns(s, l, 0) == l;
  }

  lemma {:induction false} NextEndsRight(s: string, l: Loop)
    requires |s| < MAX_BODY && l.Running? && !AtWrap(s, l)
    ensures Turn(s, l).Running? ==> (EndsRight(s, l.pos) <==> EndsRight(s, Turn(s, l).pos))
    ensures Turn(s, l).Stopped? ==> EndsRight(s, l.pos)
  {
    hide ChunkFrom, Turn64, Wraps;
    if l.pos < |s| {
      TurnsAgreeIff(s, l.pos);
    }
  }

  /**
   * For every body: the loop ends with the decoding exactly if the body says so, and then within two turns for every
   * character of it, and two.
   */
  lemma {:induction false} LoopDecodesIff(s: string)
    requires |s| < MAX_BODY
    ensures (exists n: nat :: Turns(s, START, n) == Stopped(Decode(s))) <==> EndsRight(s, 0)
    ensures EndsRight(s, 0) ==> Turns(s, START, 2 * |s| + 2) == Stopped(Decode(s))
  {
    WholeFrom(s);
    assert "" + Decode(s) == Decode(s);
    EndsRightIff(s, START);
    hide Turn, Decode, EndsRight;
    if EndsRight(s, 0) {
      OutGrows(s, START, Enough(s, START), 2 * |s| + 2);
    }
  }

  lemma {:induction false} Standstill(s: string, l: Loop, n: nat, m: nat)
    requires n <= m && Turns(s, l, n + 1) == Turns(s, l, n)
    ensures Turns(s, l, m) == Turns(s, l, n)
  {
    hide Turn;
    if n < m {
      Standstill(s, l, n, m - 1);
    }
  }

  /**
   * If nothing follows it, the loop ends with the decoding when it is sent past the end, and never ends when sent back
   * to the line.
   */
  lemma {:induction false} WrapAtEnd(s: string, n: nat, m: nat)
    requires |s| < MAX_BODY && FirstWrap(s, n) && DataStart(s, Turns(s, START, n)) == |s|
    ensures var l, next := Turns(s, START, n), Turns(s, START, n + 1);
      && next.Running? && l.Running?
      && (next.pos >= |s| ==> Turn(s, next) == Stopped(Decode(s)))
      && (next.pos == l.pos && m >= n ==> Turns(s, START, m) == l)
  {
    hide Decode, SizeAt, Turns, Wraps, NoWrapBefore;
    FirstWrapGoesOn(s, n);
    assert Decode(s) + s[|s|..] == Decode(s);
    var l, next := Turns(s, START, n), Turns(s, START, n + 1);
    if next.pos == l.pos && m >= n {
      Standstill(s, START, n, m);
    }
  }

  /**
   * The second size line of this body, -6, is the first that wraps, has nothing after it, and sends the loop back to
   * where it stands: it never ends.
   */
  lemma {:induction false} NegativeSizeStalls(m: nat)
    requires m >= 1
    ensures var s := "1\r\nA\r\n-6\r\n";
      FirstWrap(s, 1) && DataStart(s, Turns(s, START, 1)) == |s| && Turns(s, START, m) == Running(6, "A")
  {
    var s := "1\r\nA\r\n-6\r\n";
    NegativeSizeWraps(s);
    hide FirstWrap, DataStart, SizeAt;
    FirstTurn(s);
    SecondTurn(s);
    assert Turns(s, START, 0) == START;
    hide Turn;
    assert Turns(s, START, 1) == Turn(s, START);
    assert Turns(s, START, 2) == Turn(s, Turns(s, START, 1));
    Standstill(s, START, 1, m);
  }

  lemma {:induction false} NegativeSizeWraps(s: string)
    requires s == "1\r\nA\r\n-6\r\n"
    ensures FirstWrap(s, 1) && DataStart(s, Turns(s, START, 1)) == |s|
  {
    FirstTurn(s);
    PlainLine(s);
    NegativeLine(s);
    hide SizeAt, Turn;
    assert Turns(s, START, 0) == START && Turns(s, START, 1) == Turn(s, START);
    assert !AtWrap(s, START) && AtWrap(s, Running(6, "A"));
  }

  lemma FirstTurn(s: string)
    requires s == "1\r\nA\r\n-6\r\n"
    ensures Turn(s, START) == Running(6, "A")
  {
    PlainLine(s);
    hide SizeAt;
    assert s[3..4] == "A" && "" + "A" == "A";
  }

  lemma SecondTurn(s: string)
    requires s == "1\r\nA\r\n-6\r\n"
    ensures Turn(s, Running(6, "A")) == Running(6, "A")
  {
    NegativeLine(s);
    hide SizeAt;
    assert s[10..10] == "" && "A" + "" == "A";
  }

  lemma PlainLine(s: string)
    requires s == "1\r\nA\r\n-6\r\n"
    ensures SizeAt(s, 0) == Some((3, 1))
  {
    FindCrlfIs(s, 0, 1);
    var line := s[0..1];
    assert line == "1" && line[0..] == line;
    DigitRunIs(line, 1, 16);
    assert Value(line[..1], 16) == 1 by {
      assert line[..1][..0] == "" && line[..1] == "1";
    }
  }

  lemma NegativeLine(s: string)
    requires s == "1\r\nA\r\n-6\r\n"
    ensures SizeAt(s, 6) == Some((10, ULONG - 6))
  {
    FindCrlfIs(s, 6, 8);
    var line := s[6..8];
    assert line == "-6";
    assert line[0..] == line && line[1..] == "6";
    DigitRunIs("6", 1, 16);
    assert Value("6"[..1], 16) == 6 by {
      assert "6"[..0] == "" && "6"[..1] == "6";
    }
  }

  /**
   * A first size line of -1 wraps but moves the position on: the loop ends with data where there was nothing to decode.
   */
  lemma {:induction false} NegativeSizeMisdecodes()
    ensures var s := "-1\r\nX";
      FirstWrap(s, 0) && DataStart(s, START) < |s| && Decode(s) == "" && Turns(s, START, 2) == Stopped("X")
  {
    var s := "-1\r\nX";
    MinusOneTurns(s);
    hide SizeAt, Turn, AtWrap, Decode, DataStart;
    assert Turns(s, START, 0) == START;
    assert Turns(s, START, 1) == Turn(s, Turns(s, START, 0));
    assert Turns(s, START, 2) == Turn(s, Turns(s, START, 1));
    FirstWrapGoesOn(s, 0);
  }

  lemma {:induction false} MinusOneTurns(s: string)
    requires s == "-1\r\nX"
    ensures AtWrap(s, START) && DataStart(s, START) == 4
    ensures Turn(s, START) == Running(5, "X") && Turn(s, Running(5, "X")) == Stopped("X")
  {
    MinusOneLine(s);
    hide SizeAt;
    assert s[4..5] == "X" && "" + "X" == "X";
  }

  lemma MinusOneLine(s: string)
    requires s == "-1\r\nX"
    ensures SizeAt(s, 0) == Some((4, ULONG - 1))
  {
    FindCrlfIs(s, 0, 2);
    var line := s[0..2];
    assert line == "-1";
    assert line[0..] == line && line[1..] == "1";
    DigitRunIs("1", 1, 16);
    assert Value("1"[..1], 16) == 1 by {
      assert "1"[..0] == "" && "1"[..1] == "1";
    }
  }
}
