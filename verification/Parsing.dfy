/**
 * What the number parsers accept (stoi in src/identity/identity.cpp, stoul in src/net/upnp.cpp), and with it the
 * address strings.
 */
module Parsing {
  import opened Text
  import D = Dechunk
  import opened Identity

  function SignLength(s: string): (n: nat)
    ensures n <= |s|
  {
    if s != "" && (s[0] == '-' || s[0] == '+') then 1 else 0
  }

  /** The length of a 0x prefix, which counts only when a digit follows. */
  function PrefixLength(s: string, base: nat): (n: nat)
    ensures n <= |s|
  {
    if base == 16 && |s| > 2 && s[0] == '0' && (s[1] == 'x' || s[1] == 'X') && IsDigit(s[2], 16) then 2 else 0
  }

  lemma {:induction false} ReadInParts(s: string, base: nat)
    ensures ParseSigned(s, base) ==
      var body := s[SpaceRun(s)..];
      var unsigned := body[SignLength(body)..];
      var number := unsigned[PrefixLength(unsigned, base)..];
      var n := DigitRun(number, base);
      if n == 0 then None else Some(Signed(body[0] == '-', Value(number[..n], base)))
  {
    hide SpaceRun, DigitRun, Value, IsDigit, AllDigits;
    var body := s[SpaceRun(s)..];
    var unsigned := body[SignLength(body)..];
    assert body[0..] == body && unsigned[0..] == unsigned;
  }

  /** s is digits as far as they go, and a rest. */
  ghost predicate Number(s: string, base: nat, digits: string, rest: string) {
    && s == digits + rest && digits != "" && AllDigits(digits, base)
    && (rest != "" ==> !IsDigit(rest[0], base))
  }

  /** s is a prefix of its base, or none where none could be read, and a number. */
  ghost predicate Unsigned(s: string, base: nat, prefix: string, digits: string, rest: string) {
    exists number ::
      && Number(number, base, digits, rest) && s == prefix + number
      && (if prefix == "" then !(base == 16 && digits == "0" && |rest| > 1 && rest[0] in "xX" && IsDigit(rest[1], 16))
          else base == 16 && (prefix == "0x" || prefix == "0X"))
  }

  /** s is blanks, a sign or none, and an unsigned number. */
  ghost predicate Spells(s: string, base: nat, blanks: string, sign: string, prefix: string, digits: string,
                         rest: string)
  {
    exists unsigned ::
      && Unsigned(unsigned, base, prefix, digits, rest) && s == blanks + (sign + unsigned)
      && Blank(blanks) && Sign(sign)
  }

  /** The number is spelled by s. */
  ghost predicate SpellsAs(s: string, base: nat, v: Signed, blanks: string, sign: string, prefix: string,
                           digits: string, rest: string)
  {
    && Spells(s, base, blanks, sign, prefix, digits, rest) && AllDigits(digits, base)
    && v == Signed(sign == "-", Value(digits, base))
  }

  ghost predicate Spelled(s: string, base: nat, negative: bool, magnitude: nat) {
    exists blanks, sign, prefix, digits, rest ::
      SpellsAs(s, base, Signed(negative, magnitude), blanks, sign, prefix, digits, rest)
  }

  lemma {:induction false} SpaceRunIs(s: string, n: nat)
    requires n <= |s| && (forall i :: 0 <= i < n ==> IsSpace(s[i])) && (n < |s| ==> !IsSpace(s[n]))
    ensures SpaceRun(s) == n
  {
    if n > 0 {
      SpaceRunIs(s[1..], n - 1);
    }
  }

  lemma {:induction false} SpacesRead(s: string)
    ensures forall i :: 0 <= i < SpaceRun(s) ==> IsSpace(s[i])
    ensures SpaceRun(s) < |s| ==> !IsSpace(s[SpaceRun(s)])
  {
    if s != "" && IsSpace(s[0]) {
      SpacesRead(s[1..]);
    }
  }

  /** What ParseSigned reads once blanks, sign and prefix are skipped. */
  lemma {:induction false} NumberRead(s: string, base: nat, digits: string, rest: string)
    ensures Number(s, base, digits, rest)
       <==> DigitRun(s, base) > 0 && digits == s[..DigitRun(s, base)] && rest == s[DigitRun(s, base)..]
  {
    var n := DigitRun(s, base);
    assert s == s[..n] + s[n..];
    if Number(s, base, digits, rest) {
      assert s[..|digits|] == digits && s[|digits|..] == rest;
      DigitRunIs(s, |digits|, base);
    }
  }

  lemma UnsignedRead(s: string, base: nat, prefix: string, digits: string, rest: string)
    requires base == 10 || base == 16
    ensures Unsigned(s, base, prefix, digits, rest)
       <==> prefix == s[..PrefixLength(s, base)] && Number(s[PrefixLength(s, base)..], base, digits, rest)
  {}

  /** An unsigned number starts with a digit. */
  lemma UnsignedStarts(s: string, base: nat, prefix: string, digits: string, rest: string)
    requires (base == 10 || base == 16) && Unsigned(s, base, prefix, digits, rest)
    ensures s != "" && IsDigit(s[0], base)
  {
    var number :| Number(number, base, digits, rest) && s == prefix + number;
    assert number[0] == digits[0];
  }

  predicate Blank(s: string) {
    forall i :: 0 <= i < |s| ==> s[i] == ' ' || 9 <= s[i] as int <= 13
  }

  predicate Sign(s: string) {
    s == "" || s == "+" || s == "-"
  }

  /** Where blanks and sign end is fixed by what follows them. */
  lemma {:induction false} PartsFound(s: string, blanks: string, sign: string, unsigned: string)
    requires s == blanks + (sign + unsigned) && Blank(blanks) && Sign(sign)
    requires unsigned != "" && IsDigit(unsigned[0], 16)
    ensures blanks == s[..SpaceRun(s)]
    ensures var body := s[SpaceRun(s)..]; sign == body[..SignLength(body)] && unsigned == body[SignLength(body)..]
  {
    var body := sign + unsigned;
    Halves(blanks, body);
    Halves(sign, unsigned);
    assert !IsSpace(body[0]) && SignLength(body) == |sign|;
    SpaceRunIs(s, |blanks|);
  }

  lemma Halves(a: string, b: string)
    ensures (a + b)[..|a|] == a && (a + b)[|a|..] == b
  {}

  lemma {:induction false} PartsJoin(s: string)
    ensures var body := s[SpaceRun(s)..]; var k := SignLength(body);
      s == s[..SpaceRun(s)] + (body[..k] + body[k..]) && Blank(s[..SpaceRun(s)]) && Sign(body[..k])
  {
    SpacesRead(s);
    var body := s[SpaceRun(s)..];
    assert body == body[..SignLength(body)] + body[SignLength(body)..];
  }

  /** What is skipped and read, part by part. */
  predicate Reads(s: string, base: nat, blanks: string, sign: string, prefix: string, digits: string, rest: string) {
    var body := s[SpaceRun(s)..];
    var unsigned := body[SignLength(body)..];
    var k := PrefixLength(unsigned, base);
    var n := DigitRun(unsigned[k..], base);
    && n > 0 && blanks == s[..SpaceRun(s)] && sign == body[..SignLength(body)] && prefix == unsigned[..k]
    && digits == unsigned[k..][..n] && rest == unsigned[k..][n..]
  }

  lemma {:induction false} SpellsReads(s: string, base: nat, blanks: string, sign: string, prefix: string,
                                       digits: string, rest: string)
    requires base == 10 || base == 16
    ensures Spells(s, base, blanks, sign, prefix, digits, rest)
        <==> Reads(s, base, blanks, sign, prefix, digits, rest)
  {
    hide Unsigned, Number, Blank, Sign, SpaceRun, DigitRun, IsDigit;
    PartsJoin(s);
    var body := s[SpaceRun(s)..];
    var unsigned := body[SignLength(body)..];
    var k := PrefixLength(unsigned, base);
    UnsignedRead(unsigned, base, prefix, digits, rest);
    NumberRead(unsigned[k..], base, digits, rest);
    if Spells(s, base, blanks, sign, prefix, digits, rest) {
      var u :| Unsigned(u, base, prefix, digits, rest) && s == blanks + (sign + u) && Blank(blanks) && Sign(sign);
      UnsignedStarts(u, base, prefix, digits, rest);
      PartsFound(s, blanks, sign, u);
    }
  }

  lemma {:induction false} ReadsParses(s: string, base: nat, blanks: string, sign: string, prefix: string,
                                       digits: string, rest: string)
    requires (base == 10 || base == 16) && Reads(s, base, blanks, sign, prefix, digits, rest)
    ensures AllDigits(digits, base) && ParseSigned(s, base) == Some(Signed(sign == "-", Value(digits, base)))
  {
    hide SpaceRun, DigitRun, Value, IsDigit, ParseSigned, PrefixLength;
    ReadInParts(s, base);
  }

  /** Exactly the strings of that form are read, each as the number its sign and digits stand for. */
  lemma ParsesIff(s: string, base: nat, v: Signed)
    requires base == 10 || base == 16
    ensures ParseSigned(s, base) == Some(v) <==> Spelled(s, base, v.negative, v.magnitude)
  {
    hide Spells, Value, Reads, ParseSigned, AllDigits;
    if ParseSigned(s, base).Some? {
      var blanks, sign, prefix, digits, rest := Parts(s, base);
      SpellsReads(s, base, blanks, sign, prefix, digits, rest);
      ReadsParses(s, base, blanks, sign, prefix, digits, rest);
      assert ParseSigned(s, base) == Some(v) ==> SpellsAs(s, base, v, blanks, sign, prefix, digits, rest);
    }
    forall blanks, sign, prefix, digits, rest | SpellsAs(s, base, v, blanks, sign, prefix, digits, rest)
      ensures ParseSigned(s, base) == Some(v)
    {
      SpellsReads(s, base, blanks, sign, prefix, digits, rest);
      ReadsParses(s, base, blanks, sign, prefix, digits, rest);
    }
  }

  lemma Parts(s: string, base: nat)
      returns (blanks: string, sign: string, prefix: string, digits: string, rest: string)
    requires ParseSigned(s, base).Some?
    ensures Reads(s, base, blanks, sign, prefix, digits, rest)
  {
    hide SpaceRun, DigitRun, Value, IsDigit, ParseSigned;
    ReadInParts(s, base);
    var body := s[SpaceRun(s)..];
    var unsigned := body[SignLength(body)..];
    var k := PrefixLength(unsigned, base);
    var n := DigitRun(unsigned[k..], base);
    blanks, sign, prefix := s[..SpaceRun(s)], body[..SignLength(body)], unsigned[..k];
    digits, rest := unsigned[k..][..n], unsigned[k..][n..];
  }

  // Sizes of chunks, ports and addresses

  /**
   * A size line is read exactly when it spells a number below 2 to the 64 in hexadecimal, whatever follows; the size is
   * that number, or, after a minus sign, what is left of it modulo 2 to the 64.
   */
  lemma SizeReadsIff(line: string, size: nat)
    ensures D.ParseSize(line) == Some(size)
       <==> exists negative, magnitude: nat ::
              && Spelled(line, 16, negative, magnitude) && magnitude < 0x1_0000_0000_0000_0000
              && size == if negative && magnitude > 0 then 0x1_0000_0000_0000_0000 - magnitude else magnitude
  {
    hide Spelled, ParseSigned;
    forall negative, magnitude: nat
      ensures Spelled(line, 16, negative, magnitude) <==> ParseSigned(line, 16) == Some(Signed(negative, magnitude))
    {
      ParsesIff(line, 16, Signed(negative, magnitude));
    }
    var parsed := ParseSigned(line, 16);
    assert parsed.Some? ==> Spelled(line, 16, parsed.value.negative, parsed.value.magnitude);
  }

  /** A port is read exactly from a text that spells a number from 1 to 65535 without a minus sign. */
  lemma PortReadsIff(s: string, port: nat)
    ensures ParsePort(s) == Some(port) <==> Spelled(s, 10, false, port) && 1 <= port <= 65535
  {
    ParsesIff(s, 10, Signed(false, port));
    hide ParseSigned;
  }

  /** The host alone, or the host, a colon and a port. */
  ghost predicate NamesHost(s: string, host: string, port: nat) {
    || (s == host != "" && ':' !in host && port == 47822)
    || exists portText :: Splits(s, host, portText) && Spelled(portText, 10, false, port) && 1 <= port <= 65535
  }

  lemma {:induction false} HostRead(s: string, host: string, port: nat)
    ensures NamesHost(s, host, port)
       <==> if s == "" then false
            else if LastIndexOf(s, ':') < 0 then host == s && port == DEFAULT_DISCOVERY_PORT
            else ParseHostPort(s) == Some((host, port))
  {
    hide ParsePort, ParseHostPort, Spelled;
    HostPortParsesIff(s, host, port);
    forall portText
      ensures ParsePort(portText) == Some(port) <==> Spelled(portText, 10, false, port) && 1 <= port <= 65535
    {
      PortReadsIff(portText, port);
    }
    assert LastIndexOf(s, ':') < 0 <==> ':' !in s;
    assert forall portText :: Splits(s, host, portText) ==> s[|host|] == ':';
  }

  /** Exactly the addresses user@host and user@host:port whose user is no uuid are accepted. */
  lemma DiscoveryParsesIff(s: string, a: DiscoveryAddress)
    ensures ParseDiscoveryAddress(s) == Some(a)
       <==> && ValidUsername(a.username) && !IsValidUuid(a.username)
            && exists rest :: s == a.username + "@" + rest && NamesHost(rest, a.host, a.port)
  {
    hide IsValidUuid, UsernameChar, NamesHost, ParseHostPort, LastIndexOf;
    var at := IndexOf(s, '@', 0);
    if at < |s| {
      assert s == s[..at] + "@" + s[at + 1..];
      HostRead(s[at + 1..], a.host, a.port);
    }
    forall rest | ValidUsername(a.username) && s == a.username + "@" + rest
      ensures at < |s| && s[..at] == a.username && s[at + 1..] == rest
    {
      NoAtIn(a.username);
      AtFound(a.username, rest);
    }
  }
}
