/** Searching strings, and reading and printing numerals the way strtol, stoi and to_string do. */
module Text {

  datatype Option<+T> = None | Some(value: T)

  /** The first position of `c` at or after `from`; |s| when there is none. */
  function IndexOf(s: string, c: char, from: nat): (i: nat)
    requires from <= |s|
    ensures from <= i <= |s|
    ensures forall j :: from <= j < i ==> s[j] != c
    ensures i < |s| ==> s[i] == c
    decreases |s| - from
  {
    if from == |s| || s[from] == c then from else IndexOf(s, c, from + 1)
  }

  /** The last position of `c`; -1 when there is none. */
  function LastIndexOf(s: string, c: char): (i: int)
    ensures -1 <= i < |s|
    ensures i >= 0 ==> s[i] == c
    ensures forall j :: i < j < |s| ==> s[j] != c
  {
    if s == "" then -1
    else if s[|s| - 1] == c then |s| - 1
    else LastIndexOf(s[..|s| - 1], c)
  }

  lemma {:induction false} IndexOfIs(s: string, c: char, i: nat)
    requires i < |s| && s[i] == c && forall j :: 0 <= j < i ==> s[j] != c
    ensures IndexOf(s, c, 0) == i
  {}

  lemma {:induction false} LastIndexOfIs(s: string, c: char, i: nat)
    requires i < |s| && s[i] == c && forall j :: i < j < |s| ==> s[j] != c
    ensures LastIndexOf(s, c) == i
  {}

  /** The value of a digit in bases up to sixteen; -1 for any other character. */
  function DigitValue(c: char): int {
    if '0' <= c <= '9' then c as int - '0' as int
    else if 'a' <= c <= 'f' then c as int - 'a' as int + 10
    else if 'A' <= c <= 'F' then c as int - 'A' as int + 10
    else -1
  }

  predicate IsDigit(c: char, base: nat) {
    0 <= DigitValue(c) < base
  }

  predicate AllDigits(s: string, base: nat) {
    forall i :: 0 <= i < |s| ==> IsDigit(s[i], base)
  }

  function DigitChar(d: nat): char
    requires d < 16
  {
    "0123456789abcdef"[d]
  }

  lemma DigitCharValue(d: nat)
    requires d < 16
    ensures DigitValue(DigitChar(d)) == d
  {}

  /** The number a string of digits denotes. */
  function Value(s: string, base: nat): nat
    requires AllDigits(s, base)
  {
    if s == "" then 0 else Value(s[..|s| - 1], base) * base + DigitValue(s[|s| - 1])
  }

  /** The shortest numeral for n. */
  function Numeral(n: nat, base: nat): string
    requires base == 10 || base == 16
    decreases n
  {
    if n < base then [DigitChar(n)]
    else
      SmallerQuotient(n, base);
      Numeral(n / base, base) + [DigitChar(n % base)]
  }

  lemma SmallerQuotient(n: nat, base: nat)
    requires (base == 10 || base == 16) && base <= n
    ensures n / base < n
  {
    if base == 10 {
      assert n / 10 < n;
    } else {
      assert n / 16 < n;
    }
  }

  lemma QuotientAndRemainder(n: nat, base: nat)
    requires base == 10 || base == 16
    ensures (n / base) * base + n % base == n
  {
    if base == 10 {
      assert (n / 10) * 10 + n % 10 == n;
    } else {
      assert (n / 16) * 16 + n % 16 == n;
    }
  }

  lemma {:induction false} ValueSnoc(s: string, c: char, base: nat)
    requires AllDigits(s, base) && IsDigit(c, base)
    ensures AllDigits(s + [c], base)
    ensures Value(s + [c], base) == Value(s, base) * base + DigitValue(c)
  {
    assert (s + [c])[..|s|] == s;
  }

  lemma {:induction false} NumeralValue(n: nat, base: nat)
    requires base == 10 || base == 16
    ensures AllDigits(Numeral(n, base), base) && Numeral(n, base) != ""
    ensures Value(Numeral(n, base), base) == n
    decreases n
  {
    if n < base {
      DigitCharValue(n);
      ValueSnoc("", DigitChar(n), base);
      assert Numeral(n, base) == "" + [DigitChar(n)];
    } else {
      SmallerQuotient(n, base);
      NumeralValue(n / base, base);
      DigitCharValue(n % base);
      ValueSnoc(Numeral(n / base, base), DigitChar(n % base), base);
      QuotientAndRemainder(n, base);
    }
  }

  function Decimal(n: nat): string {
    Numeral(n, 10)
  }

  predicate IsSpace(c: char) {
    c == ' ' || '\t' <= c <= '\r'
  }

  /** How many characters at the start of s satisfy isspace. */
  function SpaceRun(s: string): (n: nat)
    ensures n <= |s|
  {
    if s != "" && IsSpace(s[0]) then 1 + SpaceRun(s[1..]) else 0
  }

  /** How many characters at the start of s are digits of the base. */
  function DigitRun(s: string, base: nat): (n: nat)
    ensures n <= |s| && AllDigits(s[..n], base)
    ensures n < |s| ==> !IsDigit(s[n], base)
  {
    if s != "" && IsDigit(s[0], base) then
      var rest := DigitRun(s[1..], base);
      assert forall i :: 0 < i < rest + 1 ==> s[i] == s[1..][..rest][i - 1];
      1 + rest
    else 0
  }

  lemma {:induction false} DigitRunIs(s: string, n: nat, base: nat)
    requires n <= |s| && AllDigits(s[..n], base) && (n < |s| ==> !IsDigit(s[n], base))
    ensures DigitRun(s, base) == n
  {
    var r := DigitRun(s, base);
    assert forall i :: 0 <= i < n ==> s[i] == s[..n][i];
    assert forall i :: 0 <= i < r ==> s[i] == s[..r][i];
  }

  /** A number as strtol reads it: a sign and a magnitude. */
  datatype Signed = Signed(negative: bool, magnitude: nat)

  /** strtol: blanks, a sign, a 0x prefix in base sixteen, then a non-empty run of digits; the rest is ignored. */
  function ParseSigned(s: string, base: nat): Option<Signed>
  {
    var body := s[SpaceRun(s)..];
    var signed := body != "" && (body[0] == '-' || body[0] == '+');
    var unsigned := if signed then body[1..] else body;
    var digits :=
      if base == 16 && |unsigned| > 2 && unsigned[0] == '0' && (unsigned[1] == 'x' || unsigned[1] == 'X')
        && IsDigit(unsigned[2], 16)
      then unsigned[2..] else unsigned;
    var n := DigitRun(digits, base);
    if n == 0 then None else Some(Signed(signed && body[0] == '-', Value(digits[..n], base)))
  }

  /** A run of digits ended by a character that is no digit (nor an x, in base sixteen) reads as its own value. */
  lemma {:induction false} ParseDigits(s: string, n: nat, base: nat)
    requires 2 <= base <= 16 && 0 < n <= |s| && AllDigits(s[..n], base)
    requires n < |s| ==> !IsDigit(s[n], base) && s[n] != 'x' && s[n] != 'X'
    ensures ParseSigned(s, base) == Some(Signed(false, Value(s[..n], base)))
  {
    assert IsDigit(s[..n][0], base);
    assert s[0..] == s;
    DigitRunIs(s, n, base);
    if |s| > 2 && n >= 2 {
      assert IsDigit(s[..n][1], base);
    }
  }
}
