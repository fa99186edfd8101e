/** The per-chunk GCM nonce: the base nonce with its last eight bytes XORed with the big-endian sequence number. */
module Nonce {
  import opened Bytes
  import opened Int64

  /** Octet `i` of a sequence number, least significant first: an arithmetic shift right by 8*i, masked. */
  function Octet(s: int, i: nat): (o: int)
    ensures 0 <= o < 256
    decreases i
  {
    if i == 0 then s % 256 else Octet(s / 256, i - 1)
  }

  /** Exclusive or of a nonce byte with one octet. */
  function Mix(b: Byte, octet: int): Byte
    requires 0 <= octet < 256
  {
    b ^ ByteOf(octet)
  }

  lemma MixInjective(b: Byte, x: int, y: int)
    requires 0 <= x < 256 && 0 <= y < 256 && Mix(b, x) == Mix(b, y)
    ensures x == y
  {
    XorCancel(b, ByteOf(x));
    XorCancel(b, ByteOf(y));
  }

  /** The nonce under which chunk `s` is sealed. */
  function NonceFor(base: seq<Byte>, s: int): (n: seq<Byte>)
    ensures |n| == |base|
  {
    seq(|base|, j requires 0 <= j < |base| =>
      if |base| - 1 - j < 8 then Mix(base[j], Octet(s, |base| - 1 - j)) else base[j])
  }

  /** The in-place derivation shared by sealing and opening a chunk. */
  method DeriveNonce(base: seq<Byte>, s: int) returns (nonce: array<Byte>)
    ensures fresh(nonce)
    ensures nonce[..] == NonceFor(base, s)
  {
    var size := |base|;
    nonce := new Byte[size](j requires 0 <= j < size => base[j]);
    var i := 0;
    while i < 8 && i < size
      invariant 0 <= i <= 8 && i <= size && nonce.Length == size
      invariant forall j :: 0 <= j < size ==>
        nonce[j] == if size - 1 - j < i then Mix(base[j], Octet(s, size - 1 - j)) else base[j]
    {
      nonce[size - 1 - i] := Mix(nonce[size - 1 - i], Octet(s, i));
      i := i + 1;
    }
    assert forall j :: 0 <= j < size ==> nonce[..][j] == NonceFor(base, s)[j];
  }

  /** Half of 256 to the power k: the magnitude range of a k-octet two's complement number. */
  function Half(k: nat): int
    requires k > 0
  {
    if k == 1 then 128 else 256 * Half(k - 1)
  }

  lemma {:induction false} OctetsDetermine(s: int, t: int, k: nat)
    requires k > 0 && -Half(k) <= s < Half(k) && -Half(k) <= t < Half(k)
    requires forall i :: 0 <= i < k ==> Octet(s, i) == Octet(t, i)
    ensures s == t
    decreases k
  {
    assert Octet(s, 0) == Octet(t, 0);
    if k > 1 {
      forall i | 0 <= i < k - 1
        ensures Octet(s / 256, i) == Octet(t / 256, i)
      {
        assert Octet(s, i + 1) == Octet(t, i + 1);
      }
      OctetsDetermine(s / 256, t / 256, k - 1);
    }
  }

  lemma {:induction false} NonceGivesOctets(base: seq<Byte>, s: int, t: int, i: nat)
    requires NonceFor(base, s) == NonceFor(base, t)
    requires i < 8 && i < |base|
    ensures Octet(s, i) == Octet(t, i)
  {
    var j := |base| - 1 - i;
    assert NonceFor(base, s)[j] == NonceFor(base, t)[j];
    MixInjective(base[j], Octet(s, i), Octet(t, i));
  }

  /** With at least eight nonce bytes, two different 64-bit sequence numbers never share a nonce. */
  lemma NonceInjective(base: seq<Byte>, s: int, t: int)
    requires |base| >= 8 && IsInt64(s) && IsInt64(t)
    ensures NonceFor(base, s) == NonceFor(base, t) <==> s == t
  {
    if NonceFor(base, s) == NonceFor(base, t) {
      forall i | 0 <= i < 8
        ensures Octet(s, i) == Octet(t, i)
      {
        NonceGivesOctets(base, s, t, i);
      }
      assert Half(8) == MAX_INT64 + 1 by {
        assert Half(4) == 128 * 256 * 256 * 256;
        assert Half(6) == Half(4) * 256 * 256;
      }
      OctetsDetermine(s, t, 8);
    }
  }

  // The number in the nonce

  /** The number that bytes spell, most significant byte first. */
  function BigEndian(bs: seq<Byte>): nat {
    if bs == [] then 0 else 256 * BigEndian(bs[..|bs| - 1]) + bs[|bs| - 1] as int
  }

  /** Two strings of bytes, mixed byte by byte. */
  function Xor(a: seq<Byte>, b: seq<Byte>): seq<Byte>
    requires |a| == |b|
  {
    seq(|a|, j requires 0 <= j < |a| => a[j] ^ b[j])
  }

  /** The k low octets of a number, most significant first. */
  function LowBytes(s: int, k: nat): seq<Byte> {
    seq(k, j requires 0 <= j < k => ByteOf(Octet(s, k - 1 - j)))
  }

  function Pow256(n: nat): (p: nat)
    ensures p > 0
  {
    if n == 0 then 1 else 256 * Pow256(n - 1)
  }

  lemma {:induction false} LowBytesSpell(s: int, k: nat)
    ensures BigEndian(LowBytes(s, k)) == s % Pow256(k)
    decreases k
  {
    if k > 0 {
      hide ByteOf, Octet;
      var bs := LowBytes(s, k);
      LowBytesMore(s, k - 1);
      LowBytesSpell(s / 256, k - 1);
      DigitsOf(s, Pow256(k - 1));
    }
  }

  lemma {:induction false} LowBytesMore(s: int, k: nat)
    ensures LowBytes(s, k + 1)[..k] == LowBytes(s / 256, k) && LowBytes(s, k + 1)[k] as int == s % 256
  {
    forall j | 0 <= j < k
      ensures LowBytes(s, k + 1)[j] == LowBytes(s / 256, k)[j]
    {
      assert Octet(s, k - j) == Octet(s / 256, k - 1 - j);
    }
    assert LowBytes(s, k + 1)[..k] == LowBytes(s / 256, k);
    assert LowBytes(s, k + 1)[k] == ByteOf(Octet(s, 0));
  }

  lemma DigitsOf(s: int, p: nat)
    requires p > 0
    ensures s % (256 * p) == 256 * ((s / 256) % p) + s % 256
  {
    var t := s / 256;
    var low := 256 * (t % p) + s % 256;
    assert t % p <= p - 1;
    calc {
      s;
      256 * t + s % 256;
      256 * (p * (t / p) + t % p) + s % 256;
      (256 * p) * (t / p) + low;
    }
    Remainder(s, 256 * p, t / p, low);
  }

  lemma Remainder(s: int, d: nat, q: int, low: nat)
    requires d > 0 && s == d * q + low && low < d
    ensures s % d == low
  {
    var k := s / d - q;
    assert d * k == d * (s / d) - d * q == low - s % d;
    Multiple(d, k);
  }

  lemma Multiple(d: int, k: int)
    requires d > 0
    ensures (k >= 1 ==> d * k >= d) && (k <= -1 ==> d * k <= -d)
  {}

  /**
   * The nonce carries the sequence number: its last eight bytes, mixed with those of the base nonce, spell it with the
   * most significant byte first, modulo 2^64; the bytes before them are those of the base nonce.
   */
  lemma NonceSpellsNumber(base: seq<Byte>, s: int)
    requires |base| >= 8
    ensures var n, head := NonceFor(base, s), |base| - 8;
      n[..head] == base[..head] && BigEndian(Xor(n[head..], base[head..])) == s % TWO_TO_64
  {
    hide BigEndian, Mix, Octet, ByteOf;
    MixedBytes(base, s);
    LowBytesSpell(s, 8);
    EightBytes();
    var n, head := NonceFor(base, s), |base| - 8;
    forall j | 0 <= j < head
      ensures n[j] == base[j]
    {}
    assert n[..head] == base[..head];
  }

  lemma MixedBytes(base: seq<Byte>, s: int)
    requires |base| >= 8
    ensures var n, head := NonceFor(base, s), |base| - 8;
      Xor(n[head..], base[head..]) == LowBytes(s, 8)
  {
    hide Octet, ByteOf;
    var n, head := NonceFor(base, s), |base| - 8;
    forall j | 0 <= j < 8
      ensures Xor(n[head..], base[head..])[j] == LowBytes(s, 8)[j]
    {
      XorTwice(base[head + j], ByteOf(Octet(s, 7 - j)));
    }
  }

  lemma EightBytes()
    ensures Pow256(8) == TWO_TO_64
  {
    assert Pow256(4) == 256 * 256 * 256 * 256;
  }

  lemma XorTwice(a: Byte, b: Byte)
    ensures (a ^ b) ^ a == b
  {}

  lemma {:induction false} LowOctetsOfPower(n: nat, i: nat)
    requires i < n
    ensures Octet(Pow256(n), i) == 0 && Octet(0, i) == 0
  {
    if i > 0 {
      LowOctetsOfPower(n - 1, i - 1);
    }
  }

  lemma {:induction false} Pow256Bound(n: nat)
    requires n <= 7
    ensures 1 <= Pow256(n) <= Pow256(7) < MAX_INT64
    decreases 7 - n
  {
    if n < 7 {
      Pow256Bound(n + 1);
    } else {
      assert Pow256(4) == 256 * 256 * 256 * 256;
    }
  }

  ghost predicate DistinctNonces(base: seq<Byte>) {
    forall s, t | IsInt64(s) && IsInt64(t) && NonceFor(base, s) == NonceFor(base, t) :: s == t
  }

  /**
   * Exactly the base nonces of eight bytes or more keep all sequence numbers apart; a shorter one,
   * which an offer carrying a plain key can hold, makes numbers 0 and 256^length collide.
   */
  lemma DistinctNoncesIff(base: seq<Byte>)
    ensures DistinctNonces(base) <==> |base| >= 8
  {
    if |base| >= 8 {
      forall s, t | IsInt64(s) && IsInt64(t) && NonceFor(base, s) == NonceFor(base, t)
        ensures s == t
      {
        NonceInjective(base, s, t);
      }
    } else {
      var n := |base|;
      Pow256Bound(n);
      forall j | 0 <= j < n
        ensures NonceFor(base, 0)[j] == NonceFor(base, Pow256(n))[j]
      {
        LowOctetsOfPower(n, n - 1 - j);
      }
      assert NonceFor(base, 0) == NonceFor(base, Pow256(n));
      assert IsInt64(0) && IsInt64(Pow256(n));
    }
  }
}
