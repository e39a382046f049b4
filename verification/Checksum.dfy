/** The Internet checksum that ip_fast_csum computes (section 1 of RFC 1071), over the
    octets of an IP header taken as big-endian 16-bit words. */
module Checksum {
  import opened Bytes

  const ONES := 0xFFFF

  /** Plain sum of the 16-bit words, before any carry is folded back. */
  function Sum(b: seq<byte>): nat
    requires |b| % 2 == 0
  {
    if b == [] then 0 else 256 * b[0] + b[1] + Sum(b[2..])
  }

  /** End-around carry: add the high part to the low 16 bits until it fits. */
  function Fold(x: nat): (r: nat)
    ensures r <= ONES
    ensures r == 0 <==> x == 0
    ensures r % ONES == x % ONES
  {
    if x < 0x10000 then x else
      assert x == (x / 0x10000) * ONES + (x / 0x10000 + x % 0x10000);
      FoldStep(x);
      Fold(x / 0x10000 + x % 0x10000)
  }

  lemma FoldStep(x: nat)
    ensures x % ONES == (x / 0x10000 + x % 0x10000) % ONES
  {
    var q, y := x / 0x10000, x / 0x10000 + x % 0x10000;
    assert x == q * ONES + y;
    ModShift(y, q);
  }

  lemma ModShift(y: nat, q: nat)
    ensures (q * ONES + y) % ONES == y % ONES
  {
    var k := y / ONES;
    assert q * ONES + y == (q + k) * ONES + y % ONES;
    DivUnique(q * ONES + y, q + k, y % ONES);
  }

  lemma DivUnique(x: nat, k: nat, r: nat)
    requires x == k * ONES + r && r < ONES
    ensures x % ONES == r && x / ONES == k
  {
  }

  /** One's complement of the folded sum: what ip_fast_csum returns. */
  function IpFastCsum(header: seq<byte>): (c: nat)
    requires |header| % 2 == 0
    ensures c <= ONES
  {
    ONES - Fold(Sum(header))
  }

  /** A header verifies when its words, check field included, fold to all ones. */
  predicate Verifies(header: seq<byte>)
    requires |header| % 2 == 0
  {
    Fold(Sum(header)) == ONES
  }

  /** Value of octet i inside its word. */
  function Weight(i: nat): nat {
    if i % 2 == 0 then 256 else 1
  }

  lemma {:induction false} SumUpdate(b: seq<byte>, i: nat, v: byte)
    requires |b| % 2 == 0 && i < |b|
    ensures Sum(b[i := v]) == Sum(b) + Weight(i) * (v - b[i])
  {
    var c := b[i := v];
    if i < 2 {
      assert c[2..] == b[2..];
    } else {
      SumUpdate(b[2..], i - 2, v);
      assert c[2..] == b[2..][i - 2 := v];
    }
  }

  lemma {:induction false} SumConcat(a: seq<byte>, b: seq<byte>)
    requires |a| % 2 == 0 && |b| % 2 == 0
    ensures Sum(a + b) == Sum(a) + Sum(b)
  {
    if a == [] {
      assert a + b == b;
    } else {
      SumConcat(a[2..], b);
      assert (a + b)[2..] == a[2..] + b;
    }
  }

  /** Two sums fold alike exactly when they agree modulo 0xFFFF and on being zero. */
  lemma FoldSame(x: nat, y: nat)
    ensures Fold(x) == Fold(y) <==> (x % ONES == y % ONES && (x == 0 <==> y == 0))
  {
  }

  lemma FoldValue(x: nat)
    ensures Fold(x) == if x == 0 then 0 else if x % ONES == 0 then ONES else x % ONES
  {
    var r := Fold(x);
    if r < ONES {
      DivUnique(r, 0, r);
    }
  }

  /** Storing the checksum in a field that was zero makes the header verify, and the only
      16-bit values that do are the ones congruent to it. */
  lemma CheckMakesValid(zeroed: seq<byte>, i: nat, hi: byte, lo: byte)
    requires |zeroed| % 2 == 0 && i % 2 == 0 && i + 1 < |zeroed|
    requires zeroed[i] == 0 && zeroed[i + 1] == 0
    ensures Verifies(zeroed[i := hi][i + 1 := lo])
       <==> (256 * hi + lo) % ONES == IpFastCsum(zeroed) % ONES && (Sum(zeroed) == 0 ==> 256 * hi + lo != 0)
  {
    hide Sum, Fold;
    SumUpdate(zeroed, i, hi);
    SumUpdate(zeroed[i := hi], i + 1, lo);
    assert Sum(zeroed[i := hi][i + 1 := lo]) == Sum(zeroed) + (256 * hi + lo);
    OnesWith(Sum(zeroed), 256 * hi + lo);
  }

  lemma OnesWith(s: nat, v: nat)
    requires v <= ONES
    ensures Fold(s + v) == ONES <==> v % ONES == (ONES - Fold(s)) % ONES && (s == 0 ==> v != 0)
  {
    hide Fold;
    FoldValue(s + v);
    ResidueSum(s, v);
  }

  lemma ResidueSum(s: nat, v: nat)
    requires v <= ONES
    ensures (s + v) % ONES == 0 <==> v % ONES == (ONES - Fold(s)) % ONES
  {
    FoldValue(s);
    var k, r := s / ONES, s % ONES;
    assert s == k * ONES + r;
    ModShift(r + v, k);
    assert (s + v) % ONES == (r + v) % ONES;
    if v == ONES {
      ModShift(r, 1);
    }
  }

  /** The octets as one big-endian number. */
  function BigEndian(b: seq<byte>): nat {
    if b == [] then 0 else 256 * BigEndian(Init(b)) + Last(b)
  }

  /** 0x10000 is 1 modulo 0xFFFF, so a number is congruent to the sum of its words. */
  lemma {:induction false} BigEndianSum(b: seq<byte>)
    requires |b| % 2 == 0
    ensures BigEndian(b) % 65535 == Sum(b) % 65535
    ensures BigEndian(b) == 0 <==> Sum(b) == 0
  {
    if b != [] {
      var front := Init(Init(b));
      var hi: byte, lo: byte := Last(Init(b)), Last(b);
      BigEndianSum(front);
      assert b == front + [hi, lo];
      SumConcat(front, [hi, lo]);
      assert [hi, lo][2..] == [];
      assert Sum([hi, lo]) == 256 * (hi as int) + lo;
      assert BigEndian(b) == 65536 * BigEndian(front) + (256 * hi + lo);
      WordsCarry(BigEndian(front), Sum(front), 256 * hi + lo);
    }
  }

  lemma WordsCarry(x: nat, y: nat, w: nat)
    requires x % 65535 == y % 65535
    ensures (65536 * x + w) % 65535 == (y + w) % 65535
  {
    ModShift(y % ONES + w, x + x / ONES);
    ModShift(y % ONES + w, y / ONES);
    assert 65536 * x + w == (x + x / ONES) * ONES + (y % ONES + w);
    assert y + w == (y / ONES) * ONES + (y % ONES + w);
  }

  /** A header verifies if and only if, read as one number, it is a multiple of 65535 other
      than 0. */
  lemma VerifiesMeaning(header: seq<byte>)
    requires |header| % 2 == 0
    ensures Verifies(header) <==> BigEndian(header) % 65535 == 0 && BigEndian(header) != 0
  {
    BigEndianSum(header);
    FoldValue(Sum(header));
  }

  /** What ip_fast_csum returns completes the header to a multiple of 65535, and is the least
      number that does; all ones for a header of zeros. */
  lemma CsumMeaning(header: seq<byte>)
    requires |header| % 2 == 0
    ensures var c := IpFastCsum(header);
      if BigEndian(header) == 0 then c == 65535
      else c < 65535 && (BigEndian(header) + c) % 65535 == 0
  {
    BigEndianSum(header);
    var s, k := Sum(header), Sum(header) / ONES;
    var v := BigEndian(header);
    FoldValue(s);
    if v != 0 {
      var r, c := s % ONES, IpFastCsum(header);
      assert r + c == (if r == 0 then 0 else ONES);
      assert v + c == (v / ONES) * ONES + (r + c);
      ModShift(r + c, v / ONES);
    }
  }
}
