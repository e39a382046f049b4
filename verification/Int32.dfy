/** The machine integers of the calculator: 32-bit, little-endian, division truncating. */
module Int32 {
  import opened Bytes

  const TWO31 := 0x8000_0000
  const TWO32 := 0x1_0000_0000

  predicate InRange(x: int) {
    -TWO31 <= x < TWO31
  }

  /** An int of the machine after arithmetic that may overflow: the kernel is compiled with
      wrap-around. */
  function Wrap(x: int): (r: int)
    ensures InRange(r)
    ensures InRange(x) ==> r == x
  {
    (x + TWO31) % TWO32 - TWO31
  }

  lemma WrapMeaning(x: int)
    ensures (x - Wrap(x)) % TWO32 == 0
  {
    var q := (x + TWO31) / TWO32;
    assert x - Wrap(x) == q * TWO32;
  }

  /** The octets of an int, least significant first. */
  function Encode(x: int): (b: seq<byte>)
    requires InRange(x)
    ensures |b| == 4
  {
    var u := if x < 0 then x + TWO32 else x;
    [u % 256, u / 256 % 256, u / 65536 % 256, u / 16777216]
  }

  /** Four octets read as an int. */
  function Decode(b: seq<byte>): (x: int)
    requires |b| == 4
    ensures InRange(x)
  {
    var u: int := Word(b[0], b[1], b[2], b[3]);
    if u >= TWO31 then u - TWO32 else u
  }

  function Word(b0: int, b1: int, b2: int, b3: int): int {
    b0 + 256 * b1 + 65536 * b2 + 16777216 * b3
  }

  lemma WordOfOctets(u: int)
    ensures Word(u % 256, u / 256 % 256, u / 65536 % 256, u / 16777216) == u
  {
    Quarters(u);
  }

  lemma RoundTrip(x: int)
    requires InRange(x)
    ensures Decode(Encode(x)) == x
  {
    WordOfOctets(if x < 0 then x + TWO32 else x);
  }

  lemma Digit(low: int, rest: int)
    requires 0 <= low < 256
    ensures (low + 256 * rest) % 256 == low && (low + 256 * rest) / 256 == rest
  {
  }

  lemma RoundTripBack(b: seq<byte>)
    requires |b| == 4
    ensures Encode(Decode(b)) == b
  {
    var b0: int, b1: int, b2: int, b3: int := b[0], b[1], b[2], b[3];
    var u := Word(b0, b1, b2, b3);
    Digit(b0, b1 + 256 * b2 + 65536 * b3);
    Digit(b1, b2 + 256 * b3);
    Digit(b2, b3);
    Quarters(u);
  }

  lemma Quarters(u: int)
    ensures u / 65536 == u / 256 / 256 && u / 16777216 == u / 256 / 256 / 256
  {
  }

  function Abs(x: int): nat {
    if x < 0 then -x else x
  }

  /** Integer division as C defines it. */
  function TruncDiv(a: int, b: int): int
    requires b != 0
  {
    if (a < 0) == (b < 0) then Abs(a) / Abs(b) else -(Abs(a) / Abs(b))
  }

  /** Truncation toward zero: the remainder is smaller than the divisor and never has the
      sign opposite to the dividend's. */
  lemma TruncDivMeaning(a: int, b: int)
    requires b != 0
    ensures var r := a - b * TruncDiv(a, b); Abs(r) < Abs(b) && (r == 0 || (r < 0 <==> a < 0))
  {
    var q, r := Abs(a) / Abs(b), Abs(a) % Abs(b);
    assert Abs(a) == Abs(b) * q + r && 0 <= r < Abs(b);
    Signs(b, q);
  }

  lemma Signs(b: int, q: int)
    ensures (-b) * q == -(b * q) && b * (-q) == -(b * q)
  {
  }
}
