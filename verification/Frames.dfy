/** What the two snull drivers do to the octets of a frame: zero padding, the third-octet
    toggle of the LDD3 driver, the ping rewrite of the newer one, and reception. */
module Frames {
  import opened Bytes
  import opened Checksum

  const ETH_HLEN := 14
  const ETH_ZLEN := 60
  const ETH_DATA_LEN := 1500
  const CHECK := 24         // IP header checksum
  const SADDR := 26         // IP source address
  const DADDR := 30         // IP destination address
  const SADDR_THIRD := 28
  const DADDR_THIRD := 32
  const ICMP_TYPE := 34     // first octet after an Ethernet and a 20-octet IP header
  const ICMP_CODE := 35
  const IDENT := 0x26       // the octet the ping path edits
  const ICMP_ECHO: byte := 8
  const ICMP_ECHOREPLY: byte := 0

  function Ihl(f: seq<byte>): nat
    requires |f| > ETH_HLEN
  {
    f[ETH_HLEN] % 16
  }

  function HeaderEnd(f: seq<byte>): nat
    requires |f| > ETH_HLEN
  {
    ETH_HLEN + 4 * Ihl(f)
  }

  /** A frame snull_hw_tx can be handed: padded, fitting data[], IP header inside. */
  predicate ValidFrame(f: seq<byte>) {
    && ETH_ZLEN <= |f| <= ETH_DATA_LEN
    && 5 <= Ihl(f)
    && HeaderEnd(f) <= |f|
  }

  type Frame = f: seq<byte> | ValidFrame(f) witness seq(60, i => if i == 14 then 0x45 else 0)

  /** snull_tx: short packets are padded with zeros to ETH_ZLEN. */
  function Pad(data: seq<byte>): (f: seq<byte>)
    ensures |f| == if |data| < ETH_ZLEN then ETH_ZLEN else |data|
    ensures data <= f && forall i :: |data| <= i < |f| ==> f[i] == 0
  {
    if |data| < ETH_ZLEN then data + seq(ETH_ZLEN - |data|, _ => 0) else data
  }

  function Header(f: Frame): (h: seq<byte>)
    ensures |h| == 4 * Ihl(f) && |h| % 2 == 0 && |h| >= 20
  {
    f[ETH_HLEN..HeaderEnd(f)]
  }

  /** A big-endian 16-bit word. */
  function Word(hi: int, lo: int): int {
    256 * hi + lo
  }

  function CheckField(f: Frame): nat {
    Word(f[CHECK], f[CHECK + 1])
  }

  function ClearCheck(f: Frame): Frame {
    f[CHECK := 0][CHECK + 1 := 0]
  }

  /** The frame with its header checksum rebuilt. */
  function SetCheck(f: Frame): (g: Frame)
    ensures |g| == |f| && forall i | 0 <= i < |f| && i != CHECK && i != CHECK + 1 :: g[i] == f[i]
  {
    var c := IpFastCsum(Header(ClearCheck(f)));
    f[CHECK := c / 256][CHECK + 1 := c % 256]
  }

  /** The frame carries the checksum the driver would compute for it. */
  predicate CarriesCheck(f: Frame) {
    CheckField(f) == IpFastCsum(Header(ClearCheck(f)))
  }

  lemma HeaderUpdate(f: Frame, i: nat, v: byte)
    requires ETH_HLEN < i < |f|
    ensures ValidFrame(f[i := v])
    ensures Header(f[i := v]) == if i < HeaderEnd(f) then Header(f)[i - ETH_HLEN := v] else Header(f)
    ensures i < HeaderEnd(f) ==> Sum(Header(f[i := v])) == Sum(Header(f)) + Weight(i) * (v - f[i])
  {
    HeaderAt(f, i, v);
    hide Header, Sum;
    if i < HeaderEnd(f) {
      SumUpdate(Header(f), i - ETH_HLEN, v);
    }
  }

  lemma HeaderAt(f: Frame, i: nat, v: byte)
    requires ETH_HLEN < i < |f|
    ensures ValidFrame(f[i := v])
    ensures Header(f[i := v]) == if i < HeaderEnd(f) then Header(f)[i - ETH_HLEN := v] else Header(f)
    ensures i < HeaderEnd(f) ==> Header(f)[i - ETH_HLEN] == f[i]
  {
  }

  /** Whatever the header length and contents, the rebuilt header verifies: its words,
      check field included, fold to 0xFFFF. */
  lemma SetCheckVerifies(f: Frame)
    ensures Verifies(Header(SetCheck(f)))
    ensures CarriesCheck(SetCheck(f))
  {
    var z, c := ClearCheck(f), IpFastCsum(Header(ClearCheck(f)));
    assert SetCheck(f) == z[CHECK := c / 256][CHECK + 1 := c % 256];
    HeaderCheck(z, c / 256, c % 256);
    FoldValue(Sum(Header(z)));
    CheckMakesValid(Header(z), 10, c / 256, c % 256);
    assert ClearCheck(SetCheck(f)) == z;
  }

  /** The check field is at octets 10 and 11 of the header. */
  lemma HeaderCheck(z: Frame, hi: byte, lo: byte)
    ensures ValidFrame(z[CHECK := hi][CHECK + 1 := lo])
    ensures Header(z[CHECK := hi][CHECK + 1 := lo]) == Header(z)[10 := hi][11 := lo]
  {
  }

  lemma CheckFieldSet(f: Frame)
    ensures CheckField(SetCheck(f)) == IpFastCsum(Header(ClearCheck(f)))
  {
  }

  /** The rebuilt checksum does not depend on what the check field held. */
  lemma SetCheckIgnoresField(f: Frame, a: byte, b: byte)
    ensures ValidFrame(f[CHECK := a][CHECK + 1 := b])
    ensures SetCheck(f[CHECK := a][CHECK + 1 := b]) == SetCheck(f)
  {
    assert ClearCheck(f[CHECK := a][CHECK + 1 := b]) == ClearCheck(f);
  }

  lemma CarriesIsFixpoint(f: Frame)
    ensures CarriesCheck(f) <==> SetCheck(f) == f
  {
    var c := IpFastCsum(Header(ClearCheck(f)));
    if CarriesCheck(f) {
      assert c / 256 == f[CHECK] && c % 256 == f[CHECK + 1];
    } else {
      assert c == 256 * (c / 256) + c % 256;
    }
  }

  // ---------------------------------------------------------------- LDD3 driver

  /** The lowest bit of an octet flipped. */
  function FlipBit(b: byte): byte {
    if b % 2 == 0 then b + 1 else b - 1
  }

  function FlipOctets(f: Frame): Frame {
    f[SADDR_THIRD := FlipBit(f[SADDR_THIRD])][DADDR_THIRD := FlipBit(f[DADDR_THIRD])]
  }

  /** The rewrite of the LDD3 snull_hw_tx: toggle both third octets, rebuild the checksum. */
  function ToggleRewrite(f: Frame): Frame {
    SetCheck(FlipOctets(f))
  }

  /** Looping a frame through both interfaces gives it back exactly when it carried the
      computed checksum to begin with. */
  lemma ToggleTwice(f: Frame)
    ensures ToggleRewrite(ToggleRewrite(f)) == SetCheck(f)
    ensures ToggleRewrite(ToggleRewrite(f)) == f <==> CarriesCheck(f)
  {
    var g := ToggleRewrite(f);
    assert FlipOctets(g) == f[CHECK := g[CHECK]][CHECK + 1 := g[CHECK + 1]];
    SetCheckIgnoresField(f, g[CHECK], g[CHECK + 1]);
    CarriesIsFixpoint(f);
  }

  lemma FlipSum(f: Frame)
    ensures Sum(Header(FlipOctets(f))) == Sum(Header(f))
              + 256 * (FlipBit(f[SADDR_THIRD]) - f[SADDR_THIRD]) + 256 * (FlipBit(f[DADDR_THIRD]) - f[DADDR_THIRD])
  {
    HeaderUpdate(f, SADDR_THIRD, FlipBit(f[SADDR_THIRD]));
    HeaderUpdate(f[SADDR_THIRD := FlipBit(f[SADDR_THIRD])], DADDR_THIRD, FlipBit(f[DADDR_THIRD]));
  }

  lemma ResiduesApart(x: nat, y: nat, d: nat)
    requires y == x + d && 0 < d < ONES
    ensures x % ONES != y % ONES
  {
    var k := x / ONES;
    assert y == k * ONES + (x % ONES + d);
    ModShift(x % ONES + d, k);
    if x % ONES + d >= ONES {
      ModShift(x % ONES + d - ONES, 1);
    }
  }

  /** One pass keeps the checksum of a frame exactly when the two third octets have
      different low bits, so that the toggles cancel. */
  lemma ToggleKeepsCheck(f: Frame)
    ensures CheckField(ToggleRewrite(f)) == CheckField(SetCheck(f)) <==> f[SADDR_THIRD] % 2 != f[DADDR_THIRD] % 2
    ensures CarriesCheck(f) ==>
              (CheckField(ToggleRewrite(f)) == CheckField(f) <==> f[SADDR_THIRD] % 2 != f[DADDR_THIRD] % 2)
  {
    var z := ClearCheck(f);
    assert ClearCheck(FlipOctets(f)) == FlipOctets(z);
    FlipKeepsFold(z);
    CheckFieldSet(f);
    CheckFieldSet(FlipOctets(f));
    hide SetCheck, Sum, Fold, Header, FlipOctets;
  }

  lemma FlipKeepsFold(z: Frame)
    ensures Fold(Sum(Header(FlipOctets(z)))) == Fold(Sum(Header(z))) <==> z[SADDR_THIRD] % 2 != z[DADDR_THIRD] % 2
  {
    hide Header, FlipOctets, Sum, Fold;
    FlipSum(z);
    var x, y := Sum(Header(z)), Sum(Header(FlipOctets(z)));
    FoldSame(x, y);
    if z[SADDR_THIRD] % 2 == z[DADDR_THIRD] % 2 {
      if x < y {
        ResiduesApart(x, y, 512);
      } else {
        ResiduesApart(y, x, 512);
      }
    }
  }

  // ---------------------------------------------------------------- newer driver

  datatype Kind = Request | Reply | Other

  /** Ping classification by the two octets behind a 20-octet IP header. */
  function Classify(f: Frame): Kind {
    if f[ICMP_TYPE] == ICMP_ECHO && f[ICMP_CODE] == 0 then Request
    else if f[ICMP_TYPE] == ICMP_ECHOREPLY && f[ICMP_CODE] == 0 then Reply
    else Other
  }

  function SwapAddresses(f: Frame): (g: Frame)
    ensures |g| == |f|
    ensures forall i | 0 <= i < |f| ::
              g[i] == if SADDR <= i < DADDR then f[i + 4] else if DADDR <= i < 34 then f[i - 4] else f[i]
  {
    f[..SADDR] + f[DADDR..34] + f[SADDR..DADDR] + f[34..]
  }

  /** Eight less and eight more, wrapping round as unsigned octets do. */
  function Minus8(b: byte): byte { (b + 248) % 256 }
  function Plus8(b: byte): byte { (b + 8) % 256 }

  /** The rewrite of the newer snull_hw_tx. */
  function PingRewrite(f: Frame): Frame {
    if Classify(f).Other? then SetCheck(f)
    else SetCheck(SwapAddresses(f)[IDENT := Minus8(f[IDENT])])
  }

  /** eth_type_trans: the Ethernet header is pulled off. */
  function Strip(f: Frame): (d: seq<byte>)
    ensures |d| == |f| - ETH_HLEN
  {
    f[ETH_HLEN..]
  }

  /** The newer snull_rx: an echo request goes up as an echo reply. */
  function PingReceive(f: Frame): (d: seq<byte>)
    ensures |d| == |f| - ETH_HLEN
  {
    var d := Strip(f);
    if d[20] == ICMP_ECHO && d[21] == 0
    then d[20 := ICMP_ECHOREPLY][24 := Plus8(d[24])]
    else d
  }

  /** Exchanging source and destination leaves the header sum, so the checksum, alone. */
  lemma SwapInvariance(f: Frame)
    ensures Sum(Header(SwapAddresses(f))) == Sum(Header(f))
    ensures CheckField(SetCheck(SwapAddresses(f))) == CheckField(SetCheck(f))
  {
    hide Header, Sum, Fold, SetCheck;
    SwapSum(f);
    var z := ClearCheck(f);
    assert ClearCheck(SwapAddresses(f)) == SwapAddresses(z);
    SwapSum(z);
    CheckFieldSet(f);
    CheckFieldSet(SwapAddresses(f));
  }

  lemma SwapSum(f: Frame)
    ensures Sum(Header(SwapAddresses(f))) == Sum(Header(f))
  {
    var a, s, d, t := f[ETH_HLEN..SADDR], f[SADDR..DADDR], f[DADDR..34], f[34..HeaderEnd(f)];
    assert Header(f) == a + (s + (d + t));
    assert Header(SwapAddresses(f)) == a + (d + (s + t));
    SumExchange(a, s, d, t);
  }

  lemma SumExchange(a: seq<byte>, s: seq<byte>, d: seq<byte>, t: seq<byte>)
    requires |a| == 12 && |s| == 4 && |d| == 4 && |t| % 2 == 0
    ensures Sum(a + (s + (d + t))) == Sum(a + (d + (s + t)))
  {
    hide Sum;
    SumThree(s, d, t);
    SumThree(d, s, t);
    SumSame(a, s + (d + t), d + (s + t));
  }

  lemma SumSame(a: seq<byte>, x: seq<byte>, y: seq<byte>)
    requires |a| % 2 == 0 && |x| % 2 == 0 && |y| % 2 == 0 && Sum(x) == Sum(y)
    ensures Sum(a + x) == Sum(a + y)
  {
    hide Sum;
    SumConcat(a, x);
    SumConcat(a, y);
  }

  lemma SumThree(s: seq<byte>, d: seq<byte>, t: seq<byte>)
    requires |s| == 4 && |d| == 4 && |t| % 2 == 0
    ensures Sum(s + (d + t)) == Sum(s) + Sum(d) + Sum(t)
  {
    hide Sum;
    SumConcat(s, d + t);
    SumConcat(d, t);
  }

  /** What reaches the stack after a frame went out and came back in, octet by octet, for
      each kind of frame and every header length. */
  function Looped(f: Frame): (d: seq<byte>)
    ensures |d| == |f| - ETH_HLEN
  {
    PingReceive(PingRewrite(f))
  }

  /** Octets 10 and 11 (the check field) aside, the delivered packet is the frame without its
      Ethernet header, with the addresses exchanged, a request turned into a reply, and the
      identifier octet back at its value for a request but 8 lower for a reply. */
  lemma PingOctets(f: Frame, i: nat)
    requires i < |f| - ETH_HLEN && i != 10 && i != 11
    ensures Looped(f)[i] ==
      match Classify(f)
      case Other => f[ETH_HLEN + i]
      case kind =>
        if 12 <= i < 16 then f[ETH_HLEN + i + 4]
        else if 16 <= i < 20 then f[ETH_HLEN + i - 4]
        else if i == 20 then ICMP_ECHOREPLY
        else if i == 24 && kind == Reply then Minus8(f[IDENT])
        else f[ETH_HLEN + i]
  {
    var j := ETH_HLEN + i;
    if Classify(f).Other? {
      assert Looped(f) == Strip(SetCheck(f));
    } else {
      var g := SwapAddresses(f)[IDENT := Minus8(f[IDENT])];
      var d := Strip(SetCheck(g));
      assert PingRewrite(f) == SetCheck(g);
      assert d[20] == f[ICMP_TYPE] && d[21] == f[ICMP_CODE] && d[24] == Minus8(f[IDENT]);
      assert d[i] == g[j];
      MinusPlus(f[IDENT]);
    }
  }

  lemma MinusPlus(b: byte)
    ensures Plus8(Minus8(b)) == b
  {
  }

  /** A looped echo request is the frame that went out with two octets rewritten. */
  lemma LoopedRequest(f: Frame)
    requires Classify(f) == Request
    ensures Looped(f) == Strip(PingRewrite(f)[ICMP_TYPE := ICMP_ECHOREPLY][IDENT := f[IDENT]])
  {
    var g := SwapAddresses(f)[IDENT := Minus8(f[IDENT])];
    var d := Strip(SetCheck(g));
    assert d[20] == f[ICMP_TYPE] && d[21] == f[ICMP_CODE] && d[24] == Minus8(f[IDENT]);
    MinusPlus(f[IDENT]);
    assert Looped(f) == d[20 := ICMP_ECHOREPLY][24 := f[IDENT]];
  }

  lemma PingAddresses(f: Frame)
    requires Classify(f) == Request
    ensures Looped(f)[12..16] == f[DADDR..DADDR + 4] && Looped(f)[16..20] == f[SADDR..SADDR + 4]
    ensures Looped(f)[20] == ICMP_ECHOREPLY
  {
    forall i | 12 <= i < 21
      ensures Looped(f)[i] == if i < 16 then f[i + 18] else if i < 20 then f[i + 10] else ICMP_ECHOREPLY
    {
      PingOctets(f, i);
    }
  }

  lemma PingRest(f: Frame)
    requires Classify(f) == Request
    ensures Looped(f)[..10] == f[ETH_HLEN..CHECK] && Looped(f)[21..] == f[ICMP_CODE..]
  {
    forall i | 0 <= i < 10 || 21 <= i < |f| - ETH_HLEN
      ensures Looped(f)[i] == f[ETH_HLEN + i]
    {
      PingOctets(f, i);
    }
  }

  /** Ping end to end for a plain 20-octet header: an echo request comes back as its reply,
      with every octet accounted for and a correct header checksum. */
  lemma PingEndToEnd(f: Frame)
    requires Ihl(f) == 5 && Classify(f) == Request
    ensures var d := Looped(f);
      && |d| == |f| - ETH_HLEN
      && d[12..16] == f[DADDR..DADDR + 4] && d[16..20] == f[SADDR..SADDR + 4]
      && d[20] == ICMP_ECHOREPLY
      && d[..10] == f[ETH_HLEN..CHECK] && d[21..] == f[ICMP_CODE..]
      && Verifies(d[..20])
      && Word(d[10], d[11]) == IpFastCsum(Header(ClearCheck(f)))
  {
    PingAddresses(f);
    PingRest(f);
    PingCheck(f);
  }

  lemma PingCheck(f: Frame)
    requires Ihl(f) == 5 && Classify(f) == Request
    ensures var d := Looped(f);
      Verifies(d[..20]) && Word(d[10], d[11]) == IpFastCsum(Header(ClearCheck(f)))
  {
    hide Looped, PingRewrite, Lowered, ClearCheck, Sum, Fold, Classify, Ihl;
    PlainHeader(f);
    PingRewriteVerifies(f);
    LoopedCheck(f);
    LoweredHeader(f);
  }

  /** The edits of reception fall behind a header of 20 octets. */
  lemma PlainHeader(f: Frame)
    requires Ihl(f) == 5 && Classify(f) == Request
    ensures Looped(f)[..20] == Header(PingRewrite(f))
  {
    LoopedRequest(f);
    RewriteOctets(f);
    hide Looped, PingRewrite;
  }

  /** The frame as sent, but for the addresses and the check field. */
  function Lowered(f: Frame): Frame {
    if Classify(f).Other? then f else f[IDENT := Minus8(f[IDENT])]
  }

  /** Octets 10 and 11 of the delivered packet, completing PingOctets: the checksum computed
      after the identifier edit, which the exchange of the addresses leaves alone. */
  lemma LoopedCheck(f: Frame)
    ensures Word(Looped(f)[10], Looped(f)[11]) == IpFastCsum(Header(ClearCheck(Lowered(f))))
  {
    RewriteBySwap(f);
    hide Lowered, PingRewrite, PingReceive, SetCheck, Sum, Fold, ClearCheck, SwapAddresses, Header, CheckField, Word;
    CheckPassesUp(PingRewrite(f));
    CheckFieldSet(Lowered(f));
    SwapInvariance(Lowered(f));
  }

  /** For a header of fewer than 28 octets that is the frame's own checksum. */
  lemma LoweredHeader(f: Frame)
    requires Ihl(f) < 7
    ensures Header(ClearCheck(Lowered(f))) == Header(ClearCheck(f))
  {
  }

  lemma RewriteBySwap(f: Frame)
    ensures PingRewrite(f) == SetCheck(if Classify(f).Other? then Lowered(f) else SwapAddresses(Lowered(f)))
  {
    hide SetCheck;
    if !Classify(f).Other? {
      assert SwapAddresses(f)[IDENT := Minus8(f[IDENT])] == SwapAddresses(Lowered(f));
    }
  }

  lemma CheckPassesUp(f: Frame)
    ensures Word(PingReceive(f)[10], PingReceive(f)[11]) == CheckField(f)
  {
  }

  /** The check field of a looped echo request verifies only where the edits behind the
      20th octet miss the header or cancel inside it: no options, or at least 28 octets of
      header with an identifier octet that did not wrap. */
  predicate LoopKeepsHeader(f: Frame) {
    Ihl(f) == 5 || (Ihl(f) >= 7 && f[IDENT] >= 8)
  }

  /** Puts the delivered packet back behind its Ethernet header, to read its IP header. */
  function Reframe(f: Frame, d: seq<byte>): seq<byte> {
    f[..ETH_HLEN] + d
  }

  /** What comes back of any frame has a header that verifies, but for requests that do not
      meet that condition: replies and other frames are not edited on reception. */
  lemma PingHeaderValid(f: Frame)
    ensures ValidFrame(Reframe(f, Looped(f)))
    ensures Verifies(Header(Reframe(f, Looped(f)))) <==> !Classify(f).Request? || LoopKeepsHeader(f)
  {
    PingRewriteVerifies(f);
    if Classify(f).Request? {
      LoopedSum(f);
      LoopVerdict(Ihl(f), f[IDENT], Sum(Header(PingRewrite(f))), Sum(Header(Reframe(f, Looped(f)))));
    } else {
      LoopedUnedited(f);
    }
  }

  lemma LoopedUnedited(f: Frame)
    requires !Classify(f).Request?
    ensures Reframe(f, Looped(f)) == PingRewrite(f)
  {
    var g := PingRewrite(f);
    assert g[..ETH_HLEN] == f[..ETH_HLEN] && g[ICMP_TYPE] == f[ICMP_TYPE] && g[ICMP_CODE] == f[ICMP_CODE];
    assert Looped(f) == Strip(g);
  }

  /** Sixty octets with a header of one option word, an echo request. */
  const OPTION_REQUEST: seq<byte> :=
    seq(ETH_ZLEN, i => if i == ETH_HLEN then 0x46 else if i == ICMP_TYPE then ICMP_ECHO else 0)

  /** Its loop does not verify. */
  lemma OptionsSpoilReply()
    ensures ValidFrame(OPTION_REQUEST) && Classify(OPTION_REQUEST) == Request
    ensures var reply := Reframe(OPTION_REQUEST, Looped(OPTION_REQUEST));
            ValidFrame(reply) && !Verifies(Header(reply))
  {
    hide Looped, Reframe, Header, Verifies;
    PingHeaderValid(OPTION_REQUEST);
  }

  /** Sixty octets with a plain header, an echo reply. */
  const PLAIN_REPLY: seq<byte> := seq(ETH_ZLEN, i => if i == ETH_HLEN then 0x45 else 0)

  /** The identifier of a looped frame is the one it went out with, except in a reply. */
  lemma LoopKeepsIdentifier(f: Frame)
    ensures Looped(f)[IDENT - ETH_HLEN] == f[IDENT] <==> !Classify(f).Reply?
  {
    hide Looped, Classify;
    PingOctets(f, IDENT - ETH_HLEN);
  }

  /** A reply comes back with another one. */
  lemma LoopChangesIdentifier()
    ensures ValidFrame(PLAIN_REPLY) && Classify(PLAIN_REPLY) == Reply
    ensures PLAIN_REPLY[IDENT] == 0 && Looped(PLAIN_REPLY)[IDENT - ETH_HLEN] == 248
  {
    PingOctets(PLAIN_REPLY, IDENT - ETH_HLEN);
  }

  /** Whatever leaves the newer snull_hw_tx has a header that verifies. */
  lemma PingRewriteVerifies(f: Frame)
    ensures Verifies(Header(PingRewrite(f)))
  {
    SetCheckVerifies(if Classify(f).Other? then f else SwapAddresses(f)[IDENT := Minus8(f[IDENT])]);
  }

  lemma MinusGap(b: byte)
    ensures b - Minus8(b) == if b >= 8 then 8 else -248
  {
  }

  lemma LoopVerdict(ihl: nat, ident: byte, x: nat, y: nat)
    requires ihl >= 5 && Fold(x) == ONES
    requires y == x - (if ihl >= 6 then 2048 else 0) + (if ihl >= 7 then 256 * (ident - Minus8(ident)) else 0)
    ensures Fold(y) == ONES <==> ihl == 5 || (ihl >= 7 && ident >= 8)
  {
    hide Fold, Minus8;
    MinusGap(ident);
    if ihl >= 7 && ident < 8 {
      FoldDrop(x, y, 65536);
    } else if ihl == 6 {
      FoldDrop(x, y, 2048);
    }
  }

  lemma LoopedSum(f: Frame)
    requires Classify(f) == Request
    ensures ValidFrame(Reframe(f, Looped(f)))
    ensures Sum(Header(Reframe(f, Looped(f)))) == Sum(Header(PingRewrite(f)))
              - (if Ihl(f) >= 6 then 2048 else 0)
              + (if Ihl(f) >= 7 then 256 * (f[IDENT] - Minus8(f[IDENT])) else 0)
  {
    var sent := PingRewrite(f);
    LoopedRequest(f);
    assert Reframe(f, Looped(f)) == sent[ICMP_TYPE := ICMP_ECHOREPLY][IDENT := f[IDENT]];
    EditsBehindHeader(sent, ICMP_ECHOREPLY, f[IDENT]);
    RewriteOctets(f);
  }

  lemma RewriteOctets(f: Frame)
    requires Classify(f) == Request
    ensures var g := PingRewrite(f);
            g[ETH_HLEN] == f[ETH_HLEN] && g[ICMP_TYPE] == ICMP_ECHO && g[IDENT] == Minus8(f[IDENT])
  {
  }

  /** Octets 34 and 38 of a frame are in the header only when it has options. */
  lemma EditsBehindHeader(g: Frame, a: byte, b: byte)
    ensures ValidFrame(g[ICMP_TYPE := a][IDENT := b])
    ensures Sum(Header(g[ICMP_TYPE := a][IDENT := b])) == Sum(Header(g))
              + (if Ihl(g) >= 6 then 256 * (a - g[ICMP_TYPE]) else 0)
              + (if Ihl(g) >= 7 then 256 * (b - g[IDENT]) else 0)
  {
    HeaderUpdate(g, ICMP_TYPE, a);
    HeaderUpdate(g[ICMP_TYPE := a], IDENT, b);
  }

  /** A sum that verifies stops verifying when it drops by 2048 or by 65536. */
  lemma FoldDrop(x: nat, y: nat, d: nat)
    requires x == y + d && (d == 2048 || d == 65536) && Fold(x) == ONES
    ensures Fold(y) != ONES
  {
  }
}
