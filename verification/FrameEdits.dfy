/** The frame edits of Frames as the drivers make them: octets rewritten where they lie. */
module FrameEdits {
  import opened Bytes
  import opened Checksum
  import opened Frames

  /** The check field is cleared, then set to the checksum of the header. */
  method RebuildCheck(buf: array<byte>, len: nat)
    requires len <= buf.Length && ValidFrame(buf[..len])
    modifies buf
    ensures buf[..len] == SetCheck(old(buf[..len])) && buf[len..] == old(buf[len..])
  {
    ghost var f: Frame := buf[..len];
    buf[CHECK] := 0;
    buf[CHECK + 1] := 0;
    assert buf[..len] == ClearCheck(f);
    var c := IpFastCsum(buf[ETH_HLEN..ETH_HLEN + 4 * (buf[ETH_HLEN] % 16)]);
    assert buf[ETH_HLEN..HeaderEnd(f)] == Header(ClearCheck(f));
    buf[CHECK] := c / 256;
    buf[CHECK + 1] := c % 256;
  }

  /** The LDD3 driver: flip the low bit of both third octets and rebuild the checksum. */
  method ToggleOctets(buf: array<byte>, len: nat)
    requires len <= buf.Length && ValidFrame(buf[..len])
    modifies buf
    ensures buf[..len] == ToggleRewrite(old(buf[..len])) && buf[len..] == old(buf[len..])
  {
    ghost var f: Frame := buf[..len];
    buf[SADDR_THIRD] := FlipBit(buf[SADDR_THIRD]);
    buf[DADDR_THIRD] := FlipBit(buf[DADDR_THIRD]);
    assert buf[..len] == FlipOctets(f);
    RebuildCheck(buf, len);
  }

  /** Source and destination address change places, the source waiting in a temporary. */
  method ExchangeAddresses(buf: array<byte>, len: nat)
    requires len <= buf.Length && ValidFrame(buf[..len])
    modifies buf
    ensures buf[..len] == SwapAddresses(old(buf[..len])) && buf[len..] == old(buf[len..])
  {
    ghost var f: Frame := buf[..len];
    var tmp := buf[SADDR..DADDR];
    forall i | SADDR <= i < DADDR {
      buf[i] := buf[i + 4];
    }
    assert forall i | SADDR <= i < DADDR :: buf[i] == f[i + 4] && tmp[i - SADDR] == f[i];
    forall i | DADDR <= i < 34 {
      buf[i] := tmp[i - DADDR];
    }
    assert forall i | DADDR <= i < 34 :: buf[i] == f[i - 4];
    assert forall i | 0 <= i < len :: buf[i] == SwapAddresses(f)[i];
    assert forall i | len <= i < buf.Length :: buf[i] == old(buf[i]);
  }

  /** The newer driver: for a ping, exchange the addresses through a temporary and lower the
      identifier octet; rebuild the checksum either way. */
  method EditPing(buf: array<byte>, len: nat, kind: Kind)
    requires len <= buf.Length && ValidFrame(buf[..len]) && kind == Classify(buf[..len])
    modifies buf
    ensures buf[..len] == PingRewrite(old(buf[..len])) && buf[len..] == old(buf[len..])
  {
    ghost var f: Frame := buf[..len];
    if !kind.Other? {
      ExchangeAddresses(buf, len);
      ghost var g: Frame := buf[..len];
      buf[IDENT] := Minus8(buf[IDENT]);
      assert buf[..len] == g[IDENT := Minus8(g[IDENT])] && g[IDENT] == f[IDENT];
    }
    RebuildCheck(buf, len);
  }

  /** The newer snull_rx: an echo request in the skb becomes an echo reply. */
  method EchoToReply(skb: array<byte>)
    requires ValidFrame(skb[..])
    modifies skb
    ensures skb[ETH_HLEN..] == PingReceive(old(skb[..]))
  {
    ghost var f: Frame := skb[..];
    if (skb[ICMP_TYPE] == ICMP_ECHO || skb[ICMP_TYPE] == ICMP_ECHOREPLY) && skb[ICMP_CODE] == 0 {
      if skb[ICMP_TYPE] == ICMP_ECHO {
        skb[ICMP_TYPE] := ICMP_ECHOREPLY;
        skb[ETH_HLEN + 24] := Plus8(skb[ETH_HLEN + 24]);
      }
    }
  }

  /** memset and memcpy into a zeroed short packet, or the data itself when it is long enough. */
  method PadShort(data: array<byte>) returns (buf: array<byte>)
    ensures buf[..] == Pad(data[..])
    ensures if data.Length < ETH_ZLEN then fresh(buf) else buf == data
  {
    if data.Length < ETH_ZLEN {
      buf := new byte[ETH_ZLEN](_ => 0);
      forall i | 0 <= i < data.Length {
        buf[i] := data[i];
      }
    } else {
      buf := data;
    }
  }
}
