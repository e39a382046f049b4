/** What the two drivers do to the data of a packet, as seen from outside: from the octets the
    kernel hands to snull_tx to those the stack gets. Offsets and values are written out, so
    that this is a description of its own, beside the functions of Frames and SnullModel. */
module SnullWire {
  import opened Bytes
  import opened Checksum
  import opened Frames
  import opened SnullModel
  import opened SnullFlow
  import opened SnullPoll
  import opened SnullService

  /** The IP header at the start of the packet, of as many words as its first octet says,
      verifies. */
  predicate HeaderVerifies(p: seq<byte>) {
    |p| > 0 && 4 * (p[0] % 16) <= |p| && Verifies(p[..4 * (p[0] % 16)])
  }

  /** And its check field is not all ones. */
  predicate GoodHeader(p: seq<byte>) {
    HeaderVerifies(p) && |p| >= 12 && !(p[10] == 255 && p[11] == 255)
  }

  predicate LowBitFlipped(a: byte, b: byte) {
    a / 2 == b / 2 && a != b
  }

  /** The LDD3 driver: the packet has the third octets of both addresses with the low bit
      flipped, a good header, and otherwise the octets of the frame behind its first 14. */
  predicate Toggled(f: Frame, p: seq<byte>) {
    && |p| == |f| - 14 && GoodHeader(p)
    && LowBitFlipped(f[28], p[14]) && LowBitFlipped(f[32], p[18])
    && forall i | 0 <= i < |p| && i !in {10, 11, 14, 18} :: p[i] == f[14 + i]
  }

  /** The frame for the data of an skb: at least 60 octets, zeros where there are no data. */
  lemma FrameOfData(data: seq<byte>)
    ensures |Pad(data)| == (if |data| < 60 then 60 else |data|) && Pad(data)[..|data|] == data
    ensures forall i | |data| <= i < 60 :: Pad(data)[i] == 0
  {
  }

  /** A rebuilt frame, its Ethernet header off. */
  lemma RebuiltHeader(f: Frame)
    ensures GoodHeader(SetCheck(f)[14..])
    ensures forall i | 14 <= i < |f| && i !in {24, 25} :: SetCheck(f)[i] == f[i]
  {
    var g := SetCheck(f);
    SetCheckVerifies(f);
    assert g[14..][..4 * (f[14] % 16)] == Header(g);
    FieldNotOnes(f);
  }

  lemma FieldNotOnes(f: Frame)
    ensures !(SetCheck(f)[24] == 255 && SetCheck(f)[25] == 255)
  {
    var z := Header(ClearCheck(f));
    assert z[0] == f[14] && z[0] > 0;
    assert Sum(z) > 0;
    CheckFieldSet(f);
    hide SetCheck, Header, ClearCheck, Sum;
    assert IpFastCsum(z) < 65535;
  }

  lemma FlipIsLowBit(b: byte)
    ensures LowBitFlipped(b, FlipBit(b))
  {
  }

  lemma ToggledFrame(f: Frame)
    ensures Toggled(f, ToggleRewrite(f)[14..])
  {
    var g := FlipOctets(f);
    RebuiltHeader(g);
    FlipIsLowBit(f[28]);
    FlipIsLowBit(f[32]);
    hide Verifies, SetCheck, FlipBit;
  }

  // ------------------------------------------------------------ one transmission

  /** In regular mode a transmission is delivered to its destination, or dropped there, before
      snull_tx returns. */
  lemma RegularTx<B, K>(cfg: Config, s: Net<B, K>, ev: Event<K>, e: Side)
    requires !cfg.napi && NetTended(cfg, s) && ev.Tx? && KernelCalls(cfg, s, ev) && Executable(s, ev)
    ensures var here, g := Dest(cfg.variant, ev.side, Pad(ev.data)) == e, Rewrite(cfg.variant, Pad(ev.data));
      var v, w := s.Get(e), Step(cfg, s, ev).Get(e);
      && w.delivered == v.delivered + (if here && ev.alloc then [Payload(cfg, g)] else [])
      && w.lost == v.lost + (if here && !ev.alloc then [g] else [])
      && w.pool == v.pool && w.queue == v.queue
  {
    hide HwSend, HwDone, Dest, Rewrite, Payload, Acknowledge, Account;
    var d, f, s1 := ev.side, Pad(ev.data), Accept(s, ev.side, ev.skb);
    assert NetTended(cfg, s1) by {
      if d == Sn0 {} else {}
    }
    var t := HwSend(cfg, s1, d, f, ev.alloc);
    RegularSend(cfg, s1, d, f, ev.alloc);
    HwSendKeeps(cfg, s1, d, f, ev.alloc);
    DoneKeepsLists(cfg, t, d, |f|, e);
    var dest, g := Dest(cfg.variant, d, f), Rewrite(cfg.variant, f);
    AcceptAcknowledge(s, d, ev.skb, dest, e);
    AccountOnly(s, Acknowledge(s1, dest), dest, g, Payload(cfg, g), ev.alloc, e);
  }

  ghost predicate SameLists<B, K>(v: Dev<B, K>, w: Dev<B, K>) {
    w.delivered == v.delivered && w.lost == v.lost && w.pool == v.pool && w.queue == v.queue
  }

  lemma AccountOnly<B, K>(
      s: Net<B, K>, t: Net<B, K>, dest: Side, g: Frame, payload: seq<byte>, alloc: bool, e: Side)
    requires SameLists(s.Get(e), t.Get(e))
    ensures var v, w := s.Get(e), t.With(dest, Account(t.Get(dest), g, payload, alloc)).Get(e);
      && w.delivered == v.delivered + (if dest == e && alloc then [payload] else [])
      && w.lost == v.lost + (if dest == e && !alloc then [g] else [])
      && w.pool == v.pool && w.queue == v.queue
  {
    if dest == Sn0 {
      if e == Sn0 {} else {}
    } else {
      if e == Sn0 {} else {}
    }
  }

  /** The packet is appended to what the device has been handed, if there is memory for it; if
      not, a frame is lost. */
  ghost predicate Arrives<B, K>(v: Dev<B, K>, w: Dev<B, K>, alloc: bool, p: seq<byte>) {
    && w.delivered == (if alloc then v.delivered + [p] else v.delivered)
    && (if alloc then w.lost == v.lost else |w.lost| == |v.lost| + 1 && w.lost[..|v.lost|] == v.lost)
  }

  ghost predicate HearsNothing<B, K>(v: Dev<B, K>, w: Dev<B, K>) {
    w.delivered == v.delivered && w.lost == v.lost
  }

  /** The LDD3 driver in regular mode, from the octets of the skb to those its twin gets. */
  lemma Ldd3Delivers<B, K>(cfg: Config, s: Net<B, K>, ev: Event<K>) returns (p: seq<byte>)
    requires cfg.variant == Ldd3 && !cfg.napi && NetTended(cfg, s)
    requires ev.Tx? && KernelCalls(cfg, s, ev) && Executable(s, ev)
    ensures Toggled(Pad(ev.data), p)
    ensures var t, d := Step(cfg, s, ev), ev.side;
      && HearsNothing(s.Get(d), t.Get(d))
      && Arrives(s.Get(d.Twin()), t.Get(d.Twin()), ev.alloc, p)
  {
    hide Step;
    p := ToggleRewrite(Pad(ev.data))[14..];
    ToggledFrame(Pad(ev.data));
    RegularTx(cfg, s, ev, Sn0);
    RegularTx(cfg, s, ev, Sn1);
  }

  // ------------------------------------------------------------ NAPI mode

  /** In NAPI mode the rewritten frame goes on top of its destination's list. */
  lemma NapiTx<B, K>(cfg: Config, s: Net<B, K>, ev: Event<K>, e: Side)
    requires cfg.napi && NetTended(cfg, s) && ev.Tx? && KernelCalls(cfg, s, ev) && Executable(s, ev)
    ensures var q := Queued(Last(s.Get(ev.side).pool), ev.side, Rewrite(cfg.variant, Pad(ev.data)));
      var v, w := s.Get(e), Step(cfg, s, ev).Get(e);
      && w.queue == v.queue + (if Dest(cfg.variant, ev.side, Pad(ev.data)) == e then [q] else [])
      && HearsNothing(v, w)
  {
    hide HwSend, HwDone, Dest, Rewrite, Acknowledge, Enqueue, TakeBuffer;
    var d, f, s1 := ev.side, Pad(ev.data), Accept(s, ev.side, ev.skb);
    assert NetTended(cfg, s1) by {
      if d == Sn0 {} else {}
    }
    var dest := Dest(cfg.variant, d, f);
    NapiSend(cfg, s1, d, f, ev.alloc);
    HwSendKeeps(cfg, s1, d, f, ev.alloc);
    DoneKeepsLists(cfg, HwSend(cfg, s1, d, f, ev.alloc), d, |f|, e);
    var s2 := if s1.Get(dest).queue == [] then Acknowledge(s1, dest) else s1;
    AcceptAcknowledge(s, d, ev.skb, dest, d);
    AcceptAcknowledge(s, d, ev.skb, dest, e);
    QueueOnly(s, s2, d, dest, Queued(Last(s.Get(d).pool), d, Rewrite(cfg.variant, f)), e);
  }

  lemma AcceptAcknowledge<B, K>(s: Net<B, K>, d: Side, skb: K, dest: Side, e: Side)
    ensures SameLists(s.Get(e), Accept(s, d, skb).Get(e))
    ensures SameLists(s.Get(e), Acknowledge(Accept(s, d, skb), dest).Get(e))
  {
    if e == d {
      if e == dest {} else {}
    } else {
      if e == dest {} else {}
    }
  }

  lemma QueueOnly<B, K>(s: Net<B, K>, s2: Net<B, K>, d: Side, dest: Side, q: Queued<B>, e: Side)
    requires SameLists(s.Get(e), s2.Get(e)) && s2.Get(d).pool != []
    ensures var t := Enqueue(TakeBuffer(s2, d), dest, q);
      var v, w := s.Get(e), t.With(dest, t.Get(dest).(rxIntEnabled := false, polling := true)).Get(e);
      w.queue == v.queue + (if dest == e then [q] else []) && HearsNothing(v, w)
  {
    if dest == Sn0 {
      if e == Sn0 {} else {}
    } else {
      if e == Sn0 {} else {}
    }
  }

  /** The LDD3 driver in NAPI mode: the frame that waits on the twin's list has the edited
      octets behind an Ethernet header that went through unchanged. */
  lemma Ldd3Queues<B, K>(cfg: Config, s: Net<B, K>, ev: Event<K>) returns (g: Frame)
    requires cfg.variant == Ldd3 && cfg.napi && NetTended(cfg, s)
    requires ev.Tx? && KernelCalls(cfg, s, ev) && Executable(s, ev)
    ensures Toggled(Pad(ev.data), g[14..]) && g[..14] == Pad(ev.data)[..14]
    ensures var t, d, twin := Step(cfg, s, ev), ev.side, ev.side.Twin();
      && t.Get(twin).queue == s.Get(twin).queue + [Queued(Last(s.Get(d).pool), d, g)]
      && t.Get(d).queue == s.Get(d).queue
      && HearsNothing(s.Get(d), t.Get(d)) && HearsNothing(s.Get(twin), t.Get(twin))
  {
    hide Step;
    g := ToggleRewrite(Pad(ev.data));
    ToggledFrame(Pad(ev.data));
    NapiTx(cfg, s, ev, Sn0);
    NapiTx(cfg, s, ev, Sn1);
  }

  /** The entries in order, each without its first 14 octets, but for those for which there was
      no memory; allocations past the end of the list succeed. */
  ghost function Stripped<B>(entries: seq<Queued<B>>, allocs: seq<bool>): seq<seq<byte>> {
    if entries == [] then []
    else (if allocs == [] || allocs[0] then [entries[0].frame[14..]] else [])
         + Stripped(entries[1..], if allocs == [] then [] else allocs[1..])
  }

  lemma {:induction false} HandedStripped<B>(cfg: Config, entries: seq<Queued<B>>, allocs: seq<bool>)
    requires cfg.napi
    ensures Handed(cfg, entries, allocs) == Stripped(entries, allocs)
    decreases |entries|
  {
    if entries != [] {
      HandedStripped(cfg, entries[1..], LaterAllocs(allocs));
    }
  }

  /** What a poll hands to the stack: the frames above what it leaves on the list, newest
      first, from octet 14 on. */
  lemma PollDelivers<B, K>(cfg: Config, s: Net<B, K>, ev: Event<K>)
    requires cfg.napi && ev.PollCall?
    ensures var v, w := s.Get(ev.side), Step(cfg, s, ev).Get(ev.side);
      && w.queue <= v.queue
      && w.delivered == v.delivered + Stripped(Reverse(v.queue[|w.queue|..]), ev.allocs)
    ensures HearsNothing(s.Get(ev.side.Twin()), Step(cfg, s, ev).Get(ev.side.Twin()))
  {
    hide Stripped;
    PollHandsUp(cfg, s, ev.side, ev.quota, ev.allocs);
    PollTwin(cfg, s, ev.side, ev.quota, ev.allocs);
  }

  lemma PollHandsUp<B, K>(cfg: Config, s: Net<B, K>, d: Side, quota: int, allocs: seq<bool>)
    requires cfg.napi
    ensures var v, w := s.Get(d), PollLoop(cfg, s, d, 0, quota, allocs).0.Get(d);
      && w.queue <= v.queue
      && w.delivered == v.delivered + Stripped(Reverse(v.queue[|w.queue|..]), allocs)
  {
    hide PollLoop, Stripped, Handed, Dropped, Home, Reverse;
    var t := PollLoop(cfg, s, d, 0, quota, allocs).0;
    PollLoopSpec(cfg, s, d, 0, quota, allocs, d);
    HandedStripped(cfg, Reverse(s.Get(d).queue[|t.Get(d).queue|..]), allocs);
  }

  lemma PollTwin<B, K>(cfg: Config, s: Net<B, K>, d: Side, quota: int, allocs: seq<bool>)
    ensures HearsNothing(s.Get(d.Twin()), PollLoop(cfg, s, d, 0, quota, allocs).0.Get(d.Twin()))
  {
    hide PollLoop, Taken;
    PollLoopSpec(cfg, s, d, 0, quota, allocs, d.Twin());
  }

  // ------------------------------------------------------------ the newer driver

  /** The frame is an echo request or an echo reply, going by octets 34 and 35. */
  predicate IsPing(f: Frame) {
    (f[34] == 8 || f[34] == 0) && f[35] == 0
  }

  /** What comes back of one: addresses exchanged, a reply whatever it was, the octet at 38 of a
      reply 8 lower (wrapping round), the rest of the frame behind its first 14 octets as it
      was; and exactly when the header verifies. */
  predicate Echoed(f: Frame, p: seq<byte>) {
    var ihl := f[14] % 16;
    && |p| == |f| - 14
    && (forall i | 12 <= i < 16 :: p[i] == f[18 + i])
    && (forall i | 16 <= i < 20 :: p[i] == f[10 + i])
    && p[20] == 0
    && p[24] == (if f[34] == 8 then f[38] else if f[38] >= 8 then f[38] - 8 else 248 + f[38])
    && (forall i | 0 <= i < |p| && !(10 <= i < 21) && i != 24 :: p[i] == f[14 + i])
    && (HeaderVerifies(p) <==> f[34] == 0 || ihl == 5 || (ihl >= 7 && f[38] >= 8))
  }

  /** Anything else arrives as it was sent, with a good header. */
  predicate Untouched(f: Frame, p: seq<byte>) {
    && |p| == |f| - 14 && GoodHeader(p)
    && forall i | 0 <= i < |p| && i !in {10, 11} :: p[i] == f[14 + i]
  }

  lemma EchoedPacket(f: Frame)
    ensures if IsPing(f) then Echoed(f, Looped(f)) else Untouched(f, Looped(f))
  {
    if IsPing(f) {
      EchoedOctets(f);
      EchoedHeader(f);
      hide Looped, HeaderVerifies;
    } else {
      assert Looped(f) == SetCheck(f)[14..];
      RebuiltHeader(f);
      hide Looped, GoodHeader, SetCheck;
    }
  }

  lemma EchoedOctets(f: Frame)
    requires IsPing(f)
    ensures forall i | 12 <= i < 16 :: Looped(f)[i] == f[18 + i]
    ensures forall i | 16 <= i < 20 :: Looped(f)[i] == f[10 + i]
    ensures Looped(f)[20] == 0
    ensures Looped(f)[24] == if f[34] == 8 then f[38] else if f[38] >= 8 then f[38] - 8 else 248 + f[38]
    ensures forall i | 0 <= i < |f| - 14 && !(10 <= i < 21) && i != 24 :: Looped(f)[i] == f[14 + i]
  {
    hide Looped;
    MinusGap(f[38]);
    forall i | 0 <= i < |f| - 14 && i != 10 && i != 11
      ensures (12 <= i < 16 ==> Looped(f)[i] == f[18 + i]) && (16 <= i < 20 ==> Looped(f)[i] == f[10 + i])
      ensures i == 20 ==> Looped(f)[i] == 0
      ensures i == 24 && f[34] == 8 ==> Looped(f)[i] == f[38]
      ensures i == 24 && f[34] == 0 ==> Looped(f)[i] == Minus8(f[38])
      ensures !(10 <= i < 21) && i != 24 ==> Looped(f)[i] == f[14 + i]
    {
      PingOctets(f, i);
    }
  }

  lemma EchoedHeader(f: Frame)
    requires IsPing(f)
    ensures var ihl := f[14] % 16;
            HeaderVerifies(Looped(f)) <==> f[34] == 0 || ihl == 5 || (ihl >= 7 && f[38] >= 8)
  {
    PingHeaderValid(f);
    PingOctets(f, 0);
    HeaderInPacket(f, Looped(f));
    hide Looped, Verifies, Reframe, Header;
  }

  lemma HeaderInPacket(f: Frame, p: seq<byte>)
    requires |p| == |f| - 14 && p[0] == f[14]
    ensures ValidFrame(Reframe(f, p)) && Header(Reframe(f, p)) == p[..4 * (p[0] % 16)]
  {
  }

  /** The newer driver in regular mode: pings, requests and replies alike, come back to the
      device that sent them, and everything else goes to its twin. */
  lemma PingDelivers<B, K>(cfg: Config, s: Net<B, K>, ev: Event<K>) returns (p: seq<byte>)
    requires cfg.variant == Ping && !cfg.napi && NetTended(cfg, s)
    requires ev.Tx? && KernelCalls(cfg, s, ev) && Executable(s, ev)
    ensures if IsPing(Pad(ev.data)) then Echoed(Pad(ev.data), p) else Untouched(Pad(ev.data), p)
    ensures var t, to := Step(cfg, s, ev), if IsPing(Pad(ev.data)) then ev.side else ev.side.Twin();
      && Arrives(s.Get(to), t.Get(to), ev.alloc, p)
      && HearsNothing(s.Get(to.Twin()), t.Get(to.Twin()))
  {
    hide Step, Looped, Echoed, Untouched, Rewrite, Payload, Dest, IsPing;
    var f: Frame := Pad(ev.data);
    p := Looped(f);
    EchoedPacket(f);
    LoopedPayload(cfg, f);
    DestOfPing(ev.side, f);
    RegularTx(cfg, s, ev, Sn0);
    RegularTx(cfg, s, ev, Sn1);
  }

  lemma DestOfPing(d: Side, f: Frame)
    ensures Dest(Ping, d, f) == if IsPing(f) then d else d.Twin()
  {
  }
}
