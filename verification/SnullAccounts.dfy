/** Transmit statistics, and what they must agree with on the receiving side. */
module SnullAccounts {
  import opened Bytes
  import opened Frames
  import opened SnullModel
  import opened SnullLedger
  import opened SnullFlow

  /** The skbs given to d in a run, in order. */
  ghost function SkbsOn<K>(es: seq<Event<K>>, d: Side): seq<K> {
    if es == [] then []
    else (if es[0].Tx? && es[0].side == d then [es[0].skb] else []) + SkbsOn(es[1..], d)
  }

  /** Their lengths after padding, added up. */
  ghost function PaddedOn<K>(es: seq<Event<K>>, d: Side): nat {
    if es == [] then 0
    else (if es[0].Tx? && es[0].side == d then |Pad(es[0].data)| else 0) + PaddedOn(es[1..], d)
  }

  /** No transmit interrupt is outstanding. */
  ghost predicate Quiet<B, K>(s: Net<B, K>) {
    s.sn0.status == IDLE && s.sn1.status == IDLE
  }

  /** The transmit side of a device. */
  ghost predicate SameTx<B, K>(v: Dev<B, K>, w: Dev<B, K>) {
    && w.status == v.status && w.skb == v.skb && w.freed == v.freed
    && w.stats.txPackets == v.stats.txPackets && w.stats.txBytes == v.stats.txBytes
    && w.stats.txErrors == v.stats.txErrors
  }

  ghost predicate TxAdvanced<B, K>(v: Dev<B, K>, w: Dev<B, K>, skbs: seq<K>, bytes: nat) {
    && w.status == IDLE
    && w.freed == v.freed + skbs
    && w.stats.txPackets == v.stats.txPackets + |skbs|
    && w.stats.txBytes == v.stats.txBytes + bytes
    && w.stats.txErrors == v.stats.txErrors
  }

  lemma HwSendTx<B, K>(cfg: Config, s: Net<B, K>, d: Side, f: Frame, alloc: bool, e: Side)
    requires NetOk(cfg, s) && Quiet(s) && s.Get(d).pool != [] && !s.Get(d).stopped
    ensures SameTx(s.Get(e), HwSend(cfg, s, d, f, alloc).Get(e))
  {
    var dest := Dest(cfg.variant, d, f);
    AcknowledgeIdle(s, dest);
    if cfg.napi {
      NapiSend(cfg, s, d, f, alloc);
    } else {
      RegularSend(cfg, s, d, f, alloc);
    }
    if e == dest {} else {}
  }

  /** Without a lockup, the transmit interrupt completes the skb that was just handed in. */
  lemma HwDoneTx<B, K>(cfg: Config, s: Net<B, K>, d: Side, len: nat, e: Side)
    requires cfg.lockup == 0 && Quiet(s)
    ensures var v, t := s.Get(e), HwDone(cfg, s, d, len);
      if e == d then v.skb.Some? ==> TxAdvanced(v, t.Get(e), [v.skb.value], len) else t.Get(e) == v
  {
    if d == Sn0 {} else {}
  }

  lemma TransmitTx<B, K>(cfg: Config, s: Net<B, K>, d: Side, skb: K, data: seq<byte>, alloc: bool, e: Side)
    requires cfg.lockup == 0 && NetOk(cfg, s) && Quiet(s)
    requires s.Get(d).pool != [] && !s.Get(d).stopped && ValidFrame(Pad(data))
    ensures TxAdvanced(s.Get(e), Transmit(cfg, s, d, skb, data, alloc).Get(e),
                       if e == d then [skb] else [], if e == d then |Pad(data)| else 0)
  {
    hide HwSend, HwDone;
    var s1 := Accept(s, d, skb);
    assert NetOk(cfg, s1) && Quiet(s1) by {
      if d == Sn0 {} else {}
    }
    var t := HwSend(cfg, s1, d, Pad(data), alloc);
    HwSendTx(cfg, s1, d, Pad(data), alloc, e);
    HwSendTx(cfg, s1, d, Pad(data), alloc, Sn0);
    HwSendTx(cfg, s1, d, Pad(data), alloc, Sn1);
    HwDoneTx(cfg, t, d, |Pad(data)|, e);
    if e == d {} else {}
  }

  lemma PollTx<B, K>(cfg: Config, s: Net<B, K>, d: Side, quota: int, allocs: seq<bool>, e: Side)
    requires Quiet(s)
    ensures TxAdvanced(s.Get(e), Poll(cfg, s, d, quota, allocs).Get(e), [], 0)
  {
    PollLoopKeeps(cfg, s, d, 0, quota, allocs, e);
    if e == d {} else {}
  }

  lemma StepTx<B, K>(cfg: Config, s: Net<B, K>, ev: Event<K>, e: Side)
    requires cfg.lockup == 0 && (ev.Tx? || ev.PollCall?) && Legal(cfg, s, ev) && NetOk(cfg, s) && Quiet(s)
    ensures TxAdvanced(s.Get(e), Step(cfg, s, ev).Get(e),
                       if ev.Tx? && ev.side == e then [ev.skb] else [],
                       if ev.Tx? && ev.side == e then |Pad(ev.data)| else 0)
  {
    if ev.Tx? {
      TransmitTx(cfg, s, ev.side, ev.skb, ev.data, ev.alloc, e);
    } else {
      PollTx(cfg, s, ev.side, ev.quota, ev.allocs, e);
    }
  }

  lemma StepQuiet<B, K>(cfg: Config, s: Net<B, K>, ev: Event<K>)
    requires cfg.lockup == 0 && (ev.Tx? || ev.PollCall?) && Legal(cfg, s, ev) && NetOk(cfg, s) && Quiet(s)
    ensures Quiet(Step(cfg, s, ev))
  {
    StepTx(cfg, s, ev, Sn0);
    StepTx(cfg, s, ev, Sn1);
  }

  lemma TxChain<B, K>(u: Dev<B, K>, v: Dev<B, K>, w: Dev<B, K>, a: seq<K>, m: nat, b: seq<K>, n: nat)
    requires TxAdvanced(u, v, a, m) && TxAdvanced(v, w, b, n)
    ensures TxAdvanced(u, w, a + b, m + n)
  {
    assert (u.freed + a) + b == u.freed + (a + b);
  }

  /** Transmit accounting: without lockups and timeouts every skb handed in is freed exactly
      once, in order, and the counters are its number and its padded length. */
  lemma {:induction false} RunTx<B, K>(cfg: Config, s: Net<B, K>, es: seq<Event<K>>, e: Side)
    requires cfg.lockup == 0 && Undisturbed(es) && LegalRun(cfg, s, es) && NetOk(cfg, s) && Quiet(s)
    ensures TxAdvanced(s.Get(e), Run(cfg, s, es).Get(e), SkbsOn(es, e), PaddedOn(es, e))
    decreases |es|
  {
    hide Step;
    if es != [] {
      var ev, t := es[0], Step(cfg, s, es[0]);
      StepTx(cfg, s, ev, e);
      StepQuiet(cfg, s, ev);
      StepKeeps(cfg, s, ev);
      RunTx(cfg, t, es[1..], e);
      TxChain(s.Get(e), t.Get(e), Run(cfg, t, es[1..]).Get(e),
              if ev.Tx? && ev.side == e then [ev.skb] else [],
              if ev.Tx? && ev.side == e then |Pad(ev.data)| else 0, SkbsOn(es[1..], e), PaddedOn(es[1..], e));
    }
  }

  // ------------------------------------------------------------ both ends

  lemma SentByCounts<K>(cfg: Config, ev: Event<K>, d: Side)
    requires ev.Tx? ==> ValidFrame(Pad(ev.data))
    ensures var here := ev.Tx? && Dest(cfg.variant, ev.side, Pad(ev.data)) == d;
      && |SentBy(cfg, ev, d)| == (if here then 1 else 0)
      && WireBytes(SentBy(cfg, ev, d)) == (if here then |Pad(ev.data)| else 0)
  {
    if ev.Tx? {
      var p := Payload(cfg, Rewrite(cfg.variant, Pad(ev.data)));
      WireBytesPush([], p);
      assert [] + [p] == [p];
    }
  }

  lemma SentToCons<K>(cfg: Config, es: seq<Event<K>>, d: Side)
    requires es != [] && (es[0].Tx? ==> ValidFrame(Pad(es[0].data)))
    ensures var ev := es[0];
      var here := ev.Tx? && Dest(cfg.variant, ev.side, Pad(ev.data)) == d;
      && |SentTo(cfg, es, d)| == (if here then 1 else 0) + |SentTo(cfg, es[1..], d)|
      && WireBytes(SentTo(cfg, es, d)) == (if here then |Pad(ev.data)| else 0) + WireBytes(SentTo(cfg, es[1..], d))
  {
    SentByCounts(cfg, es[0], d);
    WireBytesConcat(SentBy(cfg, es[0], d), SentTo(cfg, es[1..], d));
  }

  /** In the twin arrangement what d sends is what its twin is sent. */
  lemma {:induction false} TwinTraffic<B, K>(cfg: Config, s: Net<B, K>, es: seq<Event<K>>, d: Side)
    requires cfg.variant == Ldd3 && LegalRun(cfg, s, es)
    ensures |SentTo(cfg, es, d.Twin())| == |SkbsOn(es, d)|
    ensures WireBytes(SentTo(cfg, es, d.Twin())) == PaddedOn(es, d)
    decreases |es|
  {
    if es != [] {
      SentToCons(cfg, es, d.Twin());
      TwinTraffic(cfg, Step(cfg, s, es[0]), es[1..], d);
    }
  }

  /** With loopback too, all that is sent is sent somewhere. */
  lemma {:induction false} TotalTraffic<B, K>(cfg: Config, s: Net<B, K>, es: seq<Event<K>>)
    requires LegalRun(cfg, s, es)
    ensures |SentTo(cfg, es, Sn0)| + |SentTo(cfg, es, Sn1)| == |SkbsOn(es, Sn0)| + |SkbsOn(es, Sn1)|
    ensures WireBytes(SentTo(cfg, es, Sn0)) + WireBytes(SentTo(cfg, es, Sn1)) == PaddedOn(es, Sn0) + PaddedOn(es, Sn1)
    decreases |es|
  {
    if es != [] {
      SentToCons(cfg, es, Sn0);
      SentToCons(cfg, es, Sn1);
      TotalTraffic(cfg, Step(cfg, s, es[0]), es[1..]);
    }
  }

  /** Cross-device accounting of the LDD3 driver, in both modes and with allocation failures:
      what one side counts as transmitted the other counts as received or dropped, or still
      has on its list, in packets and in bytes. */
  lemma CrossDeviceAccounts<B, K>(cfg: Config, pool0: seq<B>, pool1: seq<B>, es: seq<Event<K>>, d: Side)
    requires cfg.variant == Ldd3 && cfg.lockup == 0 && Undisturbed(es) && pool0 != [] && pool1 != []
    requires LegalRun(cfg, Opened(pool0, pool1), es)
    ensures var s := Run(cfg, Opened(pool0, pool1), es);
      var tx, rx := s.Get(d), s.Get(d.Twin());
      && tx.stats.txPackets == rx.stats.rxPackets + rx.stats.rxDropped + |rx.queue|
      && tx.stats.txBytes == rx.stats.rxBytes + FrameBytes(rx.lost) + FrameBytes(FramesOf(rx.queue))
      && tx.freed == SkbsOn(es, d)
  {
    hide Run, CallRun, RestartsSupplied, SentTo, SkbsOn, PaddedOn;
    var s := Opened(pool0, pool1);
    RunTx(cfg, s, es, d);
    TrafficConserved(cfg, s, es, d.Twin());
    TwinTraffic(cfg, s, es, d);
  }

  /** The same for both drivers, taking the two devices together. */
  lemma TotalAccounts<B, K>(cfg: Config, pool0: seq<B>, pool1: seq<B>, es: seq<Event<K>>)
    requires cfg.lockup == 0 && Undisturbed(es) && pool0 != [] && pool1 != []
    requires LegalRun(cfg, Opened(pool0, pool1), es)
    ensures var s := Run(cfg, Opened(pool0, pool1), es);
      && s.sn0.stats.txPackets + s.sn1.stats.txPackets == PacketsIn(s.sn0) + PacketsIn(s.sn1)
      && s.sn0.stats.txBytes + s.sn1.stats.txBytes == BytesIn(s.sn0) + BytesIn(s.sn1)
  {
    hide Run, CallRun, RestartsSupplied, SentTo, SkbsOn, PaddedOn;
    var s := Opened(pool0, pool1);
    RunTx(cfg, s, es, Sn0);
    RunTx(cfg, s, es, Sn1);
    TrafficConserved(cfg, s, es, Sn0);
    TrafficConserved(cfg, s, es, Sn1);
    TotalTraffic(cfg, s, es);
  }
}
