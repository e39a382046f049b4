/** The two interrupt handlers as implementations of one delivery service: a NAPI run that
    has drained its lists is, seen from outside, the regular run over the same transmissions
    up to the order of delivery; and a burst drained in one go comes out reversed. */
module SnullService {
  import opened Bytes
  import opened Frames
  import opened SnullModel
  import opened SnullLedger
  import opened SnullFlow
  import opened SnullPoll
  import opened SnullAccounts

  // ------------------------------------------------------------ regular mode

  /** Both devices idle with buffers to spare: where regular mode is after every call. */
  ghost predicate Ready<B, K>(cfg: Config, s: Net<B, K>) {
    && NetOk(cfg, s) && Quiet(s)
    && s.sn0.pool != [] && !s.sn0.stopped
    && s.sn1.pool != [] && !s.sn1.stopped
  }

  ghost predicate Transmissions<K>(txs: seq<Event<K>>) {
    forall i | 0 <= i < |txs| :: txs[i].Tx? && txs[i].alloc && ValidFrame(Pad(txs[i].data))
  }

  lemma RegularSendEffect<B, K>(cfg: Config, s: Net<B, K>, d: Side, f: Frame, e: Side)
    requires !cfg.napi && NetOk(cfg, s) && Quiet(s) && s.Get(d).pool != [] && !s.Get(d).stopped
    ensures var v, w := s.Get(e), HwSend(cfg, s, d, f, true).Get(e);
      && w.pool == v.pool && w.stopped == v.stopped && w.lost == v.lost
      && w.delivered == v.delivered + if Dest(cfg.variant, d, f) == e
                                      then [Payload(cfg, Rewrite(cfg.variant, f))] else []
  {
    var dest := Dest(cfg.variant, d, f);
    AcknowledgeIdle(s, dest);
    RegularSend(cfg, s, d, f, true);
    AccountEffect(s, dest, Rewrite(cfg.variant, f), Payload(cfg, Rewrite(cfg.variant, f)), e);
  }

  lemma AccountEffect<B, K>(s: Net<B, K>, dest: Side, f: Frame, payload: seq<byte>, e: Side)
    ensures var v, w := s.Get(e), s.With(dest, Account(s.Get(dest), f, payload, true)).Get(e);
      && w.pool == v.pool && w.stopped == v.stopped && w.lost == v.lost
      && w.delivered == v.delivered + if dest == e then [payload] else []
  {
    if e == dest {} else {}
  }

  lemma RegularDoneEffect<B, K>(cfg: Config, s: Net<B, K>, d: Side, len: nat, e: Side)
    requires cfg.lockup == 0 && !s.Get(d).status.rx
    ensures var v, w := s.Get(e), HwDone(cfg, s, d, len).Get(e);
      && w.pool == v.pool && w.stopped == v.stopped && w.lost == v.lost && w.delivered == v.delivered
      && w.queue == v.queue
  {
    if d == e {} else {}
  }

  /** In regular mode the pools and flags are back after each transmission, and the payload
      has been appended to what its destination was delivered. */
  lemma RegularStep<B, K>(cfg: Config, s: Net<B, K>, ev: Event<K>, e: Side)
    requires !cfg.napi && cfg.lockup == 0 && Ready(cfg, s)
    requires ev.Tx? && ev.alloc && ValidFrame(Pad(ev.data))
    ensures Legal(cfg, s, ev)
    ensures var v, w := s.Get(e), Step(cfg, s, ev).Get(e);
      && w.delivered == v.delivered + SentBy(cfg, ev, e) && w.lost == v.lost
      && w.pool == v.pool && w.stopped == v.stopped
  {
    var d, f, s1 := ev.side, Pad(ev.data), Accept(s, ev.side, ev.skb);
    assert NetOk(cfg, s1) && Quiet(s1) by {
      if d == Sn0 {} else {}
    }
    RegularSendEffect(cfg, s1, d, f, e);
    HwSendTx(cfg, s1, d, f, true, d);
    RegularDoneEffect(cfg, HwSend(cfg, s1, d, f, true), d, |f|, e);
    if d == e {} else {}
  }

  lemma RegularStaysReady<B, K>(cfg: Config, s: Net<B, K>, ev: Event<K>)
    requires !cfg.napi && cfg.lockup == 0 && Ready(cfg, s)
    requires ev.Tx? && ev.alloc && ValidFrame(Pad(ev.data))
    ensures Legal(cfg, s, ev) && Ready(cfg, Step(cfg, s, ev))
  {
    RegularStep(cfg, s, ev, Sn0);
    RegularStep(cfg, s, ev, Sn1);
    StepKeeps(cfg, s, ev);
    StepQuiet(cfg, s, ev);
  }

  /** Regular mode accepts any sequence of transmissions and delivers it in order. */
  lemma {:induction false} RegularDelivers<B, K>(cfg: Config, s: Net<B, K>, txs: seq<Event<K>>, e: Side)
    requires !cfg.napi && cfg.lockup == 0 && Ready(cfg, s) && Transmissions(txs)
    ensures LegalRun(cfg, s, txs)
    ensures var v, w := s.Get(e), Run(cfg, s, txs).Get(e);
      w.delivered == v.delivered + SentTo(cfg, txs, e) && w.lost == v.lost && w.queue == []
    decreases |txs|
  {
    if txs != [] {
      RegularStep(cfg, s, txs[0], e);
      RegularStaysReady(cfg, s, txs[0]);
      var t := Step(cfg, s, txs[0]);
      RegularDelivers(cfg, t, txs[1..], e);
      ConcatAssoc(s.Get(e).delivered, SentBy(cfg, txs[0], e), SentTo(cfg, txs[1..], e));
    }
  }

  /** Ping through the driver: an echo request handed to an idle device of the newer driver
      is delivered to that device as its reply, and the twin hears nothing. What the reply
      looks like, octet by octet, PingOctets, PingEndToEnd and PingHeaderValid say. */
  lemma EchoComesBack<B, K>(cfg: Config, s: Net<B, K>, ev: Event<K>)
    requires cfg.variant == Ping && !cfg.napi && cfg.lockup == 0 && Ready(cfg, s)
    requires ev.Tx? && ev.alloc && ValidFrame(Pad(ev.data)) && Classify(Pad(ev.data)).Request?
    ensures Legal(cfg, s, ev)
    ensures var d, t := ev.side, Step(cfg, s, ev);
      && t.Get(d).delivered == s.Get(d).delivered + [Looped(Pad(ev.data))]
      && t.Get(d.Twin()).delivered == s.Get(d.Twin()).delivered
      && t.Get(d).pool == s.Get(d).pool
  {
    hide Step, Ready, Looped, ToggleRewrite;
    RegularStep(cfg, s, ev, ev.side);
    RegularStep(cfg, s, ev, ev.side.Twin());
    assert Payload(cfg, Rewrite(Ping, Pad(ev.data))) == Looped(Pad(ev.data)) by {
      LoopedPayload(cfg, Pad(ev.data));
    }
  }

  lemma LoopedPayload(cfg: Config, f: Frame)
    requires cfg.variant == Ping && !cfg.napi
    ensures Payload(cfg, Rewrite(Ping, f)) == Looped(f)
  {
  }

  // ------------------------------------------------------------ NAPI mode

  ghost predicate NoFailures<K>(es: seq<Event<K>>) {
    forall i | 0 <= i < |es| ::
      if es[i].Tx? then es[i].alloc else es[i].PollCall? && false !in es[i].allocs
  }

  lemma {:induction false} NoneDropped<B>(taken: seq<Queued<B>>, allocs: seq<bool>)
    requires false !in allocs
    ensures Dropped(taken, allocs) == []
  {
    if taken != [] {
      assert allocs != [] ==> allocs[0] in allocs;
      NoneDropped(taken[1..], LaterAllocs(allocs));
    }
  }

  lemma NapiStepLosesNothing<B, K>(cfg: Config, s: Net<B, K>, ev: Event<K>, e: Side)
    requires cfg.napi && cfg.lockup == 0 && NetOk(cfg, s) && Quiet(s) && Legal(cfg, s, ev) && NoFailures([ev])
    ensures Step(cfg, s, ev).Get(e).lost == s.Get(e).lost
  {
    assert [ev][0] == ev;
    match ev
    case Tx(d, skb, data, alloc) =>
      NapiTransmit(cfg, s, d, skb, data, alloc, e);
    case PollCall(d, quota, allocs) =>
      PollLoopSpec(cfg, s, d, 0, quota, allocs, e);
      NoneDropped(Taken(s.Get(d).queue, |PollLoop(cfg, s, d, 0, quota, allocs).0.Get(d).queue|), allocs);
  }

  /** In NAPI mode a transmission only queues. */
  lemma NapiTransmit<B, K>(cfg: Config, s: Net<B, K>, d: Side, skb: K, data: seq<byte>, alloc: bool, e: Side)
    requires cfg.napi && cfg.lockup == 0 && NetOk(cfg, s) && Quiet(s)
    requires s.Get(d).pool != [] && !s.Get(d).stopped && ValidFrame(Pad(data))
    ensures var v, w := s.Get(e), Transmit(cfg, s, d, skb, data, alloc).Get(e);
      && w.lost == v.lost && w.delivered == v.delivered
      && w.queue == v.queue + (if Dest(cfg.variant, d, Pad(data)) == e
                               then [Queued(Last(s.Get(d).pool), d, Rewrite(cfg.variant, Pad(data)))] else [])
  {
    var f := Pad(data);
    var s1 := Accept(s, d, skb);
    assert NetOk(cfg, s1) && Quiet(s1) by {
      if d == Sn0 {} else {}
    }
    var dest := Dest(cfg.variant, d, f);
    AcknowledgeIdle(s1, dest);
    NapiSend(cfg, s1, d, f, alloc);
    HwSendTx(cfg, s1, d, f, alloc, d);
    var t := HwSend(cfg, s1, d, f, alloc);
    assert t.Get(e).lost == s.Get(e).lost && t.Get(e).delivered == s.Get(e).delivered by {
      if e == dest {} else {}
    }
    var q := Queued(Last(s.Get(d).pool), d, Rewrite(cfg.variant, f));
    assert t.Get(e).queue == s.Get(e).queue + if dest == e then [q] else [] by {
      if e == dest {} else {}
    }
    HwDoneTx(cfg, t, d, |f|, e);
    DoneKeepsLists(cfg, t, d, |f|, e);
  }

  lemma DoneKeepsLists<B, K>(cfg: Config, s: Net<B, K>, d: Side, len: nat, e: Side)
    requires !s.Get(d).status.rx
    ensures var v, w := s.Get(e), HwDone(cfg, s, d, len).Get(e);
      w.lost == v.lost && w.delivered == v.delivered && w.queue == v.queue && w.pool == v.pool
  {
    if d == e {} else {}
  }

  lemma {:induction false} NapiLosesNothing<B, K>(cfg: Config, s: Net<B, K>, es: seq<Event<K>>, e: Side)
    requires cfg.napi && cfg.lockup == 0 && NetOk(cfg, s) && Quiet(s) && LegalRun(cfg, s, es) && NoFailures(es)
    ensures Run(cfg, s, es).Get(e).lost == s.Get(e).lost
    decreases |es|
  {
    if es != [] {
      assert NoFailures([es[0]]);
      NapiStepLosesNothing(cfg, s, es[0], e);
      StepKeeps(cfg, s, es[0]);
      StepQuiet(cfg, s, es[0]);
      NapiLosesNothing(cfg, Step(cfg, s, es[0]), es[1..], e);
    }
  }

  // ------------------------------------------------------------ refinement

  /** The transmissions of a run. */
  ghost function TxOnly<K>(es: seq<Event<K>>): seq<Event<K>> {
    if es == [] then [] else (if es[0].Tx? then [es[0]] else []) + TxOnly(es[1..])
  }

  /** The same driver in the other mode. */
  ghost function Regular(cfg: Config): Config {
    cfg.(napi := false)
  }

  lemma {:induction false} ReplayIsTransmissions<B, K>(cfg: Config, s: Net<B, K>, es: seq<Event<K>>)
    requires LegalRun(cfg, s, es) && NoFailures(es)
    ensures Transmissions(TxOnly(es))
    decreases |es|
  {
    hide Step;
    if es != [] {
      ReplayIsTransmissions(cfg, Step(cfg, s, es[0]), es[1..]);
    }
  }

  lemma TxOnlyCons<K>(es: seq<Event<K>>)
    requires es != []
    ensures es[0].Tx? ==> TxOnly(es) != [] && TxOnly(es)[0] == es[0] && TxOnly(es)[1..] == TxOnly(es[1..])
    ensures !es[0].Tx? ==> TxOnly(es) == TxOnly(es[1..])
  {
  }

  lemma {:induction false} ReplaySent<K>(cfg: Config, es: seq<Event<K>>, e: Side)
    requires cfg.variant == Ldd3
    ensures SentTo(Regular(cfg), TxOnly(es), e) == SentTo(cfg, es, e)
    decreases |es|
  {
    if es != [] {
      TxOnlyCons(es);
      ReplaySent(cfg, es[1..], e);
      assert SentBy(Regular(cfg), es[0], e) == SentBy(cfg, es[0], e);
    }
  }

  lemma {:induction false} ReplaySkbs<K>(es: seq<Event<K>>, e: Side)
    ensures SkbsOn(TxOnly(es), e) == SkbsOn(es, e) && PaddedOn(TxOnly(es), e) == PaddedOn(es, e)
    decreases |es|
  {
    if es != [] {
      TxOnlyCons(es);
      ReplaySkbs(es[1..], e);
    }
  }

  /** All counters of a device that has nothing on its list and has dropped nothing. */
  lemma DrainedCounters<B, K>(cfg: Config, pool0: seq<B>, pool1: seq<B>, es: seq<Event<K>>, e: Side)
    requires cfg.lockup == 0 && pool0 != [] && pool1 != [] && Undisturbed(es)
    requires LegalRun(cfg, Opened(pool0, pool1), es)
    requires var v := Run(cfg, Opened(pool0, pool1), es).Get(e); v.queue == [] && v.lost == []
    ensures var v, sent := Run(cfg, Opened(pool0, pool1), es).Get(e), SentTo(cfg, es, e);
      && v.stats == Stats(|sent|, WireBytes(sent), 0, |SkbsOn(es, e)|, PaddedOn(es, e), 0)
      && v.freed == SkbsOn(es, e)
  {
    hide Run, CallRun, RestartsSupplied, SentTo, SkbsOn, PaddedOn;
    var s := Opened<B, K>(pool0, pool1);
    RunKeeps(cfg, s, es);
    TrafficConserved(cfg, s, es, e);
    RunTx(cfg, s, es, e);
  }

  /** NAPI refines regular mode: when a NAPI run without lockups and failures has drained
      both lists, replaying its transmissions in regular mode is legal and delivers to each
      device the same multiset of packets, with the same counters and the same skbs freed. */
  lemma NapiRefinesRegular<B, K>(cfg: Config, pool0: seq<B>, pool1: seq<B>, es: seq<Event<K>>, e: Side)
    requires cfg.variant == Ldd3 && cfg.napi && cfg.lockup == 0 && pool0 != [] && pool1 != []
    requires LegalRun(cfg, Opened(pool0, pool1), es) && NoFailures(es)
    requires Run(cfg, Opened(pool0, pool1), es).Get(e).queue == []
    ensures LegalRun(Regular(cfg), Opened(pool0, pool1), TxOnly(es))
    ensures var n := Run(cfg, Opened(pool0, pool1), es).Get(e);
      var r := Run(Regular(cfg), Opened(pool0, pool1), TxOnly(es)).Get(e);
      && multiset(n.delivered) == multiset(r.delivered)
      && r.delivered == SentTo(cfg, es, e)
      && n.stats == r.stats
      && n.freed == r.freed
  {
    hide Run, CallRun, RestartsSupplied, SentTo, SkbsOn, PaddedOn, TxOnly;
    var s, reg, txs := Opened<B, K>(pool0, pool1), Regular(cfg), TxOnly(es);
    ReplayIsTransmissions(cfg, s, es);
    RegularDelivers(reg, s, txs, e);
    NapiDelivers(cfg, pool0, pool1, es, e);
    ReplaySent(cfg, es, e);
    ReplaySkbs(es, e);
    DrainedCounters(cfg, pool0, pool1, es, e);
    DrainedCounters(reg, pool0, pool1, txs, e);
    assert [] + SentTo(reg, txs, e) == SentTo(cfg, es, e);
  }

  /** A drained NAPI device has been delivered what it was sent, in some order. */
  lemma NapiDelivers<B, K>(cfg: Config, pool0: seq<B>, pool1: seq<B>, es: seq<Event<K>>, e: Side)
    requires cfg.napi && cfg.lockup == 0 && pool0 != [] && pool1 != []
    requires LegalRun(cfg, Opened(pool0, pool1), es) && NoFailures(es)
    requires Run(cfg, Opened(pool0, pool1), es).Get(e).queue == []
    ensures var n := Run(cfg, Opened(pool0, pool1), es).Get(e);
      multiset(n.delivered) == multiset(SentTo(cfg, es, e)) && n.lost == []
  {
    var s := Opened<B, K>(pool0, pool1);
    NapiLosesNothing(cfg, s, es, e);
    var n := Run(cfg, s, es).Get(e);
    forall p: seq<byte>
      ensures multiset(n.delivered)[p] == multiset(SentTo(cfg, es, e))[p]
    {
      FramesConserved(cfg, s, es, e, p);
    }
    SameMultiset(multiset(n.delivered), multiset(SentTo(cfg, es, e)));
  }

  // ------------------------------------------------------------ order of a burst

  ghost function QueuedPayloads<B>(cfg: Config, queue: seq<Queued<B>>): (ps: seq<seq<byte>>)
    ensures |ps| == |queue|
  {
    seq(|queue|, i requires 0 <= i < |queue| => Payload(cfg, queue[i].frame))
  }

  /** Transmissions by either device, to wherever they go. */
  ghost predicate Burst<K>(es: seq<Event<K>>) {
    forall i | 0 <= i < |es| :: es[i].Tx? && ValidFrame(Pad(es[i].data))
  }

  ghost predicate Polls<K>(es: seq<Event<K>>) {
    forall i | 0 <= i < |es| :: es[i].PollCall? && false !in es[i].allocs
  }

  lemma BurstStep<B, K>(cfg: Config, s: Net<B, K>, ev: Event<K>, d: Side)
    requires cfg.napi && cfg.lockup == 0 && NetOk(cfg, s) && Quiet(s) && Legal(cfg, s, ev) && Burst([ev])
    ensures var v, w := s.Get(d), Step(cfg, s, ev).Get(d);
      && w.delivered == v.delivered
      && QueuedPayloads(cfg, w.queue) == QueuedPayloads(cfg, v.queue) + SentBy(cfg, ev, d)
    ensures NetOk(cfg, Step(cfg, s, ev)) && Quiet(Step(cfg, s, ev))
  {
    hide Transmit, NetSafe, NetTended, Quiet, Rewrite, Payload;
    assert [ev][0] == ev;
    NapiTransmit(cfg, s, ev.side, ev.skb, ev.data, ev.alloc, d);
    StepKeeps(cfg, s, ev);
    StepQuiet(cfg, s, ev);
  }

  /** What a burst sends to d piles up on d's list in order of transmission, and nothing is
      delivered. */
  lemma {:induction false} BurstQueues<B, K>(cfg: Config, s: Net<B, K>, es: seq<Event<K>>, d: Side)
    requires cfg.napi && cfg.lockup == 0 && NetOk(cfg, s) && Quiet(s) && LegalRun(cfg, s, es) && Burst(es)
    ensures var v, w := s.Get(d), Run(cfg, s, es).Get(d);
      && w.delivered == v.delivered
      && QueuedPayloads(cfg, w.queue) == QueuedPayloads(cfg, v.queue) + SentTo(cfg, es, d)
    decreases |es|
  {
    hide Step;
    if es != [] {
      BurstStep(cfg, s, es[0], d);
      BurstQueues(cfg, Step(cfg, s, es[0]), es[1..], d);
      ConcatAssoc(QueuedPayloads(cfg, s.Get(d).queue), SentBy(cfg, es[0], d), SentTo(cfg, es[1..], d));
    }
  }

  /** What successful receptions hand up, entry by entry. */
  lemma {:induction false} AllHanded<B>(cfg: Config, taken: seq<Queued<B>>, allocs: seq<bool>)
    requires false !in allocs
    ensures Handed(cfg, taken, allocs) == QueuedPayloads(cfg, taken)
  {
    if taken != [] {
      assert allocs != [] ==> allocs[0] in allocs;
      AllHanded(cfg, taken[1..], LaterAllocs(allocs));
      assert QueuedPayloads(cfg, taken) == [Payload(cfg, taken[0].frame)] + QueuedPayloads(cfg, taken[1..]);
    }
  }

  lemma {:induction false} ReversePayloads<B>(cfg: Config, queue: seq<Queued<B>>)
    ensures QueuedPayloads(cfg, Reverse(queue)) == Reverse(QueuedPayloads(cfg, queue))
  {
    if queue != [] {
      ReversePayloads(cfg, Init(queue));
      assert Init(QueuedPayloads(cfg, queue)) == QueuedPayloads(cfg, Init(queue));
      assert QueuedPayloads(cfg, [Last(queue)] + Reverse(Init(queue)))
          == [Payload(cfg, Last(queue).frame)] + QueuedPayloads(cfg, Reverse(Init(queue)));
    }
  }

  lemma {:induction false} ReverseConcat<T>(a: seq<T>, b: seq<T>)
    ensures Reverse(a + b) == Reverse(b) + Reverse(a)
  {
    if b == [] {
      assert a + b == a;
    } else {
      ReverseConcat(a, Init(b));
      assert Init(a + b) == a + Init(b) && Last(a + b) == Last(b);
      ConcatAssoc([Last(b)], Reverse(Init(b)), Reverse(a));
    }
  }

  /** One poll of either device hands up the newest part of d's list, newest first. */
  lemma PollReverses<B, K>(cfg: Config, s: Net<B, K>, ev: Event<K>, d: Side)
    requires cfg.napi && ev.PollCall? && false !in ev.allocs
    ensures var v, w := s.Get(d), Poll(cfg, s, ev.side, ev.quota, ev.allocs).Get(d);
      && |w.queue| <= |v.queue| && w.queue == v.queue[..|w.queue|]
      && w.delivered == v.delivered + Reverse(QueuedPayloads(cfg, v.queue[|w.queue|..]))
  {
    var t := PollLoop(cfg, s, ev.side, 0, ev.quota, ev.allocs).0;
    PollLoopSpec(cfg, s, ev.side, 0, ev.quota, ev.allocs, d);
    var queue, m := s.Get(d).queue, |t.Get(d).queue|;
    if d == ev.side {
      AllHanded(cfg, Taken(queue, m), ev.allocs);
      ReversePayloads(cfg, queue[m..]);
    } else {
      assert Handed<B>(cfg, [], []) == [] && queue[m..] == [];
    }
  }

  /** So do any number of polls. */
  lemma {:induction false} PollsReverse<B, K>(cfg: Config, s: Net<B, K>, es: seq<Event<K>>, d: Side)
    requires cfg.napi && LegalRun(cfg, s, es) && Polls(es)
    ensures var v, w := s.Get(d), Run(cfg, s, es).Get(d);
      && |w.queue| <= |v.queue| && w.queue == v.queue[..|w.queue|]
      && w.delivered == v.delivered + Reverse(QueuedPayloads(cfg, v.queue[|w.queue|..]))
    decreases |es|
  {
    if es == [] {
      assert s.Get(d).queue[|s.Get(d).queue|..] == [];
    } else {
      var t := Step(cfg, s, es[0]);
      PollReverses(cfg, s, es[0], d);
      PollsReverse(cfg, t, es[1..], d);
      var v, u, w := s.Get(d), t.Get(d), Run(cfg, t, es[1..]).Get(d);
      SplitReversed(cfg, v.queue, |w.queue|, |u.queue|);
      ConcatAssoc(v.delivered, Reverse(QueuedPayloads(cfg, v.queue[|u.queue|..])),
                  Reverse(QueuedPayloads(cfg, u.queue[|w.queue|..])));
    }
  }

  lemma SplitReversed<B>(cfg: Config, queue: seq<Queued<B>>, k: nat, m: nat)
    requires k <= m <= |queue|
    ensures queue[..m][..k] == queue[..k]
    ensures Reverse(QueuedPayloads(cfg, queue[k..]))
         == Reverse(QueuedPayloads(cfg, queue[m..])) + Reverse(QueuedPayloads(cfg, queue[..m][k..]))
  {
    assert QueuedPayloads(cfg, queue[k..]) == QueuedPayloads(cfg, queue[..m][k..]) + QueuedPayloads(cfg, queue[m..]);
    ReverseConcat(QueuedPayloads(cfg, queue[..m][k..]), QueuedPayloads(cfg, queue[m..]));
  }

  /** The misordering noted at snull_enqueue_buf, exactly: of a burst by either device, the part
      that goes to d, onto an empty list, then drained by polls without failures, is delivered
      in reverse. */
  lemma BurstReversed<B, K>(cfg: Config, s: Net<B, K>, burst: seq<Event<K>>, polls: seq<Event<K>>, d: Side)
    requires cfg.napi && cfg.lockup == 0 && NetOk(cfg, s) && Quiet(s) && s.Get(d).queue == []
    requires LegalRun(cfg, s, burst) && Burst(burst)
    requires LegalRun(cfg, Run(cfg, s, burst), polls) && Polls(polls)
    requires Run(cfg, Run(cfg, s, burst), polls).Get(d).queue == []
    ensures Run(cfg, Run(cfg, s, burst), polls).Get(d).delivered
         == s.Get(d).delivered + Reverse(SentTo(cfg, burst, d))
  {
    hide Run, CallRun, RestartsSupplied, SentTo;
    var t := Run(cfg, s, burst);
    BurstQueues(cfg, s, burst, d);
    PollsReverse(cfg, t, polls, d);
    assert t.Get(d).queue[0..] == t.Get(d).queue;
    assert [] + SentTo(cfg, burst, d) == SentTo(cfg, burst, d);
  }
}
