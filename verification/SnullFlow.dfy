/** Control in the snull model at every step boundary: transmit queues against pools,
    receive interrupts against receive lists, and the receive statistics. */
module SnullFlow {
  import opened Bytes
  import opened Frames
  import opened SnullModel
  import opened SnullLedger

  /** A running queue has a buffer to transmit from. */
  ghost predicate Safe<B, K>(v: Dev<B, K>) {
    v.pool == [] ==> v.stopped
  }

  /** The queue is stopped exactly when the pool is empty. */
  ghost predicate Exact<B, K>(v: Dev<B, K>) {
    v.stopped <==> v.pool == []
  }

  /** The receive statistics say what was delivered and what was dropped. */
  ghost predicate Counted<B, K>(v: Dev<B, K>) {
    && v.stats.rxPackets == |v.delivered|
    && v.stats.rxDropped == |v.lost|
    && v.stats.rxBytes == WireBytes(v.delivered)
  }

  /** No packet is stranded: receive interrupts are off exactly while the list is non-empty,
      and exactly then a poll is scheduled. In regular mode the list is always empty. */
  ghost predicate Attended<B, K>(cfg: Config, v: Dev<B, K>) {
    && (v.rxIntEnabled <==> v.queue == [])
    && (v.polling <==> v.queue != [])
    && !v.status.rx
    && (!cfg.napi ==> v.queue == [])
  }

  ghost predicate NetSafe<B, K>(s: Net<B, K>) {
    Safe(s.sn0) && Safe(s.sn1)
  }

  /** The half of control that no restart can break. */
  ghost predicate NetTended<B, K>(cfg: Config, s: Net<B, K>) {
    && Counted(s.sn0) && Attended(cfg, s.sn0)
    && Counted(s.sn1) && Attended(cfg, s.sn1)
  }

  ghost predicate NetOk<B, K>(cfg: Config, s: Net<B, K>) {
    NetSafe(s) && NetTended(cfg, s)
  }

  ghost predicate NetExact<B, K>(s: Net<B, K>) {
    Exact(s.sn0) && Exact(s.sn1)
  }

  // ------------------------------------------------------------ closed forms

  lemma AccountCounted<B, K>(v: Dev<B, K>, f: Frame, payload: seq<byte>, alloc: bool)
    requires Counted(v) && |payload| == |f| - ETH_HLEN
    ensures Counted(Account(v, f, payload, alloc))
  {
    WireBytesPush(v.delivered, payload);
  }

  /** In regular mode a transmission from a running queue is a delivery: the buffer is back
      in its pool when snull_hw_tx goes on, and only the destination has changed. */
  lemma RegularSend<B, K>(cfg: Config, s: Net<B, K>, d: Side, f: Frame, alloc: bool)
    requires !cfg.napi && NetTended(cfg, s) && s.Get(d).pool != [] && !s.Get(d).stopped
    ensures var dest, g := Dest(cfg.variant, d, f), Rewrite(cfg.variant, f);
      var t := Acknowledge(s, dest);
      HwSend(cfg, s, d, f, alloc) == t.With(dest, Account(t.Get(dest), g, Payload(cfg, g), alloc))
  {
    var dest, g := Dest(cfg.variant, d, f), Rewrite(cfg.variant, f);
    var q := Queued(Last(s.Get(d).pool), d, g);
    var u := HwQueue(cfg, s, d, f);
    var r := u.With(dest, u.Get(dest).(status := u.Get(dest).status.(rx := true)));
    AcknowledgeLater(s, d, dest, q);
    assert HwSend(cfg, s, d, f, alloc) == ReceiveOne(cfg, Acknowledge(r, dest), dest, alloc);
    ReturnsHome(cfg, Acknowledge(s, dest), d, dest, q, alloc);
  }

  /** Acknowledging the interrupt does not touch the lists, so it may as well come first. */
  lemma AcknowledgeLater<B, K>(s: Net<B, K>, d: Side, dest: Side, q: Queued<B>)
    requires s.Get(d).pool != []
    ensures var u := Enqueue(TakeBuffer(s, d), dest, q);
      Acknowledge(u.With(dest, u.Get(dest).(status := u.Get(dest).status.(rx := true))), dest)
      == Enqueue(TakeBuffer(Acknowledge(s, dest), d), dest, q)
  {
    AcknowledgeRaised(Enqueue(TakeBuffer(s, d), dest, q), dest);
    AcknowledgeQueued(TakeBuffer(s, d), dest, q);
    AcknowledgeTaken(s, d, dest);
  }

  lemma AcknowledgeRaised<B, K>(s: Net<B, K>, d: Side)
    ensures Acknowledge(s.With(d, s.Get(d).(status := s.Get(d).status.(rx := true))), d) == Acknowledge(s, d)
  {
    if d == Sn0 {} else {}
  }

  lemma AcknowledgeQueued<B, K>(s: Net<B, K>, d: Side, q: Queued<B>)
    ensures Acknowledge(Enqueue(s, d, q), d) == Enqueue(Acknowledge(s, d), d, q)
  {
    if d == Sn0 {} else {}
  }

  lemma AcknowledgeTaken<B, K>(s: Net<B, K>, d: Side, dest: Side)
    requires s.Get(d).pool != []
    ensures Acknowledge(s, dest).Get(d).pool == s.Get(d).pool
    ensures Acknowledge(TakeBuffer(s, d), dest) == TakeBuffer(Acknowledge(s, dest), d)
  {
    if d == Sn0 {
      if dest == Sn0 {} else {}
    } else {
      if dest == Sn0 {} else {}
    }
  }

  /** The buffer taken from d for q comes home when q is received. */
  lemma ReturnsHome<B, K>(cfg: Config, s: Net<B, K>, d: Side, dest: Side, q: Queued<B>, alloc: bool)
    requires s.Get(d).pool != [] && !s.Get(d).stopped
    requires q.owner == d && q.buf == Last(s.Get(d).pool)
    ensures ReceiveOne(cfg, Enqueue(TakeBuffer(s, d), dest, q), dest, alloc)
         == s.With(dest, Account(s.Get(dest), q.frame, Payload(cfg, q.frame), alloc))
  {
    var y := TakeBuffer(s, d);
    EnqueueDequeue(cfg, y, dest, q, alloc);
    AccountLater(cfg, s, d, dest, q.frame, alloc);
    TakeRelease(s.With(dest, Account(s.Get(dest), q.frame, Payload(cfg, q.frame), alloc)), d);
    assert Last(y.Get(dest).queue + [q]) == q;
  }

  lemma EnqueueDequeue<B, K>(cfg: Config, s: Net<B, K>, dest: Side, q: Queued<B>, alloc: bool)
    ensures Dequeue(cfg, Enqueue(s, dest, q), dest, alloc)
         == s.With(dest, Account(s.Get(dest), q.frame, Payload(cfg, q.frame), alloc))
  {
    assert Init(s.Get(dest).queue + [q]) == s.Get(dest).queue;
  }

  lemma AccountLater<B, K>(cfg: Config, s: Net<B, K>, d: Side, dest: Side, f: Frame, alloc: bool)
    requires s.Get(d).pool != []
    ensures var t := TakeBuffer(s, d);
      t.With(dest, Account(t.Get(dest), f, Payload(cfg, f), alloc))
      == TakeBuffer(s.With(dest, Account(s.Get(dest), f, Payload(cfg, f), alloc)), d)
  {
    if d == Sn0 {
      if dest == Sn0 {} else {}
    } else {
      if dest == Sn0 {} else {}
    }
  }

  lemma TakeRelease<B, K>(s: Net<B, K>, d: Side)
    requires s.Get(d).pool != [] && !s.Get(d).stopped
    ensures ReleaseBuffer(TakeBuffer(s, d), d, Last(s.Get(d).pool)) == s
  {
    assert Init(s.Get(d).pool) + [Last(s.Get(d).pool)] == s.Get(d).pool;
    if d == Sn0 {} else {}
  }

  /** Acknowledging a status word without a transmit interrupt changes nothing. */
  lemma AcknowledgeIdle<B, K>(s: Net<B, K>, d: Side)
    requires s.Get(d).status == IDLE
    ensures Acknowledge(s, d) == s
  {
    if d == Sn0 {} else {}
  }

  /** In NAPI mode a transmission leaves the frame on the destination's list, and the
      interrupt, if it comes, only turns itself off and schedules a poll. */
  lemma NapiSend<B, K>(cfg: Config, s: Net<B, K>, d: Side, f: Frame, alloc: bool)
    requires cfg.napi && NetTended(cfg, s) && s.Get(d).pool != []
    ensures var dest := Dest(cfg.variant, d, f);
      var q := Queued(Last(s.Get(d).pool), d, Rewrite(cfg.variant, f));
      var s' := if s.Get(dest).queue == [] then Acknowledge(s, dest) else s;
      var t := Enqueue(TakeBuffer(s', d), dest, q);
      HwSend(cfg, s, d, f, alloc) == t.With(dest, t.Get(dest).(rxIntEnabled := false, polling := true))
  {
    var dest := Dest(cfg.variant, d, f);
    var q := Queued(Last(s.Get(d).pool), d, Rewrite(cfg.variant, f));
    var u := HwQueue(cfg, s, d, f);
    if s.Get(dest).queue == [] {
      AcknowledgeLater(s, d, dest, q);
    } else {
      var v := u.Get(dest);
      assert v.(rxIntEnabled := false, polling := true) == v;
      WithSame(u, dest);
    }
  }

  lemma WithSame<B, K>(s: Net<B, K>, d: Side)
    ensures s.With(d, s.Get(d)) == s
  {
    if d == Sn0 {} else {}
  }

  // ------------------------------------------------------------ preservation

  /** The fields that receiving does not touch. */
  ghost predicate SameControl<B, K>(v: Dev<B, K>, w: Dev<B, K>) {
    && w.status == v.status && w.rxIntEnabled == v.rxIntEnabled && w.polling == v.polling
    && w.txPacketLen == v.txPacketLen && w.skb == v.skb && w.freed == v.freed
    && w.stats.txPackets == v.stats.txPackets && w.stats.txBytes == v.stats.txBytes
    && w.stats.txErrors == v.stats.txErrors
  }

  lemma DequeueKeeps<B, K>(cfg: Config, s: Net<B, K>, d: Side, alloc: bool)
    requires s.Get(d).queue != []
    ensures var v, w := s.Get(d), Dequeue(cfg, s, d, alloc).Get(d);
      && w.pool == v.pool && w.stopped == v.stopped && w.queue == Init(v.queue)
      && SameControl(v, w) && (Counted(v) ==> Counted(w))
    ensures Dequeue(cfg, s, d, alloc).Get(d.Twin()) == s.Get(d.Twin())
  {
    var v, f := s.Get(d), Last(s.Get(d).queue).frame;
    if Counted(v) {
      AccountCounted(v.(queue := Init(v.queue)), f, Payload(cfg, f), alloc);
    }
  }

  lemma ReleaseKeeps<B, K>(s: Net<B, K>, owner: Side, buf: B, e: Side)
    ensures var v, w := s.Get(e), ReleaseBuffer(s, owner, buf).Get(e);
      && w.queue == v.queue && w.delivered == v.delivered && w.lost == v.lost && w.stats == v.stats
      && SameControl(v, w) && (Safe(v) ==> Safe(w)) && (Exact(v) ==> Exact(w)) && (v.pool != [] ==> w.pool != [])
  {
  }

  lemma ReceiveOneKeeps<B, K>(cfg: Config, s: Net<B, K>, d: Side, alloc: bool, e: Side)
    requires s.Get(d).queue != []
    ensures var v, w := s.Get(e), ReceiveOne(cfg, s, d, alloc).Get(e);
      && w.queue == (if e == d then Init(v.queue) else v.queue)
      && SameControl(v, w) && (Counted(v) ==> Counted(w)) && (Safe(v) ==> Safe(w)) && (Exact(v) ==> Exact(w))
      && (v.pool != [] ==> w.pool != [])
  {
    var q := Last(s.Get(d).queue);
    DequeueKeeps(cfg, s, d, alloc);
    ReleaseKeeps(Dequeue(cfg, s, d, alloc), q.owner, q.buf, e);
    assert e == d || e == d.Twin();
  }

  /** The poll loop leaves the oldest part of the list, all of it when the quota is used up
      by successes, and touches no control field. */
  lemma {:induction false} PollLoopKeeps<B, K>(
      cfg: Config, s: Net<B, K>, d: Side, npackets: int, quota: int, allocs: seq<bool>, e: Side)
    ensures var v, w := s.Get(e), PollLoop(cfg, s, d, npackets, quota, allocs).0.Get(e);
      && w.queue <= v.queue && (e != d ==> w.queue == v.queue)
      && SameControl(v, w) && (Counted(v) ==> Counted(w)) && (Safe(v) ==> Safe(w)) && (Exact(v) ==> Exact(w))
    decreases |s.Get(d).queue|
  {
    if npackets < quota && s.Get(d).queue != [] {
      var alloc := NextAlloc(allocs);
      ReceiveOneKeeps(cfg, s, d, alloc, e);
      PollLoopKeeps(cfg, ReceiveOne(cfg, s, d, alloc), d,
                    if alloc then npackets + 1 else npackets, quota, LaterAllocs(allocs), e);
    }
  }

  lemma PollKeeps<B, K>(cfg: Config, s: Net<B, K>, d: Side, quota: int, allocs: seq<bool>)
    requires cfg.napi && NetTended(cfg, s)
    ensures NetTended(cfg, Poll(cfg, s, d, quota, allocs)) && (NetSafe(s) ==> NetSafe(Poll(cfg, s, d, quota, allocs)))
    ensures NetExact(s) ==> NetExact(Poll(cfg, s, d, quota, allocs))
  {
    PollLoopKeeps(cfg, s, d, 0, quota, allocs, Sn0);
    PollLoopKeeps(cfg, s, d, 0, quota, allocs, Sn1);
    if d == Sn0 {} else {}
  }

  lemma AcknowledgeKeeps<B, K>(cfg: Config, s: Net<B, K>, d: Side)
    requires NetTended(cfg, s)
    ensures NetTended(cfg, Acknowledge(s, d)) && (NetSafe(s) ==> NetSafe(Acknowledge(s, d)))
    ensures NetExact(s) ==> NetExact(Acknowledge(s, d))
  {
    if d == Sn0 {} else {}
  }

  lemma HwSendKeeps<B, K>(cfg: Config, s: Net<B, K>, d: Side, f: Frame, alloc: bool)
    requires NetTended(cfg, s) && s.Get(d).pool != [] && !s.Get(d).stopped
    ensures NetTended(cfg, HwSend(cfg, s, d, f, alloc)) && (NetSafe(s) ==> NetSafe(HwSend(cfg, s, d, f, alloc)))
    ensures NetExact(s) ==> NetExact(HwSend(cfg, s, d, f, alloc))
  {
    var dest, g := Dest(cfg.variant, d, f), Rewrite(cfg.variant, f);
    AcknowledgeKeeps(cfg, s, dest);
    if cfg.napi {
      NapiSend(cfg, s, d, f, alloc);
      var s' := if s.Get(dest).queue == [] then Acknowledge(s, dest) else s;
      QueueKeeps(cfg, s', d, dest, Queued(Last(s.Get(d).pool), d, g));
    } else {
      RegularSend(cfg, s, d, f, alloc);
      var t := Acknowledge(s, dest);
      AccountCounted(t.Get(dest), g, Payload(cfg, g), alloc);
      if dest == Sn0 {} else {}
    }
  }

  lemma QueueKeeps<B, K>(cfg: Config, s: Net<B, K>, d: Side, dest: Side, q: Queued<B>)
    requires cfg.napi && NetTended(cfg, s) && s.Get(d).pool != []
    ensures var t := Enqueue(TakeBuffer(s, d), dest, q);
      var u := t.With(dest, t.Get(dest).(rxIntEnabled := false, polling := true));
      && NetTended(cfg, u) && (NetSafe(s) ==> NetSafe(u))
      && (NetExact(s) && !s.Get(d).stopped ==> NetExact(u))
  {
    if d == Sn0 {
      if dest == Sn0 {} else {}
    } else {
      if dest == Sn0 {} else {}
    }
  }

  lemma HwDoneKeeps<B, K>(cfg: Config, s: Net<B, K>, d: Side, len: nat)
    requires NetTended(cfg, s)
    ensures NetTended(cfg, HwDone(cfg, s, d, len)) && (NetSafe(s) ==> NetSafe(HwDone(cfg, s, d, len)))
    ensures cfg.lockup == 0 && NetExact(s) ==> NetExact(HwDone(cfg, s, d, len))
  {
    var t := RaiseTx(s, d, len);
    assert NetTended(cfg, t) && (NetSafe(s) ==> NetSafe(t)) && (NetExact(s) ==> NetExact(t)) by {
      if d == Sn0 {} else {}
    }
    if LocksUp(cfg, t.Get(d).stats.txPackets) {
      if d == Sn0 {} else {}
    } else {
      AcknowledgeKeeps(cfg, t, d);
    }
  }

  /** Every call leaves lists attended and receive counters true; it leaves running queues
      supplied too, unless it restarts one over an empty pool. */
  lemma StepKeeps<B, K>(cfg: Config, s: Net<B, K>, ev: Event<K>)
    requires NetTended(cfg, s) && KernelCalls(cfg, s, ev) && Executable(s, ev)
    ensures NetTended(cfg, Step(cfg, s, ev))
    ensures NetOk(cfg, s) && Supplied(s, ev) ==> NetOk(cfg, Step(cfg, s, ev))
    ensures cfg.lockup == 0 && (ev.Tx? || ev.PollCall?) && NetExact(s) ==> NetExact(Step(cfg, s, ev))
  {
    match ev
    case Tx(d, skb, data, alloc) =>
      var s1 := Accept(s, d, skb);
      assert NetTended(cfg, s1) && (NetSafe(s) ==> NetSafe(s1)) && (NetExact(s) ==> NetExact(s1)) by {
        if d == Sn0 {} else {}
      }
      HwSendKeeps(cfg, s1, d, Pad(data), alloc);
      HwDoneKeeps(cfg, HwSend(cfg, s1, d, Pad(data), alloc), d, |Pad(data)|);
    case PollCall(d, quota, allocs) =>
      PollKeeps(cfg, s, d, quota, allocs);
    case Timeout(d) =>
      TimeOutKeeps(cfg, s, d);
    case Open(d) =>
      if d == Sn0 {} else {}
    case Stop(d) =>
      if d == Sn0 {} else {}
  }

  lemma TimeOutKeeps<B, K>(cfg: Config, s: Net<B, K>, d: Side)
    requires NetTended(cfg, s)
    ensures NetTended(cfg, TimeOut(cfg, s, d))
    ensures NetSafe(s) && s.Get(d).pool != [] ==> NetSafe(TimeOut(cfg, s, d))
  {
    var t := s.With(d, s.Get(d).(status := Status(false, true)));
    assert NetTended(cfg, t) && (NetSafe(s) ==> NetSafe(t)) by {
      if d == Sn0 {} else {}
    }
    AcknowledgeKeeps(cfg, t, d);
    if d == Sn0 {} else {}
  }

  /** snull_tx_timeout and snull_open restart the queue without looking at the pool. That is
      safe exactly over a pool that is not empty, which is why KernelMay asks for one. */
  lemma RestartNeedsBuffer<B, K>(cfg: Config, s: Net<B, K>, d: Side)
    requires NetOk(cfg, s)
    ensures Safe(TimeOut(cfg, s, d).Get(d)) <==> s.Get(d).pool != []
    ensures NetOk(cfg, s.With(d, s.Get(d).(stopped := false))) <==> s.Get(d).pool != []
  {
    if d == Sn0 {} else {}
  }

  /** A queue that runs when its pool has just been refilled, and is otherwise as it was. */
  ghost predicate WokenByRefill<B, K>(v: Dev<B, K>, w: Dev<B, K>) {
    |v.pool| <= |w.pool| && (w.stopped <==> v.stopped && (v.pool != [] || w.pool == []))
  }

  lemma {:induction false} PollLoopWakes<B, K>(
      cfg: Config, s: Net<B, K>, d: Side, npackets: int, quota: int, allocs: seq<bool>, e: Side)
    ensures WokenByRefill(s.Get(e), PollLoop(cfg, s, d, npackets, quota, allocs).0.Get(e))
    decreases |s.Get(d).queue|
  {
    hide ReceiveOne;
    if npackets < quota && s.Get(d).queue != [] {
      var alloc := NextAlloc(allocs);
      ReceiveOneWakes(cfg, s, d, alloc, e);
      PollLoopWakes(cfg, ReceiveOne(cfg, s, d, alloc), d,
                    if alloc then npackets + 1 else npackets, quota, LaterAllocs(allocs), e);
    }
  }

  lemma ReceiveOneWakes<B, K>(cfg: Config, s: Net<B, K>, d: Side, alloc: bool, e: Side)
    requires s.Get(d).queue != []
    ensures WokenByRefill(s.Get(e), ReceiveOne(cfg, s, d, alloc).Get(e))
  {
    hide Dequeue;
    var q := Last(s.Get(d).queue);
    DequeueKeeps(cfg, s, d, alloc);
    assert e == d || e == d.Twin();
    if e == q.owner {} else {}
  }

  /** Who stops and who wakes a queue: open and the watchdog start it, stop stops it; a
      transmission leaves the sender's stopped exactly if its pool is empty or its interrupt
      was lost; a poll wakes it exactly if it refills a pool that was empty. Nothing else
      touches it. */
  lemma QueueControl<B, K>(cfg: Config, s: Net<B, K>, ev: Event<K>, e: Side)
    requires NetTended(cfg, s) && KernelCalls(cfg, s, ev) && Executable(s, ev)
    ensures var v, w := s.Get(e), Step(cfg, s, ev).Get(e);
      if ev.PollCall? then WokenByRefill(v, w)
      else if ev.side != e then w.stopped == v.stopped
      else if ev.Tx? then w.stopped <==> w.pool == [] || w.status.tx
      else w.stopped <==> ev.Stop?
  {
    hide Transmit, TimeOut, PollLoop;
    match ev
    case Tx(d, skb, data, alloc) =>
      TransmitStops(cfg, s, d, skb, data, alloc, e);
    case PollCall(d, quota, allocs) =>
      PollLoopWakes(cfg, s, d, 0, quota, allocs, e);
      if e == d {} else {}
    case Timeout(d) =>
      TimeOutStops(cfg, s, d, e);
    case Open(d) =>
      if e == d {} else {}
    case Stop(d) =>
      if e == d {} else {}
  }

  lemma TimeOutStops<B, K>(cfg: Config, s: Net<B, K>, d: Side, e: Side)
    ensures var v, w := s.Get(e), TimeOut(cfg, s, d).Get(e); w.stopped <==> e != d && v.stopped
  {
    if e == d {} else {}
  }

  lemma TransmitStops<B, K>(
      cfg: Config, s: Net<B, K>, d: Side, skb: K, data: seq<byte>, alloc: bool, e: Side)
    requires NetTended(cfg, s) && s.Get(d).pool != [] && !s.Get(d).stopped && ValidFrame(Pad(data))
    ensures var v, w := s.Get(e), Transmit(cfg, s, d, skb, data, alloc).Get(e);
            if e == d then w.stopped <==> w.pool == [] || w.status.tx else w.stopped == v.stopped
  {
    hide HwSend, HwDone;
    var f, s1 := Pad(data), Accept(s, d, skb);
    assert NetTended(cfg, s1) && s1.Get(d).pool != [] && !s1.Get(d).stopped by {
      if d == Sn0 {} else {}
    }
    SendStops(cfg, s1, d, f, alloc, d);
    SendStops(cfg, s1, d, f, alloc, e);
    HwSendKeeps(cfg, s1, d, f, alloc);
    DoneStops(cfg, HwSend(cfg, s1, d, f, alloc), d, |f|, e);
    if e == d {} else {}
  }

  lemma SendStops<B, K>(cfg: Config, s: Net<B, K>, d: Side, f: Frame, alloc: bool, e: Side)
    requires NetTended(cfg, s) && s.Get(d).pool != [] && !s.Get(d).stopped
    ensures var v, w := s.Get(e), HwSend(cfg, s, d, f, alloc).Get(e);
            if e == d then w.stopped <==> w.pool == [] else w.stopped == v.stopped
  {
    hide HwSend, Rewrite, Payload;
    var dest := Dest(cfg.variant, d, f);
    if cfg.napi {
      NapiSend(cfg, s, d, f, alloc);
    } else {
      RegularSend(cfg, s, d, f, alloc);
    }
    if e == dest {} else {}
  }

  lemma DoneStops<B, K>(cfg: Config, s: Net<B, K>, d: Side, len: nat, e: Side)
    requires !s.Get(d).status.rx && (s.Get(d).stopped <==> s.Get(d).pool == [])
    ensures var v, w := s.Get(e), HwDone(cfg, s, d, len).Get(e);
            if e == d then w.stopped <==> w.pool == [] || w.status.tx else w.stopped == v.stopped
  {
    hide LocksUp;
    if e == d {} else {}
  }

  // ------------------------------------------------------------ whole runs

  ghost function Opened<B, K>(pool0: seq<B>, pool1: seq<B>): Net<B, K> {
    Net(Fresh(pool0), Fresh(pool1))
  }

  /** Every run from attended lists ends in attended lists. */
  lemma {:induction false} RunTends<B, K>(cfg: Config, s: Net<B, K>, es: seq<Event<K>>)
    requires NetTended(cfg, s) && CallRun(cfg, s, es)
    ensures NetTended(cfg, Run(cfg, s, es))
    decreases |es|
  {
    hide Step;
    if es != [] {
      StepKeeps(cfg, s, es[0]);
      RunTends(cfg, Step(cfg, s, es[0]), es[1..]);
    }
  }

  /** Every legal run from good devices ends in good devices. */
  lemma {:induction false} RunKeeps<B, K>(cfg: Config, s: Net<B, K>, es: seq<Event<K>>)
    requires NetOk(cfg, s) && LegalRun(cfg, s, es)
    ensures NetOk(cfg, Run(cfg, s, es))
    decreases |es|
  {
    if es != [] {
      StepKeeps(cfg, s, es[0]);
      RunKeeps(cfg, Step(cfg, s, es[0]), es[1..]);
    }
  }

  /** snull_get_tx_buffer always finds a buffer: whenever the kernel may call the driver
      after a legal run, with lockups, timeouts, stops and failures in it, the call is legal. */
  lemma TransmitFindsBuffer<B, K>(cfg: Config, pool0: seq<B>, pool1: seq<B>, es: seq<Event<K>>, ev: Event<K>)
    requires pool0 != [] && pool1 != []
    requires LegalRun(cfg, Opened(pool0, pool1), es)
    requires KernelMay(cfg, Run(cfg, Opened(pool0, pool1), es), ev)
    ensures Legal(cfg, Run(cfg, Opened(pool0, pool1), es), ev)
  {
    RunKeeps(cfg, Opened(pool0, pool1), es);
  }

  /** At every boundary of the run, a device whose queue runs has a buffer. */
  ghost predicate AlwaysSafe<B, K>(cfg: Config, s: Net<B, K>, es: seq<Event<K>>)
    requires CallRun(cfg, s, es)
    decreases |es|
  {
    && Safe(s.sn0) && Safe(s.sn1)
    && (es != [] ==> AlwaysSafe(cfg, Step(cfg, s, es[0]), es[1..]))
  }

  /** A run is safe at every boundary, so that whatever the kernel may transmit next finds a
      buffer, if and only if its restarts met pools that were not empty. */
  lemma {:induction false} SafeIffRestartsSupplied<B, K>(cfg: Config, s: Net<B, K>, es: seq<Event<K>>)
    requires NetOk(cfg, s) && CallRun(cfg, s, es)
    ensures AlwaysSafe(cfg, s, es) <==> RestartsSupplied(cfg, s, es)
    decreases |es|
  {
    hide Step;
    if es != [] {
      if Supplied(s, es[0]) {
        StepKeeps(cfg, s, es[0]);
        SafeIffRestartsSupplied(cfg, Step(cfg, s, es[0]), es[1..]);
      } else {
        RestartUnsafe(cfg, s, es[0]);
      }
    }
  }

  lemma RestartUnsafe<B, K>(cfg: Config, s: Net<B, K>, e: Event<K>)
    requires NetOk(cfg, s) && !Supplied(s, e)
    ensures !Safe(Step(cfg, s, e).Get(e.side))
  {
    RestartNeedsBuffer(cfg, s, e.side);
    if e.side == Sn0 {} else {}
  }

  /** Two NAPI devices with one buffer each, a transmission, and the watchdog. */
  const RESTART_RUN: seq<Event<nat>> := [Tx(Sn0, 0, PLAIN_REPLY, true), Timeout(Sn0)]

  /** The watchdog does restart a queue over an empty pool: the kernel may transmit, and there
      is no buffer. */
  lemma RestartHappens()
    ensures var cfg, s := Config(Ldd3, true, 0), Opened<nat, nat>([1], [3]);
            && CallRun(cfg, s, RESTART_RUN)
            && var t := Step(cfg, Step(cfg, s, RESTART_RUN[0]), RESTART_RUN[1]);
               KernelCalls(cfg, t, RESTART_RUN[0]) && !Executable(t, RESTART_RUN[0])
  {
    hide Transmit;
    assert RESTART_RUN[1..] == [Event<nat>.Timeout(Sn0)] && [Event<nat>.Timeout(Sn0)][1..] == [];
    LastBufferLeaves(Config(Ldd3, true, 0), Opened<nat, nat>([1], [3]), 0);
  }

  /** In NAPI mode a frame to the twin takes its buffer with it. */
  lemma LastBufferLeaves(cfg: Config, s: Net<nat, nat>, skb: nat)
    requires cfg.variant == Ldd3 && cfg.napi && NetTended(cfg, s) && |s.sn0.pool| == 1
    ensures Transmit(cfg, s, Sn0, skb, PLAIN_REPLY, true).sn0.pool == []
  {
    hide HwSend, LocksUp, Rewrite;
    NapiSend(cfg, Accept(s, Sn0, skb), Sn0, PLAIN_REPLY, true);
    HwDonePool(cfg, HwSend(cfg, Accept(s, Sn0, skb), Sn0, PLAIN_REPLY, true), |PLAIN_REPLY|);
  }

  lemma HwDonePool(cfg: Config, s: Net<nat, nat>, len: nat)
    requires cfg.napi
    ensures HwDone(cfg, s, Sn0, len).sn0.pool == s.sn0.pool
  {
    hide LocksUp;
  }

  ghost predicate Undisturbed<K>(es: seq<Event<K>>) {
    forall i | 0 <= i < |es| :: es[i].Tx? || es[i].PollCall?
  }

  lemma {:induction false} RunExact<B, K>(cfg: Config, s: Net<B, K>, es: seq<Event<K>>)
    requires cfg.lockup == 0 && Undisturbed(es) && LegalRun(cfg, s, es)
    requires NetOk(cfg, s) && NetExact(s)
    ensures NetExact(Run(cfg, s, es))
    decreases |es|
  {
    hide Step;
    if es != [] {
      StepKeeps(cfg, s, es[0]);
      RunExact(cfg, Step(cfg, s, es[0]), es[1..]);
    }
  }

  /** Flow control: between open and stop, without lockups or timeouts, a transmit queue is
      stopped exactly when its pool is empty; and the pools setup left must not be empty. */
  lemma FlowControl<B, K>(cfg: Config, pool0: seq<B>, pool1: seq<B>)
    requires cfg.lockup == 0
    ensures pool0 != [] && pool1 != [] <==>
            forall es: seq<Event<K>> | Undisturbed(es) && LegalRun(cfg, Opened<B, K>(pool0, pool1), es) ::
              NetExact(Run(cfg, Opened<B, K>(pool0, pool1), es))
  {
    var s := Opened<B, K>(pool0, pool1);
    if pool0 != [] && pool1 != [] {
      forall es: seq<Event<K>> | Undisturbed(es) && LegalRun(cfg, s, es)
        ensures NetExact(Run(cfg, s, es))
      {
        RunExact(cfg, s, es);
      }
    } else {
      var none: seq<Event<K>> := [];
      assert Undisturbed(none) && LegalRun(cfg, s, none) && !NetExact(Run(cfg, s, none));
    }
  }

  /** No stranded packet: after any NAPI run from open, restarts wherever the kernel pleases,
      interrupts are off exactly where packets wait, and there a poll is scheduled. */
  lemma NoStrandedPacket<B, K>(cfg: Config, pool0: seq<B>, pool1: seq<B>, es: seq<Event<K>>, d: Side)
    requires cfg.napi && CallRun(cfg, Opened(pool0, pool1), es)
    ensures var v := Run(cfg, Opened(pool0, pool1), es).Get(d);
      (!v.rxIntEnabled <==> v.queue != []) && (v.polling <==> v.queue != [])
  {
    RunTends(cfg, Opened(pool0, pool1), es);
  }
}
