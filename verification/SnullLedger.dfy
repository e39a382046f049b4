/** Conservation in the snull model, over every run of either driver in either mode, with
    lockups, restarts, stops and allocation failures: no buffer and no frame is ever created,
    lost or duplicated. Frames are counted one payload at a time. */
module SnullLedger {
  import opened Bytes
  import opened Frames
  import opened SnullModel

  // ------------------------------------------------------------ buffers

  /** Buffer b as seen by device d, if it belongs to owner. */
  ghost function Mine<B>(owner: Side, b: B, d: Side): multiset<B> {
    if owner == d then multiset{b} else multiset{}
  }

  /** The buffers of d on a list, with their multiplicities. */
  ghost function Owned<B>(queue: seq<Queued<B>>, d: Side): multiset<B> {
    if queue == [] then multiset{} else Owned(Init(queue), d) + Mine(Last(queue).owner, Last(queue).buf, d)
  }

  /** All places a buffer of d can be: d's pool and both lists. */
  ghost function Held<B, K>(s: Net<B, K>, d: Side): multiset<B> {
    multiset(s.Get(d).pool) + Owned(s.sn0.queue, d) + Owned(s.sn1.queue, d)
  }

  lemma OwnedPush<B>(queue: seq<Queued<B>>, q: Queued<B>, d: Side)
    ensures Owned(queue + [q], d) == Owned(queue, d) + Mine(q.owner, q.buf, d)
  {
    assert Init(queue + [q]) == queue;
  }

  // ------------------------------------------------------------ frames

  ghost function Payloads(cfg: Config, frames: seq<Frame>): multiset<seq<byte>> {
    if frames == [] then multiset{} else Payloads(cfg, Init(frames)) + multiset{Payload(cfg, Last(frames))}
  }

  ghost function FramesOf<B>(queue: seq<Queued<B>>): (frames: seq<Frame>)
    ensures |frames| == |queue|
  {
    seq(|queue|, i requires 0 <= i < |queue| => queue[i].frame)
  }

  /** How often payload p reached device v: delivered, dropped, or still on its list. */
  ghost function Arrivals<B, K>(cfg: Config, v: Dev<B, K>, p: seq<byte>): nat {
    multiset(v.delivered)[p] + Payloads(cfg, v.lost)[p] + Payloads(cfg, FramesOf(v.queue))[p]
  }

  /** Bytes on the wire behind a sequence of delivered packets. */
  ghost function WireBytes(packets: seq<seq<byte>>): nat {
    if packets == [] then 0 else WireBytes(Init(packets)) + |Last(packets)| + ETH_HLEN
  }

  lemma WireBytesPush(packets: seq<seq<byte>>, p: seq<byte>)
    ensures WireBytes(packets + [p]) == WireBytes(packets) + |p| + ETH_HLEN
  {
    assert Init(packets + [p]) == packets;
  }

  ghost function FrameBytes(frames: seq<Frame>): nat {
    if frames == [] then 0 else FrameBytes(Init(frames)) + |Last(frames)|
  }

  /** Packets and bytes that reached v: counted as received, dropped, or still listed. */
  ghost function PacketsIn<B, K>(v: Dev<B, K>): nat {
    v.stats.rxPackets + v.stats.rxDropped + |v.queue|
  }

  ghost function BytesIn<B, K>(v: Dev<B, K>): nat {
    v.stats.rxBytes + FrameBytes(v.lost) + FrameBytes(FramesOf(v.queue))
  }

  lemma FrameBytesPush(frames: seq<Frame>, f: Frame)
    ensures FrameBytes(frames + [f]) == FrameBytes(frames) + |f|
  {
    assert Init(frames + [f]) == frames;
  }

  /** The payload a transmission puts on the wire towards d, if that is where it goes. */
  ghost function SentBy<K>(cfg: Config, e: Event<K>, d: Side): seq<seq<byte>> {
    if e.Tx? && ValidFrame(Pad(e.data)) && Dest(cfg.variant, e.side, Pad(e.data)) == d
    then [Payload(cfg, Rewrite(cfg.variant, Pad(e.data)))]
    else []
  }

  /** All payloads sent towards d in a run, in order. */
  ghost function SentTo<K>(cfg: Config, es: seq<Event<K>>, d: Side): seq<seq<byte>> {
    if es == [] then [] else SentBy(cfg, es[0], d) + SentTo(cfg, es[1..], d)
  }

  lemma PayloadsPush(cfg: Config, frames: seq<Frame>, f: Frame)
    ensures Payloads(cfg, frames + [f]) == Payloads(cfg, frames) + multiset{Payload(cfg, f)}
  {
    assert Init(frames + [f]) == frames;
  }

  lemma FramesPush<B>(queue: seq<Queued<B>>, q: Queued<B>)
    ensures FramesOf(queue + [q]) == FramesOf(queue) + [q.frame]
  {
  }

  lemma AccountArrivals<B, K>(cfg: Config, v: Dev<B, K>, alloc: bool, p: seq<byte>)
    requires v.queue != []
    ensures var q := Last(v.queue);
      var w := Account(v.(queue := Init(v.queue)), q.frame, Payload(cfg, q.frame), alloc);
      Arrivals(cfg, w, p) == Arrivals(cfg, v, p)
  {
    var q := Last(v.queue);
    LastFrame(v.queue);
    PayloadsPush(cfg, FramesOf(Init(v.queue)), q.frame);
    PayloadsPush(cfg, v.lost, q.frame);
  }

  lemma AccountTraffic<B, K>(v: Dev<B, K>, payload: seq<byte>, alloc: bool)
    requires v.queue != []
    ensures var w := Account(v.(queue := Init(v.queue)), Last(v.queue).frame, payload, alloc);
      PacketsIn(w) == PacketsIn(v) && BytesIn(w) == BytesIn(v)
  {
    var f := Last(v.queue).frame;
    LastFrame(v.queue);
    FrameBytesPush(FramesOf(Init(v.queue)), f);
    FrameBytesPush(v.lost, f);
  }

  lemma LastFrame<B>(queue: seq<Queued<B>>)
    requires queue != []
    ensures FramesOf(queue) == FramesOf(Init(queue)) + [Last(queue).frame]
  {
  }

  // ------------------------------------------------------------ one step

  /** What reached a device, as seen by payload p, by the packet count and by bytes. */
  ghost predicate Inflow<B, K>(cfg: Config, v: Dev<B, K>, w: Dev<B, K>, sent: seq<seq<byte>>, p: seq<byte>) {
    && Arrivals(cfg, w, p) == Arrivals(cfg, v, p) + multiset(sent)[p]
    && PacketsIn(w) == PacketsIn(v) + |sent|
    && BytesIn(w) == BytesIn(v) + WireBytes(sent)
  }

  /** From s to t, device e keeps its buffers, and what was sent to it has arrived. */
  ghost predicate Books<B, K>(cfg: Config, s: Net<B, K>, t: Net<B, K>, e: Side, sent: seq<seq<byte>>, p: seq<byte>) {
    Held(t, e) == Held(s, e) && Inflow(cfg, s.Get(e), t.Get(e), sent, p)
  }

  /** Nothing was sent. */
  ghost predicate SameBooks<B, K>(cfg: Config, s: Net<B, K>, t: Net<B, K>, e: Side, p: seq<byte>) {
    Books(cfg, s, t, e, [], p)
  }

  lemma BooksChain<B, K>(
      cfg: Config, s: Net<B, K>, t: Net<B, K>, u: Net<B, K>, e: Side,
      a: seq<seq<byte>>, b: seq<seq<byte>>, p: seq<byte>)
    requires Books(cfg, s, t, e, a, p) && Books(cfg, t, u, e, b, p)
    requires a == [] || b == []
    ensures Books(cfg, s, u, e, if a == [] then b else a, p)
  {
    hide Held, Arrivals, PacketsIn, BytesIn;
  }

  lemma DequeueBooks<B, K>(cfg: Config, s: Net<B, K>, d: Side, alloc: bool, e: Side, p: seq<byte>)
    requires s.Get(d).queue != []
    ensures var q, t := Last(s.Get(d).queue), Dequeue(cfg, s, d, alloc);
      && Held(s, e) == Held(t, e) + Mine(q.owner, q.buf, e)
      && Inflow(cfg, s.Get(e), t.Get(e), [], p)
  {
    hide Held, Payload, Payloads, FrameBytes, FramesOf;
    DequeueHeld(cfg, s, d, alloc, e);
    AccountArrivals(cfg, s.Get(d), alloc, p);
    AccountTraffic(s.Get(d), Payload(cfg, Last(s.Get(d).queue).frame), alloc);
  }

  lemma DequeueHeld<B, K>(cfg: Config, s: Net<B, K>, d: Side, alloc: bool, e: Side)
    requires s.Get(d).queue != []
    ensures var q := Last(s.Get(d).queue); Held(s, e) == Held(Dequeue(cfg, s, d, alloc), e) + Mine(q.owner, q.buf, e)
  {
    hide Payload, Mine;
    if d == Sn0 {} else {}
  }

  lemma ReceiveOneBooks<B, K>(cfg: Config, s: Net<B, K>, d: Side, alloc: bool, e: Side, p: seq<byte>)
    requires s.Get(d).queue != []
    ensures SameBooks(cfg, s, ReceiveOne(cfg, s, d, alloc), e, p)
  {
    var q := Last(s.Get(d).queue);
    DequeueBooks(cfg, s, d, alloc, e, p);
    ReleaseBooks(cfg, Dequeue(cfg, s, d, alloc), q.owner, q.buf, e, p);
  }

  lemma ReleaseBooks<B, K>(cfg: Config, s: Net<B, K>, owner: Side, buf: B, e: Side, p: seq<byte>)
    ensures var t := ReleaseBuffer(s, owner, buf);
      && Held(t, e) == Held(s, e) + Mine(owner, buf, e)
      && Inflow(cfg, s.Get(e), t.Get(e), [], p)
  {
    hide Held, Payload, Payloads, FrameBytes, FramesOf;
    ReleaseHeld(s, owner, buf, e);
  }

  lemma ReleaseHeld<B, K>(s: Net<B, K>, owner: Side, buf: B, e: Side)
    ensures Held(ReleaseBuffer(s, owner, buf), e) == Held(s, e) + Mine(owner, buf, e)
  {
    hide Owned;
    if owner == Sn0 {} else {}
  }

  /** The fields that matter to the books, and that most steps leave alone. */
  ghost predicate SameReceipts<B, K>(v: Dev<B, K>, w: Dev<B, K>) {
    && w.pool == v.pool && w.queue == v.queue && w.delivered == v.delivered && w.lost == v.lost
    && w.stats.rxPackets == v.stats.rxPackets && w.stats.rxDropped == v.stats.rxDropped
    && w.stats.rxBytes == v.stats.rxBytes
  }

  lemma ScalarBooks<B, K>(cfg: Config, s: Net<B, K>, d: Side, v: Dev<B, K>, e: Side, p: seq<byte>)
    requires SameReceipts(s.Get(d), v)
    ensures SameBooks(cfg, s, s.With(d, v), e, p)
  {
    hide Owned, Payloads, FrameBytes, FramesOf;
    if d == Sn0 {
      if e == Sn0 {} else {}
    } else {
      if e == Sn0 {} else {}
    }
  }

  lemma AcknowledgeBooks<B, K>(cfg: Config, s: Net<B, K>, d: Side, e: Side, p: seq<byte>)
    ensures SameBooks(cfg, s, Acknowledge(s, d), e, p)
  {
    ScalarBooks(cfg, s, d, Acknowledge(s, d).Get(d), e, p);
  }

  lemma InterruptBooks<B, K>(cfg: Config, s: Net<B, K>, d: Side, alloc: bool, e: Side, p: seq<byte>)
    ensures SameBooks(cfg, s, Interrupt(cfg, s, d, alloc), e, p)
  {
    hide Books, Acknowledge, ReceiveOne;
    AcknowledgeBooks(cfg, s, d, e, p);
    var t := Acknowledge(s, d);
    if s.Get(d).status.rx && (cfg.napi || t.Get(d).queue != []) {
      if cfg.napi {
        ScalarBooks(cfg, t, d, t.Get(d).(rxIntEnabled := false, polling := true), e, p);
      } else {
        ReceiveOneBooks(cfg, t, d, alloc, e, p);
      }
      BooksChain(cfg, s, t, Interrupt(cfg, s, d, alloc), e, [], [], p);
    }
  }

  lemma {:induction false} PollLoopBooks<B, K>(
      cfg: Config, s: Net<B, K>, d: Side, npackets: int, quota: int, allocs: seq<bool>, e: Side, p: seq<byte>)
    ensures SameBooks(cfg, s, PollLoop(cfg, s, d, npackets, quota, allocs).0, e, p)
    decreases |s.Get(d).queue|
  {
    hide Books, ReceiveOne;
    if npackets < quota && s.Get(d).queue != [] {
      var alloc := NextAlloc(allocs);
      var t, later := ReceiveOne(cfg, s, d, alloc), if alloc then npackets + 1 else npackets;
      ReceiveOneBooks(cfg, s, d, alloc, e, p);
      PollLoopBooks(cfg, t, d, later, quota, LaterAllocs(allocs), e, p);
      BooksChain(cfg, s, t, PollLoop(cfg, s, d, npackets, quota, allocs).0, e, [], [], p);
    } else {
      ScalarBooks(cfg, s, d, s.Get(d), e, p);
      assert s.With(d, s.Get(d)) == s;
    }
  }

  lemma PollBooks<B, K>(cfg: Config, s: Net<B, K>, d: Side, quota: int, allocs: seq<bool>, e: Side, p: seq<byte>)
    ensures SameBooks(cfg, s, Poll(cfg, s, d, quota, allocs), e, p)
  {
    hide Books, PollLoop;
    var t := PollLoop(cfg, s, d, 0, quota, allocs).0;
    PollLoopBooks(cfg, s, d, 0, quota, allocs, e, p);
    if t.Get(d).queue == [] {
      ScalarBooks(cfg, t, d, t.Get(d).(polling := false, rxIntEnabled := true), e, p);
      BooksChain(cfg, s, t, Poll(cfg, s, d, quota, allocs), e, [], [], p);
    }
  }

  lemma TakeBooks<B, K>(cfg: Config, s: Net<B, K>, d: Side, e: Side, p: seq<byte>)
    requires s.Get(d).pool != []
    ensures var t := TakeBuffer(s, d);
      && Held(s, e) == Held(t, e) + Mine(d, Last(s.Get(d).pool), e)
      && Inflow(cfg, s.Get(e), t.Get(e), [], p)
  {
    hide Held, Payload, Payloads, FrameBytes, FramesOf;
    TakeHeld(s, d, e);
  }

  lemma MovesOver<B>(m: multiset<B>, a: multiset<B>, b: multiset<B>, x: multiset<B>)
    ensures (m + x) + a + b == (m + a + b) + x
  {
  }

  lemma TakeHeld<B, K>(s: Net<B, K>, d: Side, e: Side)
    requires s.Get(d).pool != []
    ensures Held(s, e) == Held(TakeBuffer(s, d), e) + Mine(d, Last(s.Get(d).pool), e)
  {
    hide Owned;
    var pool := s.Get(d).pool;
    MultisetLast(pool);
    var t := TakeBuffer(s, d);
    assert t.sn0.queue == s.sn0.queue && t.sn1.queue == s.sn1.queue && t.Get(d).pool == Init(pool);
    MovesOver(multiset(Init(pool)), Owned(s.sn0.queue, d), Owned(s.sn1.queue, d), multiset{Last(pool)});
    if e == d {} else {}
  }

  lemma EnqueueBooks<B, K>(cfg: Config, s: Net<B, K>, dest: Side, q: Queued<B>, e: Side, p: seq<byte>)
    ensures var t := Enqueue(s, dest, q);
      && Held(t, e) == Held(s, e) + Mine(q.owner, q.buf, e)
      && Inflow(cfg, s.Get(e), t.Get(e), if dest == e then [Payload(cfg, q.frame)] else [], p)
  {
    hide Held, Payload, Payloads, FrameBytes, FramesOf;
    var queue := s.Get(dest).queue;
    EnqueueHeld(s, dest, q, e);
    FramesPush(queue, q);
    PayloadsPush(cfg, FramesOf(queue), q.frame);
    FrameBytesPush(FramesOf(queue), q.frame);
    WireBytesPush([], Payload(cfg, q.frame));
    assert [] + [Payload(cfg, q.frame)] == [Payload(cfg, q.frame)];
  }

  lemma EnqueueHeld<B, K>(s: Net<B, K>, dest: Side, q: Queued<B>, e: Side)
    ensures Held(Enqueue(s, dest, q), e) == Held(s, e) + Mine(q.owner, q.buf, e)
  {
    hide Owned, Mine;
    OwnedPush(s.Get(dest).queue, q, e);
    if dest == Sn0 {} else {}
  }

  lemma HwQueueBooks<B, K>(cfg: Config, s: Net<B, K>, d: Side, f: Frame, e: Side, p: seq<byte>)
    requires s.Get(d).pool != []
    ensures var t := HwQueue(cfg, s, d, f);
      Books(cfg, s, t, e, if Dest(cfg.variant, d, f) == e then [Payload(cfg, Rewrite(cfg.variant, f))] else [], p)
  {
    TakeBooks(cfg, s, d, e, p);
    EnqueueBooks(cfg, TakeBuffer(s, d), Dest(cfg.variant, d, f),
                 Queued(Last(s.Get(d).pool), d, Rewrite(cfg.variant, f)), e, p);
  }

  lemma RaiseRxBooks<B, K>(cfg: Config, s: Net<B, K>, dest: Side, alloc: bool, e: Side, p: seq<byte>)
    ensures SameBooks(cfg, s, RaiseRx(cfg, s, dest, alloc), e, p)
  {
    hide Books, Interrupt;
    var v := s.Get(dest).(status := s.Get(dest).status.(rx := true));
    var t := s.With(dest, v);
    if s.Get(dest).rxIntEnabled {
      ScalarBooks(cfg, s, dest, v, e, p);
      InterruptBooks(cfg, t, dest, alloc, e, p);
      BooksChain(cfg, s, t, RaiseRx(cfg, s, dest, alloc), e, [], [], p);
    } else {
      ScalarBooks(cfg, s, dest, s.Get(dest), e, p);
      assert s.With(dest, s.Get(dest)) == s;
    }
  }

  lemma HwDoneBooks<B, K>(cfg: Config, s: Net<B, K>, d: Side, len: nat, e: Side, p: seq<byte>)
    ensures SameBooks(cfg, s, HwDone(cfg, s, d, len), e, p)
  {
    hide Books, Interrupt, LocksUp;
    var t := RaiseTx(s, d, len);
    ScalarBooks(cfg, s, d, t.Get(d), e, p);
    if LocksUp(cfg, t.Get(d).stats.txPackets) {
      ScalarBooks(cfg, t, d, t.Get(d).(stopped := true), e, p);
    } else {
      InterruptBooks(cfg, t, d, true, e, p);
    }
    BooksChain(cfg, s, t, HwDone(cfg, s, d, len), e, [], [], p);
  }

  lemma TransmitBooks<B, K>(
      cfg: Config, s: Net<B, K>, d: Side, skb: K, data: seq<byte>, alloc: bool, e: Side, p: seq<byte>)
    requires s.Get(d).pool != [] && ValidFrame(Pad(data))
    ensures Books(cfg, s, Transmit(cfg, s, d, skb, data, alloc), e,
                  if Dest(cfg.variant, d, Pad(data)) == e
                  then [Payload(cfg, Rewrite(cfg.variant, Pad(data)))] else [], p)
  {
    hide Books, HwQueue, RaiseRx, HwDone, Payload, Rewrite, Dest;
    var f, s1 := Pad(data), Accept(s, d, skb);
    var dest, s2, s3 := Dest(cfg.variant, d, f), HwQueue(cfg, s1, d, f), HwSend(cfg, s1, d, f, alloc);
    var sent := if dest == e then [Payload(cfg, Rewrite(cfg.variant, f))] else [];
    ScalarBooks(cfg, s, d, s1.Get(d), e, p);
    HwQueueBooks(cfg, s1, d, f, e, p);
    BooksChain(cfg, s, s1, s2, e, [], sent, p);
    RaiseRxBooks(cfg, s2, dest, alloc, e, p);
    BooksChain(cfg, s, s2, s3, e, sent, [], p);
    HwDoneBooks(cfg, s3, d, |f|, e, p);
    BooksChain(cfg, s, s3, HwDone(cfg, s3, d, |f|), e, sent, [], p);
  }

  lemma TimeOutBooks<B, K>(cfg: Config, s: Net<B, K>, d: Side, e: Side, p: seq<byte>)
    ensures SameBooks(cfg, s, TimeOut(cfg, s, d), e, p)
  {
    hide Books, Interrupt;
    var s0 := s.With(d, s.Get(d).(status := Status(false, true)));
    var t := Interrupt(cfg, s0, d, true);
    ScalarBooks(cfg, s, d, s0.Get(d), e, p);
    InterruptBooks(cfg, s0, d, true, e, p);
    BooksChain(cfg, s, s0, t, e, [], [], p);
    ScalarBooks(cfg, t, d, TimeOut(cfg, s, d).Get(d), e, p);
    BooksChain(cfg, s, t, TimeOut(cfg, s, d), e, [], [], p);
  }

  lemma StepBooks<B, K>(cfg: Config, s: Net<B, K>, ev: Event<K>, e: Side, p: seq<byte>)
    requires Executable(s, ev)
    ensures Books(cfg, s, Step(cfg, s, ev), e, SentBy(cfg, ev, e), p)
  {
    hide Books, Transmit, PollLoop, TimeOut, Payload, Rewrite, Dest;
    match ev
    case Tx(d, skb, data, alloc) =>
      TransmitBooks(cfg, s, d, skb, data, alloc, e, p);
    case PollCall(d, quota, allocs) =>
      PollBooks(cfg, s, d, quota, allocs, e, p);
    case Timeout(d) =>
      TimeOutBooks(cfg, s, d, e, p);
    case Open(d) =>
      ScalarBooks(cfg, s, d, s.Get(d).(stopped := false), e, p);
    case Stop(d) =>
      ScalarBooks(cfg, s, d, s.Get(d).(stopped := true), e, p);
  }

  // ------------------------------------------------------------ whole runs

  /** Buffer conservation, from any state: a run leaves the buffers of each device in as many
      of their places as before. */
  lemma {:induction false} BuffersConserved<B, K>(cfg: Config, s: Net<B, K>, es: seq<Event<K>>, d: Side)
    requires CallRun(cfg, s, es)
    ensures Held(Run(cfg, s, es), d) == Held(s, d)
    decreases |es|
  {
    hide Step;
    if es != [] {
      StepBooks(cfg, s, es[0], d, []);
      BuffersConserved(cfg, Step(cfg, s, es[0]), es[1..], d);
    }
  }

  /** Whatever happened in between, the pool of d and the buffers of d in flight still add
      up to the number there were. */
  lemma BufferCount<B, K>(cfg: Config, s: Net<B, K>, es: seq<Event<K>>, d: Side)
    requires CallRun(cfg, s, es)
    ensures var t := Run(cfg, s, es);
      |t.Get(d).pool| + |Owned(t.sn0.queue, d)| + |Owned(t.sn1.queue, d)|
      == |s.Get(d).pool| + |Owned(s.sn0.queue, d)| + |Owned(s.sn1.queue, d)|
  {
    hide Run, CallRun, Owned;
    BuffersConserved(cfg, s, es, d);
    HeldSize(s, d);
    HeldSize(Run(cfg, s, es), d);
  }

  lemma HeldSize<B, K>(s: Net<B, K>, d: Side)
    ensures |Held(s, d)| == |s.Get(d).pool| + |Owned(s.sn0.queue, d)| + |Owned(s.sn1.queue, d)|
  {
    assert |multiset(s.Get(d).pool)| == |s.Get(d).pool|;
  }

  lemma SameMultiset<B>(m: multiset<B>, n: multiset<B>)
    requires forall b: B :: m[b] == n[b]
    ensures m == n
  {
  }

  /** Buffer conservation from freshly opened devices with distinct buffers: at every point
      of every run a buffer allocated for d is in exactly one place, once, and a buffer that
      was not is in none. */
  lemma EachBufferOnce<B, K>(cfg: Config, pool0: seq<B>, pool1: seq<B>, es: seq<Event<K>>, d: Side, b: B)
    requires CallRun(cfg, Net<B, K>.Net(Fresh(pool0), Fresh(pool1)), es)
    requires forall i, j | 0 <= i < j < |pool0| :: pool0[i] != pool0[j]
    requires forall i, j | 0 <= i < j < |pool1| :: pool1[i] != pool1[j]
    ensures var s := Run(cfg, Net<B, K>.Net(Fresh(pool0), Fresh(pool1)), es);
      Held(s, d)[b] == if b in (if d == Sn0 then pool0 else pool1) then 1 else 0
  {
    BuffersConserved(cfg, Net<B, K>.Net(Fresh(pool0), Fresh(pool1)), es, d);
    DistinctCount(if d == Sn0 then pool0 else pool1, b);
  }

  lemma {:induction false} DistinctCount<B>(s: seq<B>, b: B)
    requires forall i, j | 0 <= i < j < |s| :: s[i] != s[j]
    ensures multiset(s)[b] == if b in s then 1 else 0
  {
    if s != [] {
      DistinctCount(Init(s), b);
      MultisetLast(s);
      assert s == Init(s) + [Last(s)];
    }
  }

  lemma {:induction false} WireBytesConcat(a: seq<seq<byte>>, b: seq<seq<byte>>)
    ensures WireBytes(a + b) == WireBytes(a) + WireBytes(b)
  {
    if b == [] {
      assert a + b == a;
    } else {
      WireBytesConcat(a, Init(b));
      assert Init(a + b) == a + Init(b);
    }
  }

  /** Frame conservation: what was sent towards d in a run has been delivered to d, dropped
      by d, or is on d's list, each frame once; and d's counters agree, in packets and in
      bytes over padded lengths. */
  lemma {:induction false} FramesConserved<B, K>(
      cfg: Config, s: Net<B, K>, es: seq<Event<K>>, d: Side, p: seq<byte>)
    requires CallRun(cfg, s, es)
    ensures Inflow(cfg, s.Get(d), Run(cfg, s, es).Get(d), SentTo(cfg, es, d), p)
    decreases |es|
  {
    hide Step;
    if es != [] {
      StepBooks(cfg, s, es[0], d, p);
      FramesConserved(cfg, Step(cfg, s, es[0]), es[1..], d, p);
      WireBytesConcat(SentBy(cfg, es[0], d), SentTo(cfg, es[1..], d));
    }
  }

  /** The counting half of it, without a payload in view. */
  lemma TrafficConserved<B, K>(cfg: Config, s: Net<B, K>, es: seq<Event<K>>, d: Side)
    requires CallRun(cfg, s, es)
    ensures PacketsIn(Run(cfg, s, es).Get(d)) == PacketsIn(s.Get(d)) + |SentTo(cfg, es, d)|
    ensures BytesIn(Run(cfg, s, es).Get(d)) == BytesIn(s.Get(d)) + WireBytes(SentTo(cfg, es, d))
  {
    FramesConserved(cfg, s, es, d, []);
  }
}
