/** One snull interface on the heap: packet buffers linked through their next pointers and a
    device record updated in place. Every method is proved against the function of SnullModel
    with the same role. The twin interface appears as a parameter: it owns some of the packets
    that pass through here, and it is what must stay intact. */
module SnullDevice {
  import opened Bytes
  import opened FrameEdits
  import opened Frames
  import opened SnullModel

  /** Where a packet buffer is. */
  datatype Place = InHand | InPool(side: Side) | InQueue(side: Side)

  /** struct snull_packet. The ghost fields record the list it is on and its height there,
      which is what makes the lists acyclic and disjoint. */
  class Packet {
    var next: Packet?
    const dev: Device
    var datalen: nat
    const data: array<byte>
    ghost var place: Place
    ghost var height: nat
    ghost var content: seq<byte>

    constructor (dev: Device)
      ensures this.dev == dev && place == InHand && Holds()
      ensures fresh(data) && data.Length == ETH_DATA_LEN
    {
      this.dev := dev;
      next := null;
      datalen := 0;
      data := new byte[ETH_DATA_LEN];
      place, content := InHand, [];
    }

    /** The first datalen octets of the buffer are its content. */
    ghost predicate Holds()
      reads `datalen, `content, data
    {
      datalen == |content| && datalen <= data.Length && forall k | 0 <= k < datalen :: data[k] == content[k]
    }

    /** The frame is copied into the packet, and its length recorded. */
    method CopyIn(buf: array<byte>, len: nat)
      requires len <= buf.Length && len <= data.Length && data != buf
      modifies `datalen, `content, data
      ensures Holds() && content == buf[..len]
    {
      datalen, content := len, buf[..len];
      forall i | 0 <= i < len {
        data[i] := buf[i];
      }
    }

    /** skb_put, memcpy and eth_type_trans into a new sk_buff. Of the receive paths the newer
        snull_rx alone edits the octets there. */
    method BuildSkb(cfg: Config, ghost f: Frame) returns (payload: seq<byte>)
      requires Holds() && content == f
      ensures payload == Payload(cfg, f)
    {
      var skb := new byte[datalen];
      forall i | 0 <= i < datalen {
        skb[i] := data[i];
      }
      assert skb[..] == f;
      if !cfg.napi && cfg.variant == Ping {
        EchoToReply(skb);
      }
      return skb[ETH_HLEN..];
    }
  }

  class SkBuff {
    const data: array<byte>

    constructor (data: array<byte>)
      ensures this.data == data
    {
      this.data := data;
    }
  }

  /** From head through next, the packets are the stack, top last, and know their place. */
  ghost predicate Linked(head: Packet?, stack: seq<Packet>, place: Place)
    reads stack
  {
    && head == (if stack == [] then null else stack[|stack| - 1])
    && (forall i | 0 <= i < |stack| :: stack[i].place == place && stack[i].height == i)
    && (forall i {:trigger stack[i].next} | 0 <= i < |stack| ::
          stack[i].next == if i == 0 then null else stack[i - 1])
  }

  /** The queue says of each packet whose it is and what it holds. */
  ghost predicate Described(queue: seq<Queued<Packet>>, stack: seq<Packet>)
    reads stack
  {
    && |queue| == |stack|
    && forall i | 0 <= i < |stack| ::
         queue[i].buf == stack[i] && queue[i].owner == stack[i].dev.side && queue[i].frame == stack[i].content
  }

  /** The packets carry full-size data areas of their own, and belong to one of two devices. */
  ghost predicate Roster(v: Device, w: Device, packets: set<Packet>) {
    && (forall p | p in packets :: p.data.Length == ETH_DATA_LEN)
    && (forall p, q | p in packets && q in packets && p.data == q.data :: p == q)
    && (forall p | p in packets :: p.dev == v || p.dev == w)
  }

  ghost predicate Contents(packets: set<Packet>)
    reads packets`datalen, packets`content, (set p | p in packets :: p.data)
  {
    forall p | p in packets :: p.Holds()
  }

  ghost function Compose<B, K>(d: Side, v: Dev<B, K>, w: Dev<B, K>): Net<B, K> {
    if d == Sn0 then Net(v, w) else Net(w, v)
  }

  /** The device once the handler has read the status word, served its receive bit from the
      list, and then its transmit bit. */
  ghost function Served<B, K>(cfg: Config, v: Dev<B, K>, alloc: bool): Dev<B, K> {
    var idle := v.(status := IDLE);
    var up := if v.status.rx && v.queue != []
              then Account(idle.(queue := Init(v.queue)), Last(v.queue).frame, Payload(cfg, Last(v.queue).frame), alloc)
              else idle;
    if v.status.tx then TxDone(up) else up
  }

  lemma TxDoneCommutes<B, K>(v: Dev<B, K>, f: Frame, payload: seq<byte>, alloc: bool)
    requires v.queue != []
    ensures TxDone(Account(v.(queue := Init(v.queue)), f, payload, alloc))
         == Account(TxDone(v).(queue := Init(v.queue)), f, payload, alloc)
  {
  }

  /** Serving receive before transmit, and releasing last, comes to the same. */
  lemma ServedIsInterrupt<B, K>(cfg: Config, d: Side, v: Dev<B, K>, w: Dev<B, K>, alloc: bool)
    requires !cfg.napi
    ensures Interrupt(cfg, Compose(d, v, w), d, alloc)
         == if v.status.rx && v.queue != []
            then ReleaseBuffer(Compose(d, Served(cfg, v, alloc), w), Last(v.queue).owner, Last(v.queue).buf)
            else Compose(d, Served(cfg, v, alloc), w)
  {
    if v.status.rx && v.queue != [] {
      var f := Last(v.queue).frame;
      TxDoneCommutes(v.(status := IDLE), f, Payload(cfg, f), alloc);
    }
    if d == Sn0 {} else {}
  }

  /** The last two statements of snull_tx_timeout. */
  ghost function Restarted<B, K>(v: Dev<B, K>): Dev<B, K> {
    v.(stats := v.stats.(txErrors := v.stats.txErrors + 1), stopped := false)
  }

  lemma TimeOutByView<B, K>(cfg: Config, d: Side, v: Dev<B, K>, w: Dev<B, K>)
    ensures var t := Interrupt(cfg, Compose(d, v.(status := Status(false, true)), w), d, true);
            TimeOut(cfg, Compose(d, v, w), d) == t.With(d, Restarted(t.Get(d)))
  {
    if d == Sn0 {} else {}
  }

  lemma WokenByView<B, K>(d: Side, v: Dev<B, K>, w: Dev<B, K>)
    ensures Compose(d, v, w).With(d, Restarted(Compose(d, v, w).Get(d))) == Compose(d, Restarted(v), w)
  {
    if d == Sn0 {} else {}
  }

  lemma TakeBufferByView<B, K>(d: Side, v: Dev<B, K>, w: Dev<B, K>)
    requires v.pool != []
    ensures Compose(d, v, w).Get(d).pool != []
    ensures TakeBuffer(Compose(d, v, w), d)
         == Compose(d, v.(pool := Init(v.pool), stopped := v.stopped || |v.pool| == 1), w)
  {
    if d == Sn0 {} else {}
  }

  lemma EnqueueByView<B, K>(d: Side, v: Dev<B, K>, w: Dev<B, K>, dest: Side, q: Queued<B>)
    ensures Enqueue(Compose(d, v, w), dest, q)
         == if dest == d then Compose(d, v.(queue := v.queue + [q]), w) else Compose(d, v, w.(queue := w.queue + [q]))
  {
    if d == Sn0 {} else {}
  }

  lemma AcceptByView<B, K>(d: Side, v: Dev<B, K>, w: Dev<B, K>, skb: K)
    ensures Accept(Compose(d, v, w), d, skb) == Compose(d, v.(skb := Some(skb)), w)
  {
    if d == Sn0 {} else {}
  }

  lemma HwDoneByView<B, K>(cfg: Config, d: Side, v: Dev<B, K>, w: Dev<B, K>, len: nat)
    ensures var raised := v.(txPacketLen := len, status := v.status.(tx := true));
            HwDone(cfg, Compose(d, v, w), d, len) ==
            if LocksUp(cfg, v.stats.txPackets) then Compose(d, raised.(stopped := true), w)
            else Interrupt(cfg, Compose(d, raised, w), d, true)
  {
    if d == Sn0 {} else {}
  }

  lemma NapiIsInterrupt<B, K>(cfg: Config, d: Side, v: Dev<B, K>, w: Dev<B, K>, alloc: bool)
    requires cfg.napi
    ensures var idle := v.(status := IDLE);
            var masked := if v.status.rx then idle.(rxIntEnabled := false, polling := true) else idle;
            Interrupt(cfg, Compose(d, v, w), d, alloc) == Compose(d, if v.status.tx then TxDone(masked) else masked, w)
  {
    if d == Sn0 {} else {}
  }

  /** struct snull_priv with the part of struct net_device that the driver uses. The sequence
      delivered stands for what netif_rx and netif_receive_skb were given, freed for what
      dev_kfree_skb was. The ghost stacks are the two lists, top last. */
  class Device {
    const side: Side
    var stats: Stats
    var status: Status
    var ppool: Packet?
    var rxQueue: Packet?
    var rxIntEnabled: bool
    var polling: bool
    var stopped: bool
    var txPacketLen: nat
    var skb: SkBuff?
    var delivered: seq<seq<byte>>
    var freed: seq<SkBuff>
    ghost var lost: seq<Frame>
    ghost var pool: seq<Packet>
    ghost var rx: seq<Packet>
    ghost var queue: seq<Queued<Packet>>

    constructor (side: Side)
      ensures this.side == side && View() == Fresh([])
      ensures ppool == null && rxQueue == null && rx == []
    {
      this.side := side;
      stats, status := Stats(0, 0, 0, 0, 0, 0), IDLE;
      ppool, rxQueue := null, null;
      rxIntEnabled, polling, stopped := true, false, false;
      txPacketLen, skb := 0, null;
      delivered, freed := [], [];
      lost, pool, rx, queue := [], [], [], [];
    }

    /** The device as the model sees it. */
    ghost function View(): Dev<Packet, SkBuff>
      reads this
    {
      Dev(pool, queue, status, rxIntEnabled, polling, stopped, txPacketLen,
          if skb == null then None else Some(skb as SkBuff), stats, delivered, lost, freed)
    }

    ghost predicate PoolOk()
      reads `ppool, `pool, pool
    {
      && Linked(ppool, pool, InPool(side))
      && forall i | 0 <= i < |pool| :: pool[i].dev == this
    }

    ghost predicate QueueOk()
      reads `rxQueue, `rx, `queue, rx
    {
      Linked(rxQueue, rx, InQueue(side)) && Described(queue, rx)
    }

    /** Both lists are in order and made of the given packets. */
    ghost predicate Ok(packets: set<Packet>)
      reads `ppool, `pool, `rxQueue, `rx, `queue, packets
    {
      && (forall p | p in pool :: p in packets)
      && (forall p | p in rx :: p in packets)
      && PoolOk() && QueueOk()
    }

    // ---------------------------------------------------------- the lists of one device

    method PopPool() returns (pkt: Packet)
      requires PoolOk() && pool != []
      modifies `ppool, `pool, `stopped, ppool`place
      ensures PoolOk() && pool == Init(old(pool))
      ensures View() == old(View()).(pool := Init(old(pool)), stopped := old(stopped) || pool == [])
      ensures pkt == old(ppool) && pkt == Last(old(pool)) && pkt.place == InHand && pkt.dev == this
    {
      pkt := ppool;
      assert pkt == pool[|pool| - 1];
      assert |pool| > 1 ==> pkt.next == pool[|pool| - 2];
      ppool := pkt.next;
      pool := Init(pool);
      pkt.place := InHand;
      if ppool == null {
        stopped := true;
      }
    }

    method PushPool(pkt: Packet)
      requires PoolOk() && pkt.place == InHand && pkt.dev == this
      modifies `ppool, `pool, pkt`next, pkt`place, pkt`height
      ensures PoolOk() && View() == old(View()).(pool := old(pool) + [pkt])
      ensures pkt.next == old(ppool) && pkt.place == InPool(side)
    {
      pkt.next := ppool;
      ppool := pkt;
      pkt.place, pkt.height := InPool(side), |pool|;
      pool := pool + [pkt];
    }

    method PushQueue(pkt: Packet, ghost f: Frame)
      requires QueueOk() && pkt.place == InHand && pkt.content == f
      modifies `rxQueue, `rx, `queue, pkt`next, pkt`place, pkt`height
      ensures View() == old(View()).(queue := queue)
      ensures queue == old(queue) + [Queued(pkt, pkt.dev.side, f)] && rx == old(rx) + [pkt]
      ensures QueueOk()
      ensures pkt.place == InQueue(side)
    {
      pkt.next := rxQueue;
      rxQueue := pkt;
      pkt.place, pkt.height := InQueue(side), |rx|;
      rx, queue := rx + [pkt], queue + [Queued(pkt, pkt.dev.side, f)];
      assert View() == old(View()).(queue := queue) by {
        hide Device.QueueOk, Linked, Described;
      }
      assert Linked(rxQueue, rx, InQueue(side)) by {
        hide Described;
      }
      assert Described(queue, rx) by {
        hide Linked;
      }
    }

    method PopQueue() returns (pkt: Packet)
      requires QueueOk() && queue != []
      modifies `rxQueue, `rx, `queue, rxQueue`place
      ensures View() == old(View()).(queue := queue)
      ensures pkt == old(rxQueue) && pkt.place == InHand && rx == Init(old(rx)) && pkt == Last(old(rx))
      ensures queue == Init(old(queue))
      ensures QueueOk()
      ensures var q := Last(old(queue)); pkt == q.buf && pkt.dev.side == q.owner && pkt.content == q.frame
    {
      pkt := rxQueue;
      assert pkt == rx[|rx| - 1];
      assert |rx| > 1 ==> pkt.next == rx[|rx| - 2];
      rxQueue := pkt.next;
      pkt.place := InHand;
      rx, queue := Init(rx), Init(queue);
      assert View() == old(View()).(queue := queue) by {
        hide Device.QueueOk, Linked, Described;
      }
    }

    // ---------------------------------------------------------- both devices

    /** The four lists of the two interfaces are in order. Each packet says where it is, so no
        packet is on two lists or on one list twice. */
    ghost predicate Pair(twin: Device, packets: set<Packet>)
      reads `ppool, `pool, `rxQueue, `rx, `queue, packets
      reads twin`ppool, twin`pool, twin`rxQueue, twin`rx, twin`queue
    {
      Ok(packets) && twin.Ok(packets) && twin.side == side.Twin() && Roster(this, twin, packets)
    }

    ghost function Both(twin: Device): Net<Packet, SkBuff>
      reads this, twin
    {
      Compose(side, View(), twin.View())
    }

    /** snull_get_tx_buffer */
    method GetTxBuffer(ghost twin: Device, ghost packets: set<Packet>) returns (pkt: Packet)
      requires Pair(twin, packets) && pool != []
      modifies `ppool, `pool, `stopped, packets`next, packets`place, packets`height
      ensures Pair(twin, packets) && Contents(packets) == old(Contents(packets)) && twin.View() == old(twin.View())
      ensures View() == old(View()).(pool := Init(old(pool)), stopped := old(stopped) || |old(pool)| == 1)
      ensures pkt == Last(old(pool)) && pkt in packets && pkt.place == InHand && pkt.dev == this
    {
      assert ppool == pool[|pool| - 1] && ppool !in twin.pool && ppool !in twin.rx && ppool !in rx;
      pkt := PopPool();
    }

    /** A packet in hand goes on top of its pool. */
    method PutPool(pkt: Packet, ghost twin: Device, ghost packets: set<Packet>)
      requires Pair(twin, packets) && pkt in packets && pkt.place == InHand && pkt.dev == this
      modifies `ppool, `pool, packets`next, packets`place, packets`height
      ensures Pair(twin, packets) && Contents(packets) == old(Contents(packets)) && twin.View() == old(twin.View())
      ensures View() == old(View()).(pool := old(pool) + [pkt])
      ensures pkt.next == null <==> old(pool) == []
    {
      assert pkt !in twin.pool && pkt !in twin.rx && pkt !in rx;
      PushPool(pkt);
    }

    /** netif_stop_queue and netif_wake_queue */
    method SetStopped(yes: bool, ghost twin: Device, ghost packets: set<Packet>)
      modifies `stopped
      ensures Pair(twin, packets) == old(Pair(twin, packets)) && Contents(packets) == old(Contents(packets))
      ensures View() == old(View()).(stopped := yes)
    {
      stopped := yes;
    }

    /** snull_release_buffer, this device being pkt->dev */
    method ReleaseBuffer(pkt: Packet, ghost twin: Device, ghost packets: set<Packet>)
      requires Pair(twin, packets) && pkt in packets && pkt.place == InHand && pkt.dev == this
      modifies `ppool, `pool, `stopped, packets`next, packets`place, packets`height
      ensures Pair(twin, packets) && Contents(packets) == old(Contents(packets)) && twin.View() == old(twin.View())
      ensures View() == old(View()).(pool := old(pool) + [pkt], stopped := old(stopped) && old(pool) != [])
    {
      PutPool(pkt, twin, packets);
      if stopped && pkt.next == null {
        SetStopped(false, twin, packets);
      }
    }

    /** snull_enqueue_buf */
    method EnqueueBuf(pkt: Packet, ghost f: Frame, ghost twin: Device, ghost packets: set<Packet>)
      requires Pair(twin, packets) && pkt in packets && pkt.place == InHand && pkt.content == f
      modifies `rxQueue, `rx, `queue, packets`next, packets`place, packets`height
      ensures Pair(twin, packets) && Contents(packets) == old(Contents(packets)) && twin.View() == old(twin.View())
      ensures queue == old(queue) + [Queued(pkt, pkt.dev.side, f)] && View() == old(View()).(queue := queue)
    {
      assert pkt !in twin.pool && pkt !in twin.rx && pkt !in pool;
      PushQueue(pkt, f);
    }

    /** The head of a list that is not empty. */
    method TakeHead(ghost twin: Device, ghost packets: set<Packet>) returns (pkt: Packet)
      requires Pair(twin, packets) && queue != []
      modifies `rxQueue, `rx, `queue, packets`next, packets`place, packets`height
      ensures Pair(twin, packets) && Contents(packets) == old(Contents(packets)) && twin.View() == old(twin.View())
      ensures View() == old(View()).(queue := Init(old(queue)))
      ensures var q := Last(old(queue));
              && pkt == q.buf && pkt.dev.side == q.owner
              && pkt in packets && pkt.place == InHand && pkt.content == q.frame
    {
      assert rxQueue == rx[|rx| - 1] && rxQueue !in pool && rxQueue !in twin.pool && rxQueue !in twin.rx;
      pkt := PopQueue();
    }

    /** snull_dequeue_buf */
    method DequeueBuf(ghost twin: Device, ghost packets: set<Packet>) returns (pkt: Packet?)
      requires Pair(twin, packets)
      modifies `rxQueue, `rx, `queue, packets`next, packets`place, packets`height
      ensures Pair(twin, packets) && Contents(packets) == old(Contents(packets)) && twin.View() == old(twin.View())
      ensures pkt == null <==> old(queue) == []
      ensures View() == if pkt == null then old(View()) else old(View()).(queue := Init(old(queue)))
      ensures pkt != null ==>
                && var q := Last(old(queue));
                && pkt == q.buf && pkt.dev.side == q.owner
                && pkt in packets && pkt.place == InHand && pkt.content == q.frame
    {
      if rxQueue == null {
        return null;
      }
      pkt := TakeHead(twin, packets);
    }

    /** The four lists have no packet twice and no packet in common. */
    lemma NoPacketTwice(twin: Device, packets: set<Packet>)
      requires Pair(twin, packets)
      ensures forall i, j | 0 <= i < j < |pool| :: pool[i] != pool[j]
      ensures forall i, j | 0 <= i < j < |rx| :: rx[i] != rx[j]
      ensures forall p | p in packets ::
                && !(p in pool && p in rx)
                && !(p in pool && (p in twin.pool || p in twin.rx))
                && !(p in rx && (p in twin.pool || p in twin.rx))
    {
    }

    lemma HeadIffQueue(twin: Device, packets: set<Packet>)
      requires Pair(twin, packets)
      ensures twin != this && (rxQueue == null <==> queue == [])
    {
    }

    lemma PairSwap(twin: Device, packets: set<Packet>)
      requires Pair(twin, packets)
      ensures twin.Pair(this, packets)
    {
    }

    /** A new packet in hand joins the roster. */
    lemma PairGrow(pkt: Packet, twin: Device, packets: set<Packet>)
      requires Pair(twin, packets) && pkt.dev == this
      requires pkt.data.Length == ETH_DATA_LEN && forall p | p in packets :: p.data != pkt.data
      ensures Pair(twin, packets + {pkt})
    {
    }

    lemma EmptyPair(twin: Device)
      requires twin.side == side.Twin()
      requires ppool == null && rxQueue == null && pool == [] && rx == [] && queue == []
      requires twin.ppool == null && twin.rxQueue == null && twin.pool == [] && twin.rx == [] && twin.queue == []
      ensures Pair(twin, {}) && Contents({})
    {
    }

    /** kmalloc of a packet for this device. */
    method NewPacket(ghost twin: Device, ghost packets: set<Packet>) returns (pkt: Packet)
      requires Contents(packets)
      ensures fresh(pkt) && fresh(pkt.data) && pkt.place == InHand && pkt.dev == this
      ensures pkt.data.Length == ETH_DATA_LEN && forall p | p in packets :: p.data != pkt.data
      ensures Pair(twin, packets) == old(Pair(twin, packets)) && Contents(packets + {pkt})
    {
      pkt := new Packet(this);
    }

    method StackPacket(pkt: Packet, ghost twin: Device, ghost packets: set<Packet>)
      requires Pair(twin, packets) && Contents(packets + {pkt}) && pkt.place == InHand && pkt.dev == this
      requires pkt.data.Length == ETH_DATA_LEN && forall p | p in packets :: p.data != pkt.data
      modifies `ppool, `pool, packets`next, packets`place, packets`height, pkt`next, pkt`place, pkt`height
      ensures Pair(twin, packets + {pkt}) && Contents(packets + {pkt})
      ensures View() == old(View()).(pool := old(pool) + [pkt])
    {
      PairGrow(pkt, twin, packets);
      PutPool(pkt, twin, packets + {pkt});
    }

    /** One iteration of snull_setup_pool: a new packet on top of the pool. */
    method AddPacket(ghost twin: Device, ghost packets: set<Packet>) returns (pkt: Packet)
      requires Pair(twin, packets) && Contents(packets)
      modifies `ppool, `pool, packets`next, packets`place, packets`height
      ensures fresh(pkt) && fresh(pkt.data)
      ensures Pair(twin, packets + {pkt}) && Contents(packets + {pkt})
      ensures View() == old(View()).(pool := old(pool) + [pkt])
    {
      pkt := NewPacket(twin, packets);
      StackPacket(pkt, twin, packets);
    }

    // ---------------------------------------------------------- reception

    /** snull_rx, and what snull_poll does with a packet off the list. */
    method HandUp(cfg: Config, pkt: Packet, ghost f: Frame, alloc: bool, ghost twin: Device, ghost packets: set<Packet>)
      requires pkt.Holds() && pkt.content == f
      modifies `stats, `delivered, `lost
      ensures Pair(twin, packets) == old(Pair(twin, packets)) && Contents(packets) == old(Contents(packets))
      ensures View() == Account(old(View()), f, Payload(cfg, f), alloc)
    {
      if !alloc {
        CountDrop(f, twin, packets);
        return;
      }
      var payload := pkt.BuildSkb(cfg, f);
      CountRx(payload, pkt.datalen, twin, packets);
    }

    method CountDrop(ghost f: Frame, ghost twin: Device, ghost packets: set<Packet>)
      modifies `stats, `lost
      ensures Pair(twin, packets) == old(Pair(twin, packets)) && Contents(packets) == old(Contents(packets))
      ensures View() == Account(old(View()), f, [], false)
    {
      stats, lost := stats.(rxDropped := stats.rxDropped + 1), lost + [f];
    }

    method CountRx(payload: seq<byte>, len: nat, ghost twin: Device, ghost packets: set<Packet>)
      modifies `stats, `delivered
      ensures Pair(twin, packets) == old(Pair(twin, packets)) && Contents(packets) == old(Contents(packets))
      ensures View() == old(View()).(
                stats := old(stats).(rxPackets := old(stats).rxPackets + 1, rxBytes := old(stats).rxBytes + len),
                delivered := old(delivered) + [payload])
    {
      stats := stats.(rxPackets := stats.rxPackets + 1, rxBytes := stats.rxBytes + len);
      delivered := delivered + [payload];
    }

    /** snull_release_buffer through pkt->dev, whichever of the two interfaces that is. */
    method SendHome(pkt: Packet, ghost twin: Device, ghost packets: set<Packet>)
      requires Pair(twin, packets) && pkt in packets && pkt.place == InHand
      modifies this`ppool, this`pool, this`stopped, twin`ppool, twin`pool, twin`stopped
      modifies packets`next, packets`place, packets`height
      ensures Pair(twin, packets) && Contents(packets) == old(Contents(packets))
      ensures Both(twin) == SnullModel.ReleaseBuffer(old(Both(twin)), pkt.dev.side, pkt)
    {
      pkt.dev.ReleaseBuffer(pkt, if pkt.dev == this then twin else this, packets);
      if side == Sn0 {} else {}
    }

    /** The regular handler's reception: the head of the list comes off and goes up, and its
        buffer stays in hand. */
    method TakeAndRx(cfg: Config, alloc: bool, ghost twin: Device, ghost packets: set<Packet>) returns (pkt: Packet)
      requires Pair(twin, packets) && Contents(packets) && queue != []
      modifies `rxQueue, `rx, `queue, `stats, `delivered, `lost, packets`next, packets`place, packets`height
      ensures Pair(twin, packets) && Contents(packets) && twin.View() == old(twin.View())
      ensures var q := Last(old(queue));
              && View() == Account(old(View()).(queue := Init(old(queue))), q.frame, Payload(cfg, q.frame), alloc)
              && pkt == q.buf && pkt.dev.side == q.owner && pkt in packets && pkt.place == InHand
    {
      ghost var f := Last(queue).frame;
      pkt := TakeHead(twin, packets);
      HandUp(cfg, pkt, f, alloc, twin, packets);
    }

    /** A transmission is over: count it and free the skb. */
    method CountTx(ghost twin: Device, ghost packets: set<Packet>)
      modifies `stats, `freed
      ensures Pair(twin, packets) == old(Pair(twin, packets)) && Contents(packets) == old(Contents(packets))
      ensures View() == TxDone(old(View()))
    {
      stats := stats.(txPackets := stats.txPackets + 1, txBytes := stats.txBytes + txPacketLen);
      freed := freed + if skb == null then [] else [skb];
    }

    /** The status word is read and cleared. */
    method ReadStatus(ghost twin: Device, ghost packets: set<Packet>) returns (statusword: Status)
      modifies `status
      ensures Pair(twin, packets) == old(Pair(twin, packets)) && Contents(packets) == old(Contents(packets))
      ensures View() == old(View()).(status := IDLE) && statusword == old(status)
    {
      statusword := status;
      status := IDLE;
    }

    // ---------------------------------------------------------- interrupts

    /** snull_regular_interrupt as far as it holds the lock. */
    method Serve(cfg: Config, alloc: bool, ghost twin: Device, ghost packets: set<Packet>) returns (pkt: Packet?)
      requires Pair(twin, packets) && Contents(packets)
      modifies this, packets`next, packets`place, packets`height
      ensures Pair(twin, packets) && Contents(packets) && twin.View() == old(twin.View())
      ensures View() == Served(cfg, old(View()), alloc)
      ensures pkt != null <==> old(status).rx && old(queue) != []
      ensures pkt != null ==>
                && var q := Last(old(queue));
                && pkt == q.buf && pkt.dev.side == q.owner && pkt in packets && pkt.place == InHand
    {
      hide Device.Pair, Contents;
      var statusword := ReadStatus(twin, packets);
      HeadIffQueue(twin, packets);
      pkt := null;
      if statusword.rx && rxQueue != null {
        pkt := TakeAndRx(cfg, alloc, twin, packets);
      }
      if statusword.tx {
        CountTx(twin, packets);
      }
    }

    /** snull_regular_interrupt */
    method RegularInterrupt(cfg: Config, alloc: bool, ghost twin: Device, ghost packets: set<Packet>)
      requires Pair(twin, packets) && Contents(packets) && !cfg.napi
      modifies this, twin`ppool, twin`pool, twin`stopped
      modifies packets`next, packets`place, packets`height
      ensures Pair(twin, packets) && Contents(packets)
      ensures Both(twin) == SnullModel.Interrupt(cfg, old(Both(twin)), side, alloc)
    {
      ServedIsInterrupt(cfg, side, View(), twin.View(), alloc);
      var pkt := Serve(cfg, alloc, twin, packets);
      if pkt != null {
        SendHome(pkt, twin, packets);
      }
    }

    /** Receive interrupts go off and a poll is scheduled. */
    method ScheduleRx(ghost twin: Device, ghost packets: set<Packet>)
      modifies `rxIntEnabled, `polling
      ensures Pair(twin, packets) == old(Pair(twin, packets)) && Contents(packets) == old(Contents(packets))
      ensures View() == old(View()).(rxIntEnabled := false, polling := true)
    {
      rxIntEnabled := false;
      polling := true;
    }

    /** snull_napi_interrupt */
    method NapiInterrupt(cfg: Config, ghost alloc: bool, ghost twin: Device, ghost packets: set<Packet>)
      requires Pair(twin, packets) && Contents(packets) && cfg.napi
      modifies `status, `rxIntEnabled, `polling, `stats, `freed
      ensures Pair(twin, packets) && Contents(packets)
      ensures Both(twin) == SnullModel.Interrupt(cfg, old(Both(twin)), side, alloc)
    {
      NapiIsInterrupt(cfg, side, View(), twin.View(), alloc);
      var statusword := ReadStatus(twin, packets);
      if statusword.rx {
        ScheduleRx(twin, packets);
      }
      if statusword.tx {
        CountTx(twin, packets);
      }
    }

    /** The function pointer snull_interrupt. */
    method Interrupt(cfg: Config, alloc: bool, ghost twin: Device, ghost packets: set<Packet>)
      requires Pair(twin, packets) && Contents(packets)
      modifies this, twin`ppool, twin`pool, twin`stopped
      modifies packets`next, packets`place, packets`height
      ensures Pair(twin, packets) && Contents(packets)
      ensures Both(twin) == SnullModel.Interrupt(cfg, old(Both(twin)), side, alloc)
    {
      if cfg.napi {
        NapiInterrupt(cfg, alloc, twin, packets);
      } else {
        RegularInterrupt(cfg, alloc, twin, packets);
      }
    }

    // ---------------------------------------------------------- poll

    /** Polling is over and receive interrupts come on again. */
    method CompleteRx(ghost twin: Device, ghost packets: set<Packet>)
      modifies `rxIntEnabled, `polling
      ensures Pair(twin, packets) == old(Pair(twin, packets)) && Contents(packets) == old(Contents(packets))
      ensures View() == old(View()).(polling := false, rxIntEnabled := true)
    {
      polling := false;
      rxIntEnabled := true;
    }

    /** The body of the loop of snull_poll. */
    method PollOne(cfg: Config, alloc: bool, ghost twin: Device, ghost packets: set<Packet>)
      requires Pair(twin, packets) && Contents(packets) && cfg.napi && queue != []
      modifies this, twin`ppool, twin`pool, twin`stopped
      modifies packets`next, packets`place, packets`height
      ensures Pair(twin, packets) && Contents(packets)
      ensures Both(twin) == ReceiveOne(cfg, old(Both(twin)), side, alloc)
    {
      ghost var f := Last(queue).frame;
      var pkt := DequeueBuf(twin, packets);
      HandUp(cfg, pkt, f, alloc, twin, packets);
      SendHome(pkt, twin, packets);
      if side == Sn0 {} else {}
    }

    /** snull_poll: the budget and the quota come in, what is left of them goes out. */
    method Poll(cfg: Config, budget: int, quota: int, allocs: seq<bool>, ghost twin: Device, ghost packets: set<Packet>)
      returns (ret: int, budgetLeft: int, quotaLeft: int)
      requires Pair(twin, packets) && Contents(packets) && cfg.napi
      modifies this, twin`ppool, twin`pool, twin`stopped
      modifies packets`next, packets`place, packets`height
      ensures Pair(twin, packets) && Contents(packets)
      ensures Both(twin) == SnullModel.Poll(cfg, old(Both(twin)), side, Min(quota, budget), allocs)
      ensures ret == (if queue == [] then 0 else 1)
      ensures budget - budgetLeft == quota - quotaLeft
           == PollLoop(cfg, old(Both(twin)), side, 0, Min(quota, budget), allocs).1
    {
      var npackets, most, rest := 0, Min(quota, budget), allocs;
      while npackets < most && rxQueue != null
        invariant Pair(twin, packets) && Contents(packets)
        invariant PollLoop(cfg, Both(twin), side, npackets, most, rest)
               == PollLoop(cfg, old(Both(twin)), side, 0, most, allocs)
        decreases |queue|
      {
        PollOne(cfg, NextAlloc(rest), twin, packets);
        npackets := if NextAlloc(rest) then npackets + 1 else npackets;
        rest := LaterAllocs(rest);
      }
      budgetLeft, quotaLeft := budget - npackets, quota - npackets;
      if rxQueue == null {
        CompleteRx(twin, packets);
        return 0, budgetLeft, quotaLeft;
      }
      return 1, budgetLeft, quotaLeft;
    }

    // ---------------------------------------------------------- transmission

    /** A packet in hand is on no list, so filling it disturbs none. */
    method Fill(pkt: Packet, buf: array<byte>, len: nat, ghost twin: Device, ghost packets: set<Packet>)
      requires Pair(twin, packets) && Contents(packets) && pkt in packets && pkt.place == InHand
      requires len <= buf.Length && len <= ETH_DATA_LEN && pkt.data != buf
      modifies pkt`datalen, pkt`content, pkt.data
      ensures Pair(twin, packets) && Contents(packets) && pkt.content == buf[..len]
    {
      pkt.CopyIn(buf, len);
    }

    method GetFilled(buf: array<byte>, len: nat, ghost twin: Device, ghost packets: set<Packet>) returns (pkt: Packet)
      requires Pair(twin, packets) && Contents(packets) && pool != []
      requires len <= buf.Length && len <= ETH_DATA_LEN && forall p | p in packets :: p.data != buf
      modifies `ppool, `pool, `stopped, packets, set p | p in packets :: p.data
      ensures Pair(twin, packets) && Contents(packets)
      ensures pkt == Last(old(pool)) && pkt in packets && pkt.place == InHand && pkt.dev == this
      ensures pkt.content == old(buf[..len])
      ensures Both(twin) == TakeBuffer(old(Both(twin)), side)
    {
      TakeBufferByView(side, View(), twin.View());
      pkt := GetTxBuffer(twin, packets);
      Fill(pkt, buf, len, twin, packets);
    }

    /** A buffer of this device, filled, goes on the destination's receive list. */
    method Post(dest: Device, buf: array<byte>, len: nat, ghost f: Frame,
                ghost twin: Device, ghost packets: set<Packet>)
      requires Pair(twin, packets) && Contents(packets) && pool != [] && (dest == this || dest == twin)
      requires len <= buf.Length && buf[..len] == f && forall p | p in packets :: p.data != buf
      modifies this`ppool, this`pool, this`stopped, dest`rxQueue, dest`rx, dest`queue
      modifies packets, set p | p in packets :: p.data
      ensures Pair(twin, packets) && Contents(packets)
      ensures Both(twin) == Enqueue(TakeBuffer(old(Both(twin)), side), dest.side, Queued(Last(old(pool)), side, f))
    {
      var pkt := GetFilled(buf, len, twin, packets);
      EnqueueByView(side, View(), twin.View(), dest.side, Queued(pkt, side, f));
      dest.EnqueueBuf(pkt, f, if dest == this then twin else this, packets);
    }

    method SetStatus(word: Status, ghost twin: Device, ghost packets: set<Packet>)
      modifies `status
      ensures Pair(twin, packets) == old(Pair(twin, packets)) && Contents(packets) == old(Contents(packets))
      ensures View() == old(View()).(status := word)
    {
      status := word;
    }

    /** The simulated receive interrupt, on the destination. */
    method SignalRx(cfg: Config, alloc: bool, ghost twin: Device, ghost packets: set<Packet>)
      requires Pair(twin, packets) && Contents(packets)
      modifies this, twin`ppool, twin`pool, twin`stopped
      modifies packets`next, packets`place, packets`height
      ensures Pair(twin, packets) && Contents(packets)
      ensures Both(twin) == RaiseRx(cfg, old(Both(twin)), side, alloc)
    {
      if rxIntEnabled {
        SetStatus(status.(rx := true), twin, packets);
        Interrupt(cfg, alloc, twin, packets);
      }
      if side == Sn0 {} else {}
    }

    /** The length of the frame is noted and the transmit bit raised. */
    method RaiseTxBit(len: nat, ghost twin: Device, ghost packets: set<Packet>)
      modifies `txPacketLen, `status
      ensures Pair(twin, packets) == old(Pair(twin, packets)) && Contents(packets) == old(Contents(packets))
      ensures View() == old(View()).(txPacketLen := len, status := old(status).(tx := true))
    {
      txPacketLen := len;
      status := status.(tx := true);
    }

    /** The simulated end of transmission, or its loss. */
    method SignalTx(cfg: Config, len: nat, ghost twin: Device, ghost packets: set<Packet>)
      requires Pair(twin, packets) && Contents(packets)
      modifies this, twin`ppool, twin`pool, twin`stopped
      modifies packets`next, packets`place, packets`height
      ensures Pair(twin, packets) && Contents(packets)
      ensures Both(twin) == HwDone(cfg, old(Both(twin)), side, len)
    {
      hide LocksUp;
      HwDoneByView(cfg, side, View(), twin.View(), len);
      RaiseTxBit(len, twin, packets);
      if LocksUp(cfg, stats.txPackets) {
        SetStopped(true, twin, packets);
      } else {
        Interrupt(cfg, true, twin, packets);
      }
    }

    /** The header edits of snull_hw_tx, which also decide where the frame goes. */
    method EditFrame(cfg: Config, buf: array<byte>, len: nat, ghost twin: Device, ghost packets: set<Packet>)
      returns (loops: bool)
      requires len <= buf.Length && ValidFrame(buf[..len]) && forall p | p in packets :: p.data != buf
      modifies buf
      ensures Pair(twin, packets) == old(Pair(twin, packets)) && Contents(packets) == old(Contents(packets))
      ensures buf[..len] == Rewrite(cfg.variant, old(buf[..len])) && buf[len..] == old(buf[len..])
      ensures Dest(cfg.variant, side, old(buf[..len])) == if loops then side else side.Twin()
    {
      if cfg.variant == Ldd3 {
        ToggleOctets(buf, len);
        return false;
      }
      var kind := Classify(buf[..len]);
      EditPing(buf, len, kind);
      return !kind.Other?;
    }

    /** snull_hw_tx for a packet that is not too short. */
    method Launch(cfg: Config, buf: array<byte>, len: nat, ghost f: Frame, alloc: bool,
                  twin: Device, ghost packets: set<Packet>)
      requires Pair(twin, packets) && Contents(packets) && pool != []
      requires len <= buf.Length && buf[..len] == f && forall p | p in packets :: p.data != buf
      modifies buf, this, twin, packets, set p | p in packets :: p.data
      ensures Pair(twin, packets) && Contents(packets)
      ensures Both(twin) == HwDone(cfg, HwSend(cfg, old(Both(twin)), side, f, alloc), side, len)
      ensures buf[..len] == Rewrite(cfg.variant, f) && buf[len..] == old(buf[len..])
    {
      var loops := EditFrame(cfg, buf, len, twin, packets);
      var dest := if loops then this else twin;
      Post(dest, buf, len, Rewrite(cfg.variant, f), twin, packets);
      dest.SignalRx(cfg, alloc, if loops then twin else this, packets);
      SignalTx(cfg, len, twin, packets);
    }

    /** snull_hw_tx */
    method HwTx(cfg: Config, buf: array<byte>, len: nat, alloc: bool, twin: Device, ghost packets: set<Packet>)
      requires Pair(twin, packets) && Contents(packets)
      requires len <= buf.Length && forall p | p in packets :: p.data != buf
      requires len < ETH_HLEN + 20 || (ValidFrame(buf[..len]) && pool != [])
      modifies buf, this, twin, packets, set p | p in packets :: p.data
      ensures Pair(twin, packets) && Contents(packets)
      ensures len < ETH_HLEN + 20 ==> Both(twin) == old(Both(twin)) && buf[..] == old(buf[..])
      ensures len >= ETH_HLEN + 20 ==>
                var f: Frame := old(buf[..len]);
                && Both(twin) == HwDone(cfg, HwSend(cfg, old(Both(twin)), side, f, alloc), side, len)
                && buf[..len] == Rewrite(cfg.variant, f) && buf[len..] == old(buf[len..])
    {
      if len < ETH_HLEN + 20 {
        return;
      }
      Launch(cfg, buf, len, buf[..len], alloc, twin, packets);
    }

    /** The skb is remembered, to be freed when its transmission is over. */
    method Remember(skb: SkBuff, ghost twin: Device, ghost packets: set<Packet>)
      modifies `skb
      ensures Pair(twin, packets) == old(Pair(twin, packets)) && Contents(packets) == old(Contents(packets))
      ensures View() == old(View()).(skb := Some(skb))
    {
      this.skb := skb;
    }

    /** snull_tx. A frame that needs no padding is rewritten in the skb itself. */
    method Tx(cfg: Config, skb: SkBuff, alloc: bool, twin: Device, ghost packets: set<Packet>)
      requires Pair(twin, packets) && Contents(packets) && pool != []
      requires ValidFrame(Pad(skb.data[..])) && forall p | p in packets :: p.data != skb.data
      modifies skb.data, this, twin, packets, set p | p in packets :: p.data
      ensures Pair(twin, packets) && Contents(packets)
      ensures Both(twin) == Transmit(cfg, old(Both(twin)), side, skb, old(skb.data[..]), alloc)
    {
      AcceptByView(side, View(), twin.View(), skb);
      ghost var f: Frame := Pad(skb.data[..]);
      var data := PadShort(skb.data);
      Remember(skb, twin, packets);
      assert data[..data.Length] == f;
      HwTx(cfg, data, data.Length, alloc, twin, packets);
    }

    method Restart(ghost twin: Device, ghost packets: set<Packet>)
      modifies `stats, `stopped
      ensures Pair(twin, packets) == old(Pair(twin, packets)) && Contents(packets) == old(Contents(packets))
      ensures View() == Restarted(old(View()))
    {
      stats := stats.(txErrors := stats.txErrors + 1);
      stopped := false;
    }

    /** snull_tx_timeout */
    method TxTimeout(cfg: Config, ghost twin: Device, ghost packets: set<Packet>)
      requires Pair(twin, packets) && Contents(packets)
      modifies this, twin`ppool, twin`pool, twin`stopped
      modifies packets`next, packets`place, packets`height
      ensures Pair(twin, packets) && Contents(packets)
      ensures Both(twin) == TimeOut(cfg, old(Both(twin)), side)
    {
      TimeOutByView(cfg, side, View(), twin.View());
      SetStatus(Status(false, true), twin, packets);
      Interrupt(cfg, true, twin, packets);
      WokenByView(side, View(), twin.View());
      Restart(twin, packets);
    }
  }
}
