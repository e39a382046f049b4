/** The two snull drivers as a state machine on values: two devices, their buffer pools and
    receive lists, and the entry points as run-to-completion steps. The heap program in
    SnullDevice and SnullDriver refines these functions; the theorems about runs of them are in
    SnullLedger and the modules that import it.

    Both linked lists are stacks, written here with the head of the C list last. The type B
    is the identity of a packet buffer, the type K that of an sk_buff. */
module SnullModel {
  import opened Bytes
  import opened Frames

  datatype Side = Sn0 | Sn1 {
    function Twin(): Side {
      if this == Sn0 then Sn1 else Sn0
    }
  }

  datatype Variant = Ldd3 | Ping

  /** Module parameters: which of the two sources, use_napi, lockup. */
  datatype Config = Config(variant: Variant, napi: bool, lockup: nat)

  /** The two bits of the status word: SNULL_RX_INTR and SNULL_TX_INTR. */
  datatype Status = Status(rx: bool, tx: bool)

  const IDLE := Status(false, false)

  datatype Stats = Stats(
    rxPackets: nat, rxBytes: nat, rxDropped: nat,
    txPackets: nat, txBytes: nat, txErrors: nat)

  /** A buffer on a receive list, with the device it belongs to and what it holds. */
  datatype Queued<B> = Queued(buf: B, owner: Side, frame: Frame)

  datatype Dev<B, K> = Dev(
    pool: seq<B>,
    queue: seq<Queued<B>>,
    status: Status,
    rxIntEnabled: bool,
    polling: bool,              // netif_rx_schedule has been called, netif_rx_complete not yet
    stopped: bool,              // netif_stop_queue / netif_wake_queue
    txPacketLen: nat,
    skb: Option<K>,
    stats: Stats,
    delivered: seq<seq<byte>>,  // packets handed to the stack
    lost: seq<Frame>,           // frames dropped because no skb could be allocated
    freed: seq<K>)              // skbs given back to the kernel

  datatype Net<B, K> = Net(sn0: Dev<B, K>, sn1: Dev<B, K>) {
    ghost function Get(d: Side): Dev<B, K> {
      if d == Sn0 then sn0 else sn1
    }

    ghost function With(d: Side, v: Dev<B, K>): Net<B, K> {
      if d == Sn0 then this.(sn0 := v) else this.(sn1 := v)
    }
  }

  ghost function Rewrite(v: Variant, f: Frame): (g: Frame)
    ensures |g| == |f|
  {
    if v == Ldd3 then ToggleRewrite(f) else PingRewrite(f)
  }

  /** The destination rule: the twin, except that the newer driver loops pings back. */
  function Dest(v: Variant, d: Side, f: Frame): Side {
    if v == Ping && !Classify(f).Other? then d else d.Twin()
  }

  ghost function Receive(v: Variant, f: Frame): (p: seq<byte>)
    ensures |p| == |f| - ETH_HLEN
  {
    if v == Ldd3 then Strip(f) else PingReceive(f)
  }

  // ------------------------------------------------------------ buffers

  /** snull_get_tx_buffer */
  ghost function TakeBuffer<B, K>(s: Net<B, K>, d: Side): Net<B, K>
    requires s.Get(d).pool != []
  {
    var v := s.Get(d);
    var pool := Init(v.pool);
    s.With(d, v.(pool := pool, stopped := v.stopped || pool == []))
  }

  /** snull_release_buffer: back to the pool of pkt->dev, waking its queue on 0 -> 1. */
  ghost function ReleaseBuffer<B, K>(s: Net<B, K>, owner: Side, buf: B): Net<B, K> {
    var v := s.Get(owner);
    s.With(owner, v.(pool := v.pool + [buf], stopped := v.stopped && v.pool != []))
  }

  /** snull_enqueue_buf */
  ghost function Enqueue<B, K>(s: Net<B, K>, dest: Side, q: Queued<B>): Net<B, K> {
    var v := s.Get(dest);
    s.With(dest, v.(queue := v.queue + [q]))
  }

  // ------------------------------------------------------------ reception

  /** What the body of snull_rx, or of the poll loop, does once it knows whether
      dev_alloc_skb succeeded. */
  ghost function Account<B, K>(v: Dev<B, K>, f: Frame, payload: seq<byte>, alloc: bool): Dev<B, K> {
    if alloc then
      v.(stats := v.stats.(rxPackets := v.stats.rxPackets + 1, rxBytes := v.stats.rxBytes + |f|),
         delivered := v.delivered + [payload])
    else
      v.(stats := v.stats.(rxDropped := v.stats.rxDropped + 1), lost := v.lost + [f])
  }

  /** snull_poll hands up the plain packet; so does the LDD3 snull_rx, but not the newer one. */
  ghost function Payload(cfg: Config, f: Frame): (p: seq<byte>)
    ensures |p| == |f| - ETH_HLEN
  {
    if cfg.napi then Strip(f) else Receive(cfg.variant, f)
  }

  /** Take the head of d's receive list off and account for it; its buffer is in hand. */
  ghost function Dequeue<B, K>(cfg: Config, s: Net<B, K>, d: Side, alloc: bool): Net<B, K>
    requires s.Get(d).queue != []
  {
    var v := s.Get(d);
    var f := Last(v.queue).frame;
    s.With(d, Account(v.(queue := Init(v.queue)), f, Payload(cfg, f), alloc))
  }

  /** Take the head of d's receive list, account for it, and send the buffer home. */
  ghost function ReceiveOne<B, K>(cfg: Config, s: Net<B, K>, d: Side, alloc: bool): (t: Net<B, K>)
    requires s.Get(d).queue != []
    ensures t.Get(d).queue == Init(s.Get(d).queue) && t.Get(d.Twin()).queue == s.Get(d.Twin()).queue
  {
    var q := Last(s.Get(d).queue);
    ReleaseBuffer(Dequeue(cfg, s, d, alloc), q.owner, q.buf)
  }

  // ------------------------------------------------------------ interrupts

  ghost function TxDone<B, K>(v: Dev<B, K>): Dev<B, K> {
    v.(stats := v.stats.(txPackets := v.stats.txPackets + 1, txBytes := v.stats.txBytes + v.txPacketLen),
       freed := v.freed + if v.skb.Some? then [v.skb.value] else [])
  }

  /** The part both handlers share: clear the status word and serve a transmit interrupt. */
  ghost function Acknowledge<B, K>(s: Net<B, K>, d: Side): Net<B, K> {
    var v := s.Get(d).(status := IDLE);
    s.With(d, if s.Get(d).status.tx then TxDone(v) else v)
  }

  /** snull_regular_interrupt and snull_napi_interrupt: the status word is read and cleared,
      then its two bits are served. */
  ghost function Interrupt<B, K>(cfg: Config, s: Net<B, K>, d: Side, alloc: bool): Net<B, K> {
    var t := Acknowledge(s, d);
    if !s.Get(d).status.rx then t
    else if cfg.napi then t.With(d, t.Get(d).(rxIntEnabled := false, polling := true))
    else if t.Get(d).queue == [] then t
    else ReceiveOne(cfg, t, d, alloc)
  }

  // ------------------------------------------------------------ poll

  function NextAlloc(allocs: seq<bool>): bool {
    allocs == [] || allocs[0]
  }

  function LaterAllocs(allocs: seq<bool>): seq<bool> {
    if allocs == [] then [] else allocs[1..]
  }

  /** The loop of snull_poll. A failed allocation does not advance npackets, so it is the
      receive list that shrinks. */
  ghost function PollLoop<B, K>(cfg: Config, s: Net<B, K>, d: Side, npackets: int, quota: int, allocs: seq<bool>)
      : (r: (Net<B, K>, int))
    decreases |s.Get(d).queue|
  {
    if npackets < quota && s.Get(d).queue != [] then
      PollLoop(cfg, ReceiveOne(cfg, s, d, NextAlloc(allocs)), d,
               if NextAlloc(allocs) then npackets + 1 else npackets, quota, LaterAllocs(allocs))
    else
      (s, npackets)
  }

  ghost function Poll<B, K>(cfg: Config, s: Net<B, K>, d: Side, quota: int, allocs: seq<bool>): Net<B, K> {
    var t := PollLoop(cfg, s, d, 0, quota, allocs).0;
    if t.Get(d).queue == [] then t.With(d, t.Get(d).(polling := false, rxIntEnabled := true)) else t
  }

  // ------------------------------------------------------------ transmission

  /** The test that simulates a dropped transmit interrupt. */
  predicate LocksUp(cfg: Config, txPackets: nat) {
    cfg.lockup > 0 && (txPackets + 1) % cfg.lockup == 0
  }

  /** snull_hw_tx puts the rewritten frame in a buffer of d and on the receive list. */
  ghost function HwQueue<B, K>(cfg: Config, s: Net<B, K>, d: Side, f: Frame): Net<B, K>
    requires s.Get(d).pool != []
  {
    Enqueue(TakeBuffer(s, d), Dest(cfg.variant, d, f), Queued(Last(s.Get(d).pool), d, Rewrite(cfg.variant, f)))
  }

  /** The receive bit is raised and the interrupt simulated, if it is enabled. */
  ghost function RaiseRx<B, K>(cfg: Config, s: Net<B, K>, dest: Side, alloc: bool): Net<B, K> {
    var v := s.Get(dest);
    if v.rxIntEnabled
    then Interrupt(cfg, s.With(dest, v.(status := v.status.(rx := true))), dest, alloc)
    else s
  }

  /** snull_hw_tx up to and including the receive interrupt. */
  ghost function HwSend<B, K>(cfg: Config, s: Net<B, K>, d: Side, f: Frame, alloc: bool): Net<B, K>
    requires s.Get(d).pool != []
  {
    RaiseRx(cfg, HwQueue(cfg, s, d, f), Dest(cfg.variant, d, f), alloc)
  }

  /** The length of the frame is noted and the transmit bit raised. */
  ghost function RaiseTx<B, K>(s: Net<B, K>, d: Side, len: nat): Net<B, K> {
    var v := s.Get(d);
    s.With(d, v.(txPacketLen := len, status := v.status.(tx := true)))
  }

  /** The rest of snull_hw_tx: transmission done, or the interrupt lost. */
  ghost function HwDone<B, K>(cfg: Config, s: Net<B, K>, d: Side, len: nat): Net<B, K> {
    var t := RaiseTx(s, d, len);
    if LocksUp(cfg, t.Get(d).stats.txPackets)
    then t.With(d, t.Get(d).(stopped := true))
    else Interrupt(cfg, t, d, true)
  }

  /** snull_tx */
  ghost function Transmit<B, K>(cfg: Config, s: Net<B, K>, d: Side, skb: K, data: seq<byte>, alloc: bool): Net<B, K>
    requires s.Get(d).pool != [] && ValidFrame(Pad(data))
  {
    HwDone(cfg, HwSend(cfg, Accept(s, d, skb), d, Pad(data), alloc), d, |Pad(data)|)
  }

  /** The skb is remembered, to be freed when its transmission is over. */
  ghost function Accept<B, K>(s: Net<B, K>, d: Side, skb: K): Net<B, K> {
    s.With(d, s.Get(d).(skb := Some(skb)))
  }

  /** snull_tx_timeout */
  ghost function TimeOut<B, K>(cfg: Config, s: Net<B, K>, d: Side): Net<B, K> {
    var t := Interrupt(cfg, s.With(d, s.Get(d).(status := Status(false, true))), d, true);
    var v := t.Get(d);
    t.With(d, v.(stats := v.stats.(txErrors := v.stats.txErrors + 1), stopped := false))
  }

  // ------------------------------------------------------------ runs

  /** A call into the driver. Allocation outcomes come with the call. */
  datatype Event<K> =
    | Tx(side: Side, skb: K, data: seq<byte>, alloc: bool)
    | PollCall(side: Side, quota: int, allocs: seq<bool>)
    | Timeout(side: Side)
    | Open(side: Side)
    | Stop(side: Side)

  /** A device as snull_init and snull_open leave it. */
  ghost function Fresh<B, K>(pool: seq<B>): Dev<B, K> {
    Dev(pool, [], IDLE, true, false, false, 0, None, Stats(0, 0, 0, 0, 0, 0), [], [], [])
  }

  /** What the kernel does: it transmits only while the queue runs, polls only a NAPI driver,
      and opens, stops and fires the watchdog as it pleases. */
  ghost predicate KernelCalls<B, K>(cfg: Config, s: Net<B, K>, e: Event<K>) {
    match e
    case Tx(d, _, data, _) => !s.Get(d).stopped && ValidFrame(Pad(data))
    case PollCall(_, _, _) => cfg.napi
    case _ => true
  }

  /** A queue is restarted, by open or by the watchdog, only over a pool that is not empty. */
  ghost predicate Supplied<B, K>(s: Net<B, K>, e: Event<K>) {
    e.Timeout? || e.Open? ==> s.Get(e.side).pool != []
  }

  ghost predicate KernelMay<B, K>(cfg: Config, s: Net<B, K>, e: Event<K>) {
    KernelCalls(cfg, s, e) && Supplied(s, e)
  }

  /** The driver gets through the call: a transmission needs a buffer to put the frame in. */
  ghost predicate Executable<B, K>(s: Net<B, K>, e: Event<K>) {
    e.Tx? ==> s.Get(e.side).pool != [] && ValidFrame(Pad(e.data))
  }

  ghost predicate Legal<B, K>(cfg: Config, s: Net<B, K>, e: Event<K>) {
    KernelMay(cfg, s, e) && Executable(s, e)
  }

  ghost function Step<B, K>(cfg: Config, s: Net<B, K>, e: Event<K>): Net<B, K>
    requires Executable(s, e)
  {
    match e
    case Tx(d, skb, data, alloc) => Transmit(cfg, s, d, skb, data, alloc)
    case PollCall(d, quota, allocs) => Poll(cfg, s, d, quota, allocs)
    case Timeout(d) => TimeOut(cfg, s, d)
    case Open(d) => s.With(d, s.Get(d).(stopped := false))
    case Stop(d) => s.With(d, s.Get(d).(stopped := true))
  }

  /** A run of calls from the kernel that the driver gets through, with restarts wherever the
      kernel pleases. */
  ghost predicate CallRun<B, K>(cfg: Config, s: Net<B, K>, es: seq<Event<K>>)
    decreases |es|
  {
    es != [] ==>
      KernelCalls(cfg, s, es[0]) && Executable(s, es[0]) && CallRun(cfg, Step(cfg, s, es[0]), es[1..])
  }

  ghost function Run<B, K>(cfg: Config, s: Net<B, K>, es: seq<Event<K>>): Net<B, K>
    requires CallRun(cfg, s, es)
    decreases |es|
  {
    if es == [] then s else Run(cfg, Step(cfg, s, es[0]), es[1..])
  }

  /** Every restart of the run met a pool that was not empty. */
  ghost predicate RestartsSupplied<B, K>(cfg: Config, s: Net<B, K>, es: seq<Event<K>>)
    requires CallRun(cfg, s, es)
    decreases |es|
  {
    es != [] ==> Supplied(s, es[0]) && RestartsSupplied(cfg, Step(cfg, s, es[0]), es[1..])
  }

  ghost predicate LegalRun<B, K>(cfg: Config, s: Net<B, K>, es: seq<Event<K>>) {
    CallRun(cfg, s, es) && RestartsSupplied(cfg, s, es)
  }
}
