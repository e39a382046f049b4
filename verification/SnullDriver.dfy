/** The two snull interfaces together: setting up, and the calls the kernel makes. */
module SnullDriver {
  import opened SnullModel
  import opened SnullDevice
  import opened SnullFlow

  /** snull_devs with the module parameters, and the packets of both pools. */
  class Snull {
    const cfg: Config
    const sn0: Device
    const sn1: Device
    ghost var packets: set<Packet>

    ghost predicate Valid()
      reads this, sn0, sn1, packets, set p | p in packets :: p.data
    {
      sn0.side == Sn0 && sn1.side == Sn1 && sn0.Pair(sn1, packets) && Contents(packets)
    }

    ghost function Model(): Net<Packet, SkBuff>
      reads sn0, sn1
    {
      Net(sn0.View(), sn1.View())
    }

    /** Two interfaces as module initialisation and snull_open leave them. A pool has poolSize
        packets, or as many as allocations came before the first that failed; allocations past
        the end of the list succeed. */
    constructor (cfg: Config, poolSize: nat, allocs0: seq<bool>, allocs1: seq<bool>)
      ensures Valid() && this.cfg == cfg
      ensures Model() == Opened(sn0.pool, sn1.pool)
      ensures |sn0.pool| <= poolSize && |sn1.pool| <= poolSize
      ensures forall i | 0 <= i < |sn0.pool| && i < |allocs0| :: allocs0[i]
      ensures forall i | 0 <= i < |sn1.pool| && i < |allocs1| :: allocs1[i]
      ensures |sn0.pool| < poolSize ==> |sn0.pool| < |allocs0| && !allocs0[|sn0.pool|]
      ensures |sn1.pool| < poolSize ==> |sn1.pool| < |allocs1| && !allocs1[|sn1.pool|]
    {
      hide Device.Pair, Contents;
      this.cfg := cfg;
      var v := new Device(Sn0);
      var w := new Device(Sn1);
      v.EmptyPair(w);
      ghost var mine := SetupPool(v, poolSize, allocs0, w, {});
      v.PairSwap(w, mine);
      ghost var all := SetupPool(w, poolSize, allocs1, v, mine);
      w.PairSwap(v, all);
      sn0, sn1, packets := v, w, all;
    }

    /** snull_setup_pool: allocate until the pool is full or kmalloc fails. */
    static method SetupPool(v: Device, poolSize: nat, allocs: seq<bool>, ghost twin: Device, ghost packets: set<Packet>)
      returns (ghost all: set<Packet>)
      requires v.Pair(twin, packets) && Contents(packets) && v.pool == []
      modifies v`ppool, v`pool, packets`next, packets`place, packets`height
      ensures packets <= all && fresh(all - packets) && v.Pair(twin, all) && Contents(all)
      ensures v.View() == old(v.View()).(pool := v.pool)
      ensures |v.pool| <= poolSize && forall i | 0 <= i < |v.pool| && i < |allocs| :: allocs[i]
      ensures |v.pool| < poolSize ==> |v.pool| < |allocs| && !allocs[|v.pool|]
    {
      hide Device.Pair, Contents;
      var rest, i := allocs, 0;
      all := packets;
      while i < poolSize
        invariant i == |v.pool| && i <= poolSize
        invariant packets <= all && fresh(all - packets) && v.Pair(twin, all) && Contents(all)
        invariant v.View() == old(v.View()).(pool := v.pool)
        invariant rest == if i <= |allocs| then allocs[i..] else []
        invariant forall k | 0 <= k < i && k < |allocs| :: allocs[k]
      {
        if !NextAlloc(rest) {
          return;
        }
        rest := LaterAllocs(rest);
        var pkt := v.AddPacket(twin, all);
        all := all + {pkt};
        i := i + 1;
      }
    }

    /** A call from the kernel that the driver gets through is one step of the model. */
    method Handle(e: Event<SkBuff>)
      requires Valid() && KernelCalls(cfg, Model(), e) && Executable(Model(), e)
      requires e.Tx? ==> e.data == e.skb.data[..] && forall p | p in packets :: p.data != e.skb.data
      modifies sn0, sn1, packets, (set p | p in packets :: p.data), if e.Tx? then {e.skb.data} else {}
      ensures Valid() && Model() == Step(cfg, old(Model()), e)
    {
      hide Device.Pair, Contents;
      sn0.PairSwap(sn1, packets);
      var v, w := if e.side == Sn0 then sn0 else sn1, if e.side == Sn0 then sn1 else sn0;
      match e {
        case Tx(_, skb, _, alloc) => v.Tx(cfg, skb, alloc, w, packets);
        case PollCall(_, quota, allocs) =>
          var ret, budgetLeft, quotaLeft := v.Poll(cfg, quota, quota, allocs, w, packets);
        case Timeout(_) => v.TxTimeout(cfg, w, packets);
        case Open(_) => v.SetStopped(false, w, packets);
        case Stop(_) => v.SetStopped(true, w, packets);
      }
      v.PairSwap(w, packets);
    }

    /** The driver with the control invariant: no running queue over an empty pool, no packet
        stranded, and true receive counters. */
    ghost predicate Sound()
      reads this, sn0, sn1, packets, set p | p in packets :: p.data
    {
      Valid() && NetOk(cfg, Model())
    }

    /** A sound driver gets through every call the kernel makes, a transmission finding its
        buffer; and it stays sound exactly if it did not restart a queue over an empty pool. */
    method Serve(e: Event<SkBuff>)
      requires Sound() && KernelCalls(cfg, Model(), e)
      requires e.Tx? ==> e.data == e.skb.data[..] && forall p | p in packets :: p.data != e.skb.data
      modifies sn0, sn1, packets, (set p | p in packets :: p.data), if e.Tx? then {e.skb.data} else {}
      ensures Valid() && Model() == Step(cfg, old(Model()), e)
      ensures Sound() <==> Supplied(old(Model()), e)
    {
      hide Device.Pair, Contents, Step;
      ghost var was := Model();
      assert Executable(was, e);
      StepKeeps(cfg, was, e);
      if !Supplied(was, e) {
        RestartUnsafe(cfg, was, e);
      }
      Handle(e);
    }
  }
}
