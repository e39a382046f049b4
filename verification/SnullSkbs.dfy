/** When the driver frees each skb exactly once, in the face of lost transmit interrupts: a
    pending transmit bit may be served by the watchdog or by the other interface's next frame,
    must not be served twice, and must be served before the next skb is remembered. */
module SnullSkbs {
  import opened Bytes
  import opened Frames
  import opened SnullModel
  import opened SnullFlow
  import opened SnullAccounts

  /** The skb whose transmit interrupt is still to come. */
  ghost function Outstanding<B, K>(v: Dev<B, K>): seq<K> {
    if v.status.tx && v.skb.Some? then [v.skb.value] else []
  }

  ghost function Pending<B, K>(v: Dev<B, K>): nat {
    if v.status.tx then 1 else 0
  }

  /** The skbs of device w are those of v and these, each freed once or still outstanding. */
  ghost predicate SkbsBalanced<B, K>(v: Dev<B, K>, w: Dev<B, K>, skbs: seq<K>) {
    w.freed + Outstanding(w) == v.freed + Outstanding(v) + skbs
  }

  /** So many more packets are counted, or are going to be. */
  ghost predicate PacketsBalanced<B, K>(v: Dev<B, K>, w: Dev<B, K>, n: int) {
    w.stats.txPackets + Pending(w) == v.stats.txPackets + Pending(v) + n
  }

  ghost predicate Balanced<B, K>(v: Dev<B, K>, w: Dev<B, K>, skbs: seq<K>) {
    SkbsBalanced(v, w, skbs) && PacketsBalanced(v, w, |skbs|)
  }

  /** The skb a call hands to device e. */
  ghost function HandedIn<K>(ev: Event<K>, e: Side): seq<K> {
    if ev.Tx? && ev.side == e then [ev.skb] else []
  }

  /** The watchdog of e fires with no transmit interrupt outstanding. */
  ghost predicate IdleTimeout<B, K>(s: Net<B, K>, ev: Event<K>, e: Side) {
    ev.Timeout? && ev.side == e && !s.Get(e).status.tx
  }

  /** An skb is handed to e while the transmit interrupt for another one is outstanding. */
  ghost predicate EarlyTx<B, K>(s: Net<B, K>, ev: Event<K>, e: Side) {
    ev.Tx? && ev.side == e && s.Get(e).status.tx
  }

  /** Neither happens to a device that remembers an skb. */
  ghost predicate CleanCall<B, K>(s: Net<B, K>, ev: Event<K>, e: Side) {
    s.Get(e).skb.None? || !(IdleTimeout(s, ev, e) || EarlyTx(s, ev, e))
  }

  // ------------------------------------------------------------ one call

  ghost predicate SameSkbs<B, K>(v: Dev<B, K>, w: Dev<B, K>) {
    w.status.tx == v.status.tx && w.skb == v.skb && w.freed == v.freed && w.stats.txPackets == v.stats.txPackets
  }

  /** A pending transmit bit, if there is one, has been served. */
  ghost predicate Completed<B, K>(v: Dev<B, K>, w: Dev<B, K>) {
    && !w.status.tx && w.skb == v.skb
    && w.freed == v.freed + Outstanding(v)
    && w.stats.txPackets == v.stats.txPackets + Pending(v)
  }

  lemma CompletedBalanced<B, K>(v: Dev<B, K>, w: Dev<B, K>)
    requires Completed(v, w) || SameSkbs(v, w)
    ensures Balanced(v, w, [])
  {
    if Completed(v, w) {
      assert w.freed + [] == v.freed + Outstanding(v) + [];
    }
  }

  lemma AcknowledgeSkbs<B, K>(s: Net<B, K>, d: Side, e: Side)
    ensures var v, w := s.Get(e), Acknowledge(s, d).Get(e);
            && (if e == d then Completed(v, w) else w == v)
            && w.pool == v.pool && w.stopped == v.stopped
  {
    if e == d {
      assert s.Get(d).freed + [] == s.Get(d).freed;
    }
  }

  lemma InterruptSkbs<B, K>(cfg: Config, s: Net<B, K>, d: Side, alloc: bool, e: Side)
    ensures var v, w := s.Get(e), Interrupt(cfg, s, d, alloc).Get(e);
            if e == d then Completed(v, w) else SameSkbs(v, w)
  {
    var t := Acknowledge(s, d);
    AcknowledgeSkbs(s, d, e);
    if s.Get(d).status.rx && !cfg.napi && t.Get(d).queue != [] {
      hide ReceiveOne;
      ReceiveOneKeeps(cfg, t, d, alloc, e);
    } else if e == d {
    } else {
    }
  }

  lemma HwQueueSkbs<B, K>(cfg: Config, s: Net<B, K>, d: Side, f: Frame, e: Side)
    requires s.Get(d).pool != []
    ensures SameSkbs(s.Get(e), HwQueue(cfg, s, d, f).Get(e))
  {
    if d == e {} else {}
  }

  lemma RaisedSkbs<B, K>(v: Dev<B, K>, u: Dev<B, K>, w: Dev<B, K>)
    requires SameSkbs(v, u)
    ensures var raised := u.(status := u.status.(rx := true));
            (SameSkbs(u, w) || SameSkbs(raised, w) ==> SameSkbs(v, w))
            && (Completed(raised, w) ==> Completed(v, w))
  {
  }

  lemma HwSendSkbs<B, K>(cfg: Config, s: Net<B, K>, d: Side, f: Frame, alloc: bool, e: Side)
    requires s.Get(d).pool != []
    ensures var v, w := s.Get(e), HwSend(cfg, s, d, f, alloc).Get(e);
            SameSkbs(v, w) || (e == Dest(cfg.variant, d, f) && Completed(v, w))
  {
    hide Interrupt, HwQueue, Dest, Completed;
    var dest, u := Dest(cfg.variant, d, f), HwQueue(cfg, s, d, f);
    HwQueueSkbs(cfg, s, d, f, e);
    RaisedSkbs(s.Get(e), u.Get(e), RaiseRx(cfg, u, dest, alloc).Get(e));
    InterruptSkbs(cfg, u.With(dest, u.Get(dest).(status := u.Get(dest).status.(rx := true))), dest, alloc, e);
    if e == dest {} else {}
  }

  lemma HwDoneSkbs<B, K>(cfg: Config, s: Net<B, K>, d: Side, len: nat, e: Side)
    ensures var v, w := s.Get(e), HwDone(cfg, s, d, len).Get(e);
            if e != d then SameSkbs(v, w)
            else Completed(v.(status := v.status.(tx := true)), w) || SameSkbs(v.(status := v.status.(tx := true)), w)
  {
    hide Interrupt, LocksUp;
    InterruptSkbs(cfg, RaiseTx(s, d, len), d, true, e);
    if e == d {} else {}
  }

  /** The sender of a frame: w is what v has become when the new skb has been remembered and
      the transmit bit has been raised and served, or raised and lost. An skb that was
      outstanding is forgotten, and one interrupt is served for the two of them. */
  lemma SenderTally<B, K>(v: Dev<B, K>, u: Dev<B, K>, w: Dev<B, K>, skb: K)
    requires SameSkbs(v.(skb := Some(skb)), u) || (!v.status.tx && Completed(v.(skb := Some(skb)), u))
    requires Completed(u.(status := u.status.(tx := true)), w) || SameSkbs(u.(status := u.status.(tx := true)), w)
    ensures |w.freed| + |Outstanding(w)| == |v.freed| + 1
    ensures PacketsBalanced(v, w, if v.status.tx then 0 else 1)
    ensures Outstanding(v) == [] ==> SkbsBalanced(v, w, [skb])
  {
    assert u.freed == v.freed && u.freed + [skb] == v.freed + [] + [skb];
    assert w.freed + Outstanding(w) == v.freed + [skb];
  }

  /** What a transmission does to the sender's skbs: the new one is remembered, the transmit
      bit served early if the frame loops back, then raised and served, or raised and lost. */
  lemma TransmitSender<B, K>(cfg: Config, s: Net<B, K>, d: Side, skb: K, data: seq<byte>, alloc: bool)
    returns (u: Dev<B, K>)
    requires s.Get(d).pool != [] && ValidFrame(Pad(data))
    ensures var v, w := s.Get(d).(skb := Some(skb)), Transmit(cfg, s, d, skb, data, alloc).Get(d);
      && (SameSkbs(v, u) || (cfg.variant == Ping && Completed(v, u)))
      && (Completed(u.(status := u.status.(tx := true)), w) || SameSkbs(u.(status := u.status.(tx := true)), w))
  {
    hide HwSend, HwDone, Completed;
    var f, s1 := Pad(data), Accept(s, d, skb);
    var t := HwSend(cfg, s1, d, f, alloc);
    HwSendSkbs(cfg, s1, d, f, alloc, d);
    HwDoneSkbs(cfg, t, d, |f|, d);
    u := t.Get(d);
    if d == Sn0 {} else {}
  }

  lemma TransmitTwin<B, K>(cfg: Config, s: Net<B, K>, d: Side, skb: K, data: seq<byte>, alloc: bool)
    requires s.Get(d).pool != [] && ValidFrame(Pad(data))
    ensures var v, w := s.Get(d.Twin()), Transmit(cfg, s, d, skb, data, alloc).Get(d.Twin());
            Completed(v, w) || SameSkbs(v, w)
  {
    hide HwSend, HwDone, Completed;
    var f, s1, twin := Pad(data), Accept(s, d, skb), d.Twin();
    assert s1.Get(twin) == s.Get(twin) by {
      if d == Sn0 {} else {}
    }
    var t := HwSend(cfg, s1, d, f, alloc);
    HwSendSkbs(cfg, s1, d, f, alloc, twin);
    HwDoneSkbs(cfg, t, d, |f|, twin);
    CompletedStays(s.Get(twin), t.Get(twin), HwDone(cfg, t, d, |f|).Get(twin));
  }

  lemma CompletedStays<B, K>(v: Dev<B, K>, u: Dev<B, K>, w: Dev<B, K>)
    requires SameSkbs(u, w)
    ensures (Completed(v, u) ==> Completed(v, w)) && (SameSkbs(v, u) ==> SameSkbs(v, w))
  {
  }

  /** The watchdog frees the skb it remembers, be it outstanding or not. */
  lemma TimeOutSkbs<B, K>(cfg: Config, s: Net<B, K>, d: Side, e: Side)
    ensures var v, w := s.Get(e), TimeOut(cfg, s, d).Get(e);
      if e == d then Completed(v.(status := v.status.(tx := true)), w) else w == v
  {
    if d == Sn0 {} else {}
  }

  /** A call that hands e no skb and is not its watchdog. */
  lemma OtherCalls<B, K>(cfg: Config, s: Net<B, K>, ev: Event<K>, e: Side)
    requires Executable(s, ev) && (ev.side != e || !(ev.Tx? || ev.Timeout?))
    ensures var v, w := s.Get(e), Step(cfg, s, ev).Get(e); Completed(v, w) || SameSkbs(v, w)
  {
    hide Transmit, TimeOut, Completed;
    match ev
    case Tx(d, skb, data, alloc) =>
      TransmitTwin(cfg, s, d, skb, data, alloc);
    case PollCall(d, quota, allocs) =>
      PollLoopKeeps(cfg, s, d, 0, quota, allocs, e);
      if e == d {} else {}
    case Timeout(d) =>
      TimeOutSkbs(cfg, s, d, e);
    case Open(d) =>
      if e == d {} else {}
    case Stop(d) =>
      if e == d {} else {}
  }

  /** How many skbs too many a call frees for e, or too few. */
  ghost function Surplus<B, K>(s: Net<B, K>, ev: Event<K>, e: Side): int {
    if s.Get(e).skb.None? then 0
    else if IdleTimeout(s, ev, e) then 1
    else if EarlyTx(s, ev, e) then -1
    else 0
  }

  /** How many packets too many a call counts for e, or too few. */
  ghost function PacketSurplus<B, K>(s: Net<B, K>, ev: Event<K>, e: Side): int {
    if IdleTimeout(s, ev, e) then 1 else if EarlyTx(s, ev, e) then -1 else 0
  }

  /** One call, exactly: how many skbs and packets it is out by, and that the skbs are freed
      once and in order if and only if it is clean. In the newer driver an early transmission
      may serve the pending bit itself, so there it is taken not to happen. */
  lemma CallTally<B, K>(cfg: Config, s: Net<B, K>, ev: Event<K>, e: Side)
    requires Executable(s, ev) && (cfg.variant == Ldd3 || !EarlyTx(s, ev, e))
    ensures var v, w, skbs := s.Get(e), Step(cfg, s, ev).Get(e), HandedIn(ev, e);
      && |w.freed| + |Outstanding(w)| == |v.freed| + |Outstanding(v)| + |skbs| + Surplus(s, ev, e)
      && PacketsBalanced(v, w, |skbs| + PacketSurplus(s, ev, e))
      && (SkbsBalanced(v, w, skbs) <==> CleanCall(s, ev, e))
  {
    hide Transmit, TimeOut, Poll;
    var v, w := s.Get(e), Step(cfg, s, ev).Get(e);
    if ev.Tx? && ev.side == e {
      var u := TransmitSender(cfg, s, e, ev.skb, ev.data, ev.alloc);
      SenderTally(v, u, w, ev.skb);
      UnbalancedByCount(v, w, [ev.skb]);
    } else if ev.Timeout? && ev.side == e {
      TimeOutSkbs(cfg, s, e, e);
      TimeoutTally(v, w);
      UnbalancedByCount(v, w, []);
    } else {
      OtherCalls(cfg, s, ev, e);
      CompletedBalanced(v, w);
      UnbalancedByCount(v, w, []);
    }
  }

  lemma UnbalancedByCount<B, K>(v: Dev<B, K>, w: Dev<B, K>, skbs: seq<K>)
    ensures SkbsBalanced(v, w, skbs) ==> |w.freed| + |Outstanding(w)| == |v.freed| + |Outstanding(v)| + |skbs|
  {
    if SkbsBalanced(v, w, skbs) {
      assert |w.freed + Outstanding(w)| == |v.freed + Outstanding(v) + skbs|;
    }
  }

  lemma TimeoutTally<B, K>(v: Dev<B, K>, w: Dev<B, K>)
    requires Completed(v.(status := v.status.(tx := true)), w)
    ensures |w.freed| == |v.freed| + (if v.skb.Some? then 1 else 0) && Outstanding(w) == []
    ensures PacketsBalanced(v, w, if v.status.tx then 0 else 1)
    ensures v.status.tx || v.skb.None? ==> SkbsBalanced(v, w, [])
  {
    assert w.freed + [] == w.freed && v.freed + [] + [] == v.freed;
  }

  /** What any call can do to the skbs of e: free the one remembered, any number of times. */
  lemma CallSkbs<B, K>(cfg: Config, s: Net<B, K>, ev: Event<K>, e: Side)
    requires Executable(s, ev)
    ensures var v, w := s.Get(e), Step(cfg, s, ev).Get(e);
      && v.freed <= w.freed
      && w.skb == (if ev.Tx? && ev.side == e then Some(ev.skb) else v.skb)
      && (forall k | k in w.freed[|v.freed|..] :: Some(k) == w.skb)
      && (w.status.tx && !v.status.tx ==> w.skb.Some?)
  {
    hide Transmit, TimeOut, Poll;
    if ev.Tx? && ev.side == e {
      var u := TransmitSender(cfg, s, e, ev.skb, ev.data, ev.alloc);
    } else if ev.Timeout? && ev.side == e {
      TimeOutSkbs(cfg, s, e, e);
    } else {
      OtherCalls(cfg, s, ev, e);
    }
  }

  // ------------------------------------------------------------ whole runs

  ghost predicate AlwaysClean<B, K>(cfg: Config, s: Net<B, K>, es: seq<Event<K>>, e: Side)
    requires CallRun(cfg, s, es)
    decreases |es|
  {
    es != [] ==> CleanCall(s, es[0], e) && AlwaysClean(cfg, Step(cfg, s, es[0]), es[1..], e)
  }

  lemma SkbsChain<B, K>(u: Dev<B, K>, v: Dev<B, K>, w: Dev<B, K>, a: seq<K>, b: seq<K>)
    requires SkbsBalanced(u, v, a)
    ensures SkbsBalanced(u, w, a + b) <==> SkbsBalanced(v, w, b)
    ensures v.freed + Outstanding(v) + b == u.freed + Outstanding(u) + (a + b)
  {
    assert (u.freed + Outstanding(u) + a) + b == u.freed + Outstanding(u) + (a + b);
  }

  ghost predicate Distinct<T>(s: seq<T>) {
    forall i, j | 0 <= i < j < |s| :: s[i] != s[j]
  }

  /** The skb a device remembers has been freed, or its transmit interrupt is outstanding. */
  ghost predicate Tidy<B, K>(v: Dev<B, K>) {
    && (v.status.tx ==> v.skb.Some?)
    && (v.skb.Some? ==> v.skb.value in v.freed + Outstanding(v))
  }

  lemma TidyStays<B, K>(cfg: Config, s: Net<B, K>, ev: Event<K>, e: Side)
    requires Executable(s, ev) && Tidy(s.Get(e)) && CleanCall(s, ev, e)
    ensures Tidy(Step(cfg, s, ev).Get(e))
  {
    hide Step;
    CallTally(cfg, s, ev, e);
    CallSkbs(cfg, s, ev, e);
  }

  lemma {:induction false} FreedGrows<B, K>(cfg: Config, s: Net<B, K>, es: seq<Event<K>>, e: Side)
    requires CallRun(cfg, s, es)
    ensures s.Get(e).freed <= Run(cfg, s, es).Get(e).freed
    decreases |es|
  {
    hide Step;
    if es != [] {
      CallSkbs(cfg, s, es[0], e);
      FreedGrows(cfg, Step(cfg, s, es[0]), es[1..], e);
    }
  }

  /** An skb that is not remembered and not handed in again is never freed again. */
  lemma {:induction false} NeverFreed<B, K>(cfg: Config, s: Net<B, K>, es: seq<Event<K>>, e: Side, k: K)
    requires CallRun(cfg, s, es)
    requires k !in s.Get(e).freed && s.Get(e).skb != Some(k) && k !in SkbsOn(es, e)
    ensures k !in Run(cfg, s, es).Get(e).freed && Run(cfg, s, es).Get(e).skb != Some(k)
    decreases |es|
  {
    hide Step;
    if es != [] {
      CallSkbs(cfg, s, es[0], e);
      var v, w := s.Get(e), Step(cfg, s, es[0]).Get(e);
      assert w.freed == v.freed + w.freed[|v.freed|..];
      NeverFreed(cfg, Step(cfg, s, es[0]), es[1..], e, k);
    }
  }

  lemma FirstCall<B, K>(cfg: Config, s: Net<B, K>, es: seq<Event<K>>, e: Side)
    requires es != [] && CallRun(cfg, s, es)
    ensures Executable(s, es[0]) && CallRun(cfg, Step(cfg, s, es[0]), es[1..])
    ensures Run(cfg, s, es) == Run(cfg, Step(cfg, s, es[0]), es[1..])
    ensures SkbsOn(es, e) == HandedIn(es[0], e) + SkbsOn(es[1..], e)
  {
  }

  /** Any run of either driver in either mode, with lost interrupts, traffic in both
      directions, restarts and failures, its skbs being different ones: at the end every skb
      handed to e has been freed exactly once and in order, but for one that may be
      outstanding, if and only if every call was clean. */
  lemma {:induction false} SkbsFreedOnce<B, K>(cfg: Config, s: Net<B, K>, es: seq<Event<K>>, e: Side)
    requires CallRun(cfg, s, es) && Tidy(s.Get(e))
    requires Distinct(s.Get(e).freed + Outstanding(s.Get(e)) + SkbsOn(es, e))
    ensures SkbsBalanced(s.Get(e), Run(cfg, s, es).Get(e), SkbsOn(es, e)) <==> AlwaysClean(cfg, s, es, e)
    decreases |es|
  {
    hide Step, Run, SkbsOn;
    if es == [] {
      EmptyRun(cfg, s, es, e);
    } else {
      var ev, t := es[0], Step(cfg, s, es[0]);
      FirstCall(cfg, s, es, e);
      if CleanCall(s, ev, e) {
        CleanIsNotEarly(s, ev, e);
        CallTally(cfg, s, ev, e);
        TidyStays(cfg, s, ev, e);
        SkbsChain(s.Get(e), t.Get(e), Run(cfg, t, es[1..]).Get(e), HandedIn(ev, e), SkbsOn(es[1..], e));
        SkbsFreedOnce(cfg, t, es[1..], e);
      } else if IdleTimeout(s, ev, e) {
        FreedAgain(cfg, s, es, e);
      } else {
        Forgotten(cfg, s, es, e);
      }
    }
  }

  lemma EmptyRun<B, K>(cfg: Config, s: Net<B, K>, es: seq<Event<K>>, e: Side)
    requires es == []
    ensures SkbsOn(es, e) == [] && Run(cfg, s, es) == s
    ensures SkbsBalanced(s.Get(e), s.Get(e), [])
  {
  }

  lemma CleanIsNotEarly<B, K>(s: Net<B, K>, ev: Event<K>, e: Side)
    requires Tidy(s.Get(e)) && CleanCall(s, ev, e)
    ensures !EarlyTx(s, ev, e)
  {
  }

  /** An idle watchdog frees the last skb a second time, and that cannot be taken back. */
  lemma FreedAgain<B, K>(cfg: Config, s: Net<B, K>, es: seq<Event<K>>, e: Side)
    requires es != [] && CallRun(cfg, s, es) && Tidy(s.Get(e))
    requires Distinct(s.Get(e).freed + Outstanding(s.Get(e)) + SkbsOn(es, e))
    requires IdleTimeout(s, es[0], e) && s.Get(e).skb.Some?
    ensures !SkbsBalanced(s.Get(e), Run(cfg, s, es).Get(e), SkbsOn(es, e))
  {
    hide Step, Run, SkbsOn, CallRun;
    FirstCall(cfg, s, es, e);
    var v, t := s.Get(e), Step(cfg, s, es[0]);
    IdleFrees(cfg, s, es[0], e);
    FreedGrows(cfg, t, es[1..], e);
    var w := Run(cfg, t, es[1..]).Get(e);
    var i :| 0 <= i < |v.freed| && v.freed[i] == v.skb.value;
    SameTwice(w.freed + Outstanding(w), i, |v.freed|);
  }

  lemma SameTwice<T>(s: seq<T>, i: nat, j: nat)
    requires i < j < |s| && s[i] == s[j]
    ensures !Distinct(s)
  {
  }

  lemma IdleFrees<B, K>(cfg: Config, s: Net<B, K>, ev: Event<K>, e: Side)
    requires Executable(s, ev) && IdleTimeout(s, ev, e) && s.Get(e).skb.Some?
    ensures Step(cfg, s, ev).Get(e).freed == s.Get(e).freed + [s.Get(e).skb.value]
  {
    TimeOutSkbs(cfg, s, e, e);
  }

  /** An early transmission forgets the skb that was outstanding, which is never freed. */
  lemma Forgotten<B, K>(cfg: Config, s: Net<B, K>, es: seq<Event<K>>, e: Side)
    requires es != [] && CallRun(cfg, s, es) && EarlyTx(s, es[0], e) && s.Get(e).skb.Some?
    requires Distinct(s.Get(e).freed + Outstanding(s.Get(e)) + SkbsOn(es, e))
    ensures !SkbsBalanced(s.Get(e), Run(cfg, s, es).Get(e), SkbsOn(es, e))
  {
    hide Step, Run, SkbsOn, CallRun;
    FirstCall(cfg, s, es, e);
    var v, t, all := s.Get(e), Step(cfg, s, es[0]), s.Get(e).freed + Outstanding(s.Get(e)) + SkbsOn(es, e);
    CallSkbs(cfg, s, es[0], e);
    var k, n := v.skb.value, |v.freed|;
    assert all[n] == k && all[..n] == v.freed && all[n + 1] == es[0].skb && all[n + 2..] == SkbsOn(es[1..], e);
    ElsewhereNot(all, n);
    assert t.Get(e).freed == v.freed + t.Get(e).freed[n..];
    NeverFreed(cfg, t, es[1..], e, k);
    var w := Run(cfg, t, es[1..]).Get(e);
    assert k !in w.freed + Outstanding(w) && k in all;
  }

  lemma ElsewhereNot<T>(s: seq<T>, n: nat)
    requires Distinct(s) && n + 1 < |s|
    ensures s[n] !in s[..n] && s[n] != s[n + 1] && s[n] !in s[n + 2..]
  {
  }

  /** How many skbs too many, or too few, a run frees for e. */
  ghost function SurplusIn<B, K>(cfg: Config, s: Net<B, K>, es: seq<Event<K>>, e: Side): int
    requires CallRun(cfg, s, es)
    decreases |es|
  {
    if es == [] then 0 else Surplus(s, es[0], e) + SurplusIn(cfg, Step(cfg, s, es[0]), es[1..], e)
  }

  ghost function PacketSurplusIn<B, K>(cfg: Config, s: Net<B, K>, es: seq<Event<K>>, e: Side): int
    requires CallRun(cfg, s, es)
    decreases |es|
  {
    if es == [] then 0 else PacketSurplus(s, es[0], e) + PacketSurplusIn(cfg, Step(cfg, s, es[0]), es[1..], e)
  }

  ghost predicate NeverEarly<B, K>(cfg: Config, s: Net<B, K>, es: seq<Event<K>>, e: Side)
    requires CallRun(cfg, s, es)
    decreases |es|
  {
    es != [] ==> !EarlyTx(s, es[0], e) && NeverEarly(cfg, Step(cfg, s, es[0]), es[1..], e)
  }

  /** The watchdog of e never fires without a transmit interrupt outstanding. */
  ghost predicate NeverIdle<B, K>(cfg: Config, s: Net<B, K>, es: seq<Event<K>>, e: Side)
    requires CallRun(cfg, s, es)
    decreases |es|
  {
    es != [] ==> !IdleTimeout(s, es[0], e) && NeverIdle(cfg, Step(cfg, s, es[0]), es[1..], e)
  }

  /** The balance of a whole run, exactly, whether or not skbs recur: as many freed or
      outstanding, and as many packets counted or pending, as were handed in, plus one for
      each idle watchdog, minus one for each early transmission. */
  lemma {:induction false} RunTally<B, K>(cfg: Config, s: Net<B, K>, es: seq<Event<K>>, e: Side)
    requires CallRun(cfg, s, es) && (cfg.variant == Ldd3 || NeverEarly(cfg, s, es, e))
    ensures var v, w, n := s.Get(e), Run(cfg, s, es).Get(e), |SkbsOn(es, e)|;
      && |w.freed| + |Outstanding(w)| == |v.freed| + |Outstanding(v)| + n + SurplusIn(cfg, s, es, e)
      && PacketsBalanced(v, w, n + PacketSurplusIn(cfg, s, es, e))
    decreases |es|
  {
    hide Step, Run, SkbsOn, Surplus, PacketSurplus, EarlyTx;
    if es == [] {
      EmptyRun(cfg, s, es, e);
    } else {
      FirstCall(cfg, s, es, e);
      CallTally(cfg, s, es[0], e);
      RunTally(cfg, Step(cfg, s, es[0]), es[1..], e);
    }
  }

  /** A clean run frees every skb once and in order. */
  lemma {:induction false} RunClean<B, K>(cfg: Config, s: Net<B, K>, es: seq<Event<K>>, e: Side)
    requires CallRun(cfg, s, es) && NeverEarly(cfg, s, es, e) && AlwaysClean(cfg, s, es, e)
    ensures SkbsBalanced(s.Get(e), Run(cfg, s, es).Get(e), SkbsOn(es, e))
    decreases |es|
  {
    hide Step, Run, SkbsOn, EarlyTx, CleanCall;
    if es == [] {
      EmptyRun(cfg, s, es, e);
    } else {
      var t := Step(cfg, s, es[0]);
      FirstCall(cfg, s, es, e);
      CallTally(cfg, s, es[0], e);
      RunClean(cfg, t, es[1..], e);
      SkbsChain(s.Get(e), t.Get(e), Run(cfg, t, es[1..]).Get(e), HandedIn(es[0], e), SkbsOn(es[1..], e));
    }
  }

  /** Without early transmissions nothing makes up for an idle watchdog. */
  lemma {:induction false} SurplusOnlyGrows<B, K>(cfg: Config, s: Net<B, K>, es: seq<Event<K>>, e: Side)
    requires CallRun(cfg, s, es) && NeverEarly(cfg, s, es, e)
    ensures SurplusIn(cfg, s, es, e) >= 0 && (SurplusIn(cfg, s, es, e) == 0 <==> AlwaysClean(cfg, s, es, e))
    ensures PacketSurplusIn(cfg, s, es, e) >= 0
    ensures PacketSurplusIn(cfg, s, es, e) == 0 <==> NeverIdle(cfg, s, es, e)
    decreases |es|
  {
    hide Step;
    if es != [] {
      SurplusOnlyGrows(cfg, Step(cfg, s, es[0]), es[1..], e);
    }
  }

  /** A device with a transmit interrupt outstanding does not transmit. */
  ghost predicate PendingStopped<B, K>(s: Net<B, K>) {
    (s.sn0.status.tx ==> s.sn0.stopped) && (s.sn1.status.tx ==> s.sn1.stopped)
  }

  /** In regular mode only open restarts the queue of such a device. */
  lemma StepPendingStopped<B, K>(cfg: Config, s: Net<B, K>, ev: Event<K>)
    requires !cfg.napi && NetTended(cfg, s) && PendingStopped(s)
    requires KernelCalls(cfg, s, ev) && Executable(s, ev) && !ev.Open?
    ensures PendingStopped(Step(cfg, s, ev))
  {
    match ev
    case Tx(d, skb, data, alloc) =>
      TransmitPendingStopped(cfg, s, d, skb, data, alloc);
    case Timeout(d) =>
      if d == Sn0 {} else {}
    case Stop(d) =>
      if d == Sn0 {} else {}
  }

  lemma TransmitPendingStopped<B, K>(cfg: Config, s: Net<B, K>, d: Side, skb: K, data: seq<byte>, alloc: bool)
    requires !cfg.napi && NetTended(cfg, s) && PendingStopped(s)
    requires s.Get(d).pool != [] && !s.Get(d).stopped && ValidFrame(Pad(data))
    ensures PendingStopped(Transmit(cfg, s, d, skb, data, alloc))
  {
    hide HwSend;
    var f, s1 := Pad(data), Accept(s, d, skb);
    assert NetTended(cfg, s1) && PendingStopped(s1) && s1.Get(d).pool != [] && !s1.Get(d).stopped by {
      if d == Sn0 {} else {}
    }
    var t := HwSend(cfg, s1, d, f, alloc);
    RegularSend(cfg, s1, d, f, alloc);
    HwSendKeeps(cfg, s1, d, f, alloc);
    assert PendingStopped(t) by {
      if Dest(cfg.variant, d, f) == Sn0 {} else {}
    }
    DonePendingStopped(cfg, t, d, |f|);
  }

  lemma DonePendingStopped<B, K>(cfg: Config, s: Net<B, K>, d: Side, len: nat)
    requires !cfg.napi && NetTended(cfg, s) && PendingStopped(s)
    ensures PendingStopped(HwDone(cfg, s, d, len))
  {
    hide LocksUp;
    if d == Sn0 {} else {}
  }

  lemma {:induction false} PendingNeverEarly<B, K>(cfg: Config, s: Net<B, K>, es: seq<Event<K>>, e: Side)
    requires !cfg.napi && NetTended(cfg, s) && PendingStopped(s) && CallRun(cfg, s, es)
    requires forall i | 0 <= i < |es| :: !es[i].Open?
    ensures NeverEarly(cfg, s, es, e)
    decreases |es|
  {
    hide Step;
    if es != [] {
      StepKeeps(cfg, s, es[0]);
      StepPendingStopped(cfg, s, es[0]);
      PendingNeverEarly(cfg, Step(cfg, s, es[0]), es[1..], e);
    }
  }

  /** Regular mode, both drivers, lost interrupts, traffic in both directions, no open in the
      middle, skbs that may recur: at the end every skb handed in has been freed exactly once
      and in order, but for one that may be outstanding, if and only if the watchdog never
      fired on a device that remembers an skb and has no transmit interrupt outstanding. The
      other interface's next frame may have served it in the meantime. The packet counter is
      right if and only if the watchdog never fired on a device without one outstanding. */
  lemma RegularFreedOnce<B, K>(cfg: Config, s: Net<B, K>, es: seq<Event<K>>, e: Side)
    requires !cfg.napi && NetTended(cfg, s) && PendingStopped(s) && CallRun(cfg, s, es)
    requires forall i | 0 <= i < |es| :: !es[i].Open?
    ensures SkbsBalanced(s.Get(e), Run(cfg, s, es).Get(e), SkbsOn(es, e)) <==> AlwaysClean(cfg, s, es, e)
    ensures PacketsBalanced(s.Get(e), Run(cfg, s, es).Get(e), |SkbsOn(es, e)|) <==> NeverIdle(cfg, s, es, e)
  {
    hide Run, CallRun, SkbsOn, NetTended, AlwaysClean, NeverIdle, NeverEarly, SurplusIn, PacketSurplusIn;
    PendingNeverEarly(cfg, s, es, e);
    RunTally(cfg, s, es, e);
    SurplusOnlyGrows(cfg, s, es, e);
    UnbalancedByCount(s.Get(e), Run(cfg, s, es).Get(e), SkbsOn(es, e));
    if AlwaysClean(cfg, s, es, e) {
      RunClean(cfg, s, es, e);
    }
  }

  /** Every transmit interrupt is lost; each side sends one frame; then the watchdog. */
  const TWO_WAY: seq<Event<nat>> := [Tx(Sn0, 7, PLAIN_REPLY, true), Tx(Sn1, 8, PLAIN_REPLY, true), Timeout(Sn0)]

  lemma RunThree<B, K>(cfg: Config, s: Net<B, K>, a: Event<K>, b: Event<K>, c: Event<K>)
    requires Legal(cfg, s, a) && Legal(cfg, Step(cfg, s, a), b) && Legal(cfg, Step(cfg, Step(cfg, s, a), b), c)
    ensures LegalRun(cfg, s, [a, b, c])
    ensures Run(cfg, s, [a, b, c]) == Step(cfg, Step(cfg, Step(cfg, s, a), b), c)
  {
    hide Step, KernelCalls, Supplied, Executable;
    var t := Step(cfg, s, a);
    var u := Step(cfg, t, b);
    assert [c][1..] == [] && [b, c][1..] == [c] && [a, b, c][1..] == [b, c];
    assert LegalRun(cfg, Step(cfg, u, c), []);
    assert LegalRun(cfg, u, [c]) && Run(cfg, u, [c]) == Step(cfg, u, c);
    assert LegalRun(cfg, t, [b, c]) && Run(cfg, t, [b, c]) == Run(cfg, u, [c]);
  }

  /** With every interrupt lost, a send leaves the sender waiting for one, and serves the one
      its twin was waiting for. */
  lemma SendWithLoss(s: Net<nat, nat>, d: Side, skb: nat)
    requires var cfg := Config(Ldd3, false, 1);
             NetOk(cfg, s) && s.Get(d).pool != [] && !s.Get(d).stopped
    ensures var t := Transmit(Config(Ldd3, false, 1), s, d, skb, PLAIN_REPLY, true);
            && t.Get(d).status.tx && t.Get(d).skb == Some(skb) && t.Get(d).freed == s.Get(d).freed
            && t.Get(d).stats.txPackets == s.Get(d).stats.txPackets && t.Get(d).pool == s.Get(d).pool
            && Completed(s.Get(d.Twin()), t.Get(d.Twin())) && t.Get(d.Twin()).pool == s.Get(d.Twin()).pool
            && t.Get(d.Twin()).stopped == s.Get(d.Twin()).stopped && NetOk(Config(Ldd3, false, 1), t)
  {
    hide HwSend, HwDone, Completed;
    var cfg, f, s1 := Config(Ldd3, false, 1), PLAIN_REPLY, Accept(s, d, skb);
    assert NetOk(cfg, s1) && s1.Get(d) == s.Get(d).(skb := Some(skb)) && s1.Get(d.Twin()) == s.Get(d.Twin()) by {
      if d == Sn0 {} else {}
    }
    TwinServes(s1, d, f);
    LossAtDone(HwSend(cfg, s1, d, f, true), d, |f|);
    if d == Sn0 {} else {}
  }

  lemma TwinServes(s: Net<nat, nat>, d: Side, f: Frame)
    requires NetOk(Config(Ldd3, false, 1), s) && s.Get(d).pool != [] && !s.Get(d).stopped
    ensures var cfg, v := Config(Ldd3, false, 1), s.Get(d.Twin());
            var t := HwSend(cfg, s, d, f, true);
            && NetOk(cfg, t) && t.Get(d) == s.Get(d)
            && Completed(v, t.Get(d.Twin()))
            && t.Get(d.Twin()).pool == v.pool && t.Get(d.Twin()).stopped == v.stopped
  {
    hide HwSend, Acknowledge, NetSafe, NetTended, Rewrite, Payload;
    RegularSend(Config(Ldd3, false, 1), s, d, f, true);
    HwSendKeeps(Config(Ldd3, false, 1), s, d, f, true);
    AcknowledgeSkbs(s, d.Twin(), d.Twin());
    AcknowledgeSkbs(s, d.Twin(), d);
    if d == Sn0 {} else {}
  }

  lemma LossAtDone(s: Net<nat, nat>, d: Side, len: nat)
    requires NetOk(Config(Ldd3, false, 1), s)
    ensures var cfg, t := Config(Ldd3, false, 1), RaiseTx(s, d, len);
            && HwDone(cfg, s, d, len) == t.With(d, t.Get(d).(stopped := true))
            && NetOk(cfg, HwDone(cfg, s, d, len))
  {
    HwDoneKeeps(Config(Ldd3, false, 1), s, d, len);
  }

  /** An skb can be freed twice: the frame from the twin serves the bit that was left pending,
      and then the watchdog serves it again. */
  lemma FreedTwice()
    ensures var cfg, s := Config(Ldd3, false, 1), Opened<nat, nat>([1], [3]);
            && LegalRun(cfg, s, TWO_WAY)
            && Run(cfg, s, TWO_WAY).sn0.freed == [7, 7] && Run(cfg, s, TWO_WAY).sn0.stats.txPackets == 2
  {
    hide Transmit;
    var cfg, s := Config(Ldd3, false, 1), Opened<nat, nat>([1], [3]);
    var t := Transmit(cfg, s, Sn0, 7, PLAIN_REPLY, true);
    SendWithLoss(s, Sn0, 7);
    SendWithLoss(t, Sn1, 8);
    RunThree(cfg, s, TWO_WAY[0], TWO_WAY[1], TWO_WAY[2]);
  }

  /** An skb can be forgotten: open restarts the queue while its interrupt is outstanding. */
  const EARLY: seq<Event<nat>> := [Tx(Sn0, 7, PLAIN_REPLY, true), Open(Sn0), Tx(Sn0, 8, PLAIN_REPLY, true)]

  lemma SkbForgotten()
    ensures var cfg, s := Config(Ldd3, false, 1), Opened<nat, nat>([1], [3]);
            && LegalRun(cfg, s, EARLY)
            && Run(cfg, s, EARLY).sn0.freed == [] && Outstanding(Run(cfg, s, EARLY).sn0) == [8]
  {
    hide Transmit;
    var cfg, s := Config(Ldd3, false, 1), Opened<nat, nat>([1], [3]);
    var t := Transmit(cfg, s, Sn0, 7, PLAIN_REPLY, true);
    SendWithLoss(s, Sn0, 7);
    SendWithLoss(t.(sn0 := t.sn0.(stopped := false)), Sn0, 8);
    RunThree(cfg, s, EARLY[0], EARLY[1], EARLY[2]);
  }
}
