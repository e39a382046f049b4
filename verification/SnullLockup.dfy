/** The lockup simulation in regular mode: one device sending, and the watchdog firing after
    each transmit interrupt that was lost. */
module SnullLockup {
  import opened Bytes
  import opened Frames
  import opened SnullModel
  import opened SnullFlow
  import opened SnullAccounts
  import opened SnullPoll

  /** The sender between two transmissions, n of them behind it. */
  ghost predicate Armed<B, K>(cfg: Config, s: Net<B, K>, d: Side, n: nat) {
    && NetOk(cfg, s) && Quiet(s) && s.Get(d).pool != [] && !s.Get(d).stopped
    && s.Get(d).stats.txPackets == n
  }

  /** What completing one more skb adds to the sender. */
  ghost predicate Completed<B, K>(v: Dev<B, K>, w: Dev<B, K>, skb: K, len: nat, errors: nat) {
    && w.freed == v.freed + [skb]
    && w.stats.txBytes == v.stats.txBytes + len
    && w.stats.txErrors == v.stats.txErrors + errors
  }

  lemma SendControl<B, K>(cfg: Config, s: Net<B, K>, d: Side, f: Frame, alloc: bool)
    requires !cfg.napi && NetOk(cfg, s) && Quiet(s) && s.Get(d).pool != [] && !s.Get(d).stopped
    ensures var v, t := s.Get(d), HwSend(cfg, s, d, f, alloc);
      && NetOk(cfg, t) && Quiet(t) && SameTx(v, t.Get(d)) && t.Get(d).pool == v.pool && !t.Get(d).stopped
  {
    var dest := Dest(cfg.variant, d, f);
    AcknowledgeIdle(s, dest);
    RegularSend(cfg, s, d, f, alloc);
    HwSendKeeps(cfg, s, d, f, alloc);
    HwSendTx(cfg, s, d, f, alloc, Sn0);
    HwSendTx(cfg, s, d, f, alloc, Sn1);
    if d == dest {} else {}
  }

  lemma DoneOutcome<B, K>(cfg: Config, s: Net<B, K>, d: Side, n: nat, len: nat)
    requires !cfg.napi && Armed(cfg, s, d, n) && s.Get(d).skb.Some?
    ensures var v, t := s.Get(d), HwDone(cfg, s, d, len);
      && NetOk(cfg, t) && t.Get(d).pool != []
      && (t.Get(d).stopped <==> LocksUp(cfg, n))
      && (!LocksUp(cfg, n) ==> Armed(cfg, t, d, n + 1) && Completed(v, t.Get(d), v.skb.value, len, 0))
      && (LocksUp(cfg, n) ==> t.Get(d.Twin()).status == IDLE && t.Get(d) == v.(txPacketLen := len,
                                status := Status(false, true), stopped := true))
  {
    HwDoneKeeps(cfg, s, d, len);
    if d == Sn0 {} else {}
  }

  lemma TimeoutOutcome<B, K>(cfg: Config, s: Net<B, K>, d: Side)
    requires !cfg.napi && NetOk(cfg, s) && s.Get(d).pool != [] && s.Get(d.Twin()).status == IDLE
    requires s.Get(d).skb.Some?
    ensures var v, t := s.Get(d), TimeOut(cfg, s, d);
      && Armed(cfg, t, d, v.stats.txPackets + 1)
      && Completed(v, t.Get(d), v.skb.value, v.txPacketLen, 1)
  {
    TimeOutKeeps(cfg, s, d);
    if d == Sn0 {} else {}
  }

  /** One send: it stops the queue exactly when its interrupt is the one that gets lost. */
  lemma SendOutcome<B, K>(cfg: Config, s: Net<B, K>, ev: Event<K>, n: nat)
    requires !cfg.napi && ev.Tx? && ValidFrame(Pad(ev.data)) && Armed(cfg, s, ev.side, n)
    ensures Legal(cfg, s, ev)
    ensures var d, t := ev.side, Step(cfg, s, ev);
      && (t.Get(d).stopped <==> LocksUp(cfg, n))
      && (!LocksUp(cfg, n) ==> Armed(cfg, t, d, n + 1) && Completed(s.Get(d), t.Get(d), ev.skb, |Pad(ev.data)|, 0))
      && (LocksUp(cfg, n) ==>
            && t.Get(d).stats.txPackets == n
            && Legal(cfg, t, Event<K>.Timeout(d))
            && var u := Step(cfg, t, Event<K>.Timeout(d));
               Armed(cfg, u, d, n + 1) && Completed(s.Get(d), u.Get(d), ev.skb, |Pad(ev.data)|, 1))
  {
    hide HwSend, HwDone, TimeOut, LocksUp;
    var d, f := ev.side, Pad(ev.data);
    var s1 := Accept(s, d, ev.skb);
    assert Armed(cfg, s1, d, n) && s1.Get(d).skb == Some(ev.skb) by {
      if d == Sn0 {} else {}
    }
    SendControl(cfg, s1, d, f, ev.alloc);
    var s2 := HwSend(cfg, s1, d, f, ev.alloc);
    DoneOutcome(cfg, s2, d, n, |f|);
    if LocksUp(cfg, n) {
      TimeoutOutcome(cfg, HwDone(cfg, s2, d, |f|), d);
    }
  }

  ghost function Loss(cfg: Config, n: nat): nat {
    if LocksUp(cfg, n) then 1 else 0
  }

  /** The watchdog, if the interrupt of send number n was lost. */
  ghost function Recovery<K>(cfg: Config, n: nat, d: Side): seq<Event<K>> {
    if LocksUp(cfg, n) then [Event<K>.Timeout(d)] else []
  }

  /** A send and, if its interrupt was lost, its recovery. */
  ghost function Attempt<K>(cfg: Config, n: nat, ev: Event<K>): seq<Event<K>> {
    [ev] + Recovery<K>(cfg, n, ev.side)
  }

  /** Sends, each lost interrupt followed by its timeout, n sends having gone before. */
  ghost function Schedule<K>(cfg: Config, n: nat, txs: seq<Event<K>>): seq<Event<K>>
    decreases |txs|
  {
    if txs == [] then [] else Attempt(cfg, n, txs[0]) + Schedule(cfg, n + 1, txs[1..])
  }

  /** Where a run leads, if the kernel may make its calls. */
  ghost function Outcome<B, K>(cfg: Config, s: Net<B, K>, es: seq<Event<K>>): Option<Net<B, K>>
    decreases |es|
  {
    if es == [] then Some(s)
    else if Legal(cfg, s, es[0]) then Outcome(cfg, Step(cfg, s, es[0]), es[1..])
    else None
  }

  lemma {:induction false} OutcomeIsRun<B, K>(cfg: Config, s: Net<B, K>, es: seq<Event<K>>, w: Net<B, K>)
    requires Outcome(cfg, s, es) == Some(w)
    ensures LegalRun(cfg, s, es) && Run(cfg, s, es) == w
    decreases |es|
  {
    if es != [] {
      OutcomeIsRun(cfg, Step(cfg, s, es[0]), es[1..], w);
    }
  }

  lemma {:induction false} OutcomeConcat<B, K>(
      cfg: Config, s: Net<B, K>, a: seq<Event<K>>, u: Net<B, K>, b: seq<Event<K>>)
    requires Outcome(cfg, s, a) == Some(u)
    ensures Outcome(cfg, s, a + b) == Outcome(cfg, u, b)
    decreases |a|
  {
    if a == [] {
      assert a + b == b;
    } else {
      assert (a + b)[1..] == a[1..] + b && (a + b)[0] == a[0];
      OutcomeConcat(cfg, Step(cfg, s, a[0]), a[1..], u, b);
    }
  }

  lemma OutcomeOne<B, K>(cfg: Config, s: Net<B, K>, ev: Event<K>)
    requires Legal(cfg, s, ev)
    ensures Outcome(cfg, s, [ev]) == Some(Step(cfg, s, ev))
  {
    assert [ev][1..] == [];
  }

  lemma OutcomeTwo<B, K>(cfg: Config, s: Net<B, K>, a: Event<K>, b: Event<K>)
    requires Legal(cfg, s, a) && Legal(cfg, Step(cfg, s, a), b)
    ensures Outcome(cfg, s, [a, b]) == Some(Step(cfg, Step(cfg, s, a), b))
  {
    assert [a, b][1..] == [b];
    OutcomeOne(cfg, Step(cfg, s, a), b);
  }

  /** They complete the skb, and leave the sender as before. */
  ghost predicate Recovered<B, K>(cfg: Config, s: Net<B, K>, u: Net<B, K>, ev: Event<K>, n: nat)
    requires ev.Tx?
  {
    Armed(cfg, u, ev.side, n + 1) && Completed(s.Get(ev.side), u.Get(ev.side), ev.skb, |Pad(ev.data)|, Loss(cfg, n))
  }

  lemma SendKept<B, K>(cfg: Config, s: Net<B, K>, ev: Event<K>, n: nat) returns (u: Net<B, K>)
    requires !cfg.napi && ev.Tx? && ValidFrame(Pad(ev.data)) && Armed(cfg, s, ev.side, n) && !LocksUp(cfg, n)
    ensures Outcome(cfg, s, Attempt(cfg, n, ev)) == Some(u) && Recovered(cfg, s, u, ev, n)
  {
    SendOutcome(cfg, s, ev, n);
    OutcomeOne(cfg, s, ev);
    assert Attempt(cfg, n, ev) == [ev];
    u := Step(cfg, s, ev);
  }

  lemma SendLost<B, K>(cfg: Config, s: Net<B, K>, ev: Event<K>, n: nat) returns (u: Net<B, K>)
    requires !cfg.napi && ev.Tx? && ValidFrame(Pad(ev.data)) && Armed(cfg, s, ev.side, n) && LocksUp(cfg, n)
    ensures Outcome(cfg, s, Attempt(cfg, n, ev)) == Some(u) && Recovered(cfg, s, u, ev, n)
  {
    SendOutcome(cfg, s, ev, n);
    OutcomeTwo(cfg, s, ev, Event<K>.Timeout(ev.side));
    assert Attempt(cfg, n, ev) == [ev, Event<K>.Timeout(ev.side)];
    u := Step(cfg, Step(cfg, s, ev), Event<K>.Timeout(ev.side));
  }

  lemma SendRecovers<B, K>(cfg: Config, s: Net<B, K>, ev: Event<K>, n: nat) returns (u: Net<B, K>)
    requires !cfg.napi && ev.Tx? && ValidFrame(Pad(ev.data)) && Armed(cfg, s, ev.side, n)
    ensures Outcome(cfg, s, Attempt(cfg, n, ev)) == Some(u) && Recovered(cfg, s, u, ev, n)
  {
    if LocksUp(cfg, n) {
      u := SendLost(cfg, s, ev, n);
    } else {
      u := SendKept(cfg, s, ev, n);
    }
  }

  ghost predicate SendsOn<K>(txs: seq<Event<K>>, d: Side) {
    forall i | 0 <= i < |txs| :: txs[i].Tx? && txs[i].side == d && ValidFrame(Pad(txs[i].data))
  }

  lemma DivStep(n: nat, k: nat)
    requires k > 0
    ensures (n + 1) / k == n / k + (if (n + 1) % k == 0 then 1 else 0)
  {
    var q, r := n / k, n % k;
    assert n == k * q + r;
    if r + 1 == k {
      assert n + 1 == k * (q + 1);
      DivExact(q + 1, 0, k);
    } else {
      DivExact(q, r + 1, k);
    }
  }

  lemma DivExact(q: nat, r: nat, k: nat)
    requires r < k
    ensures (k * q + r) / k == q && (k * q + r) % k == r
  {
    var x := k * q + r;
    Apart(k, x / k, q, x % k, r);
    Apart(k, q, x / k, r, x % k);
  }

  lemma Apart(k: nat, a: nat, b: nat, r: nat, s: nat)
    requires r < k
    ensures a < b ==> k * a + r < k * b + s
  {
    if a < b {
      var m := b - a;
      assert k * (a + m) == k * a + k * m;
      assert k * m >= k * 1;
    }
  }

  /** How many of the m sends after the first n lose their interrupt. */
  ghost function Losses(cfg: Config, n: nat, m: nat): nat
    decreases m
  {
    if m == 0 then 0 else Loss(cfg, n) + Losses(cfg, n + 1, m - 1)
  }

  lemma {:induction false} LossesQuotient(cfg: Config, n: nat, m: nat)
    requires cfg.lockup > 0
    ensures n / cfg.lockup + Losses(cfg, n, m) == (n + m) / cfg.lockup
    decreases m
  {
    if m > 0 {
      LossesQuotient(cfg, n + 1, m - 1);
      DivStep(n, cfg.lockup);
    }
  }

  /** The sender after these sends, some of them with a lost interrupt. */
  ghost predicate Tallied<B, K>(v: Dev<B, K>, w: Dev<B, K>, packets: nat, errors: nat, txs: seq<Event<K>>, d: Side) {
    && w.stats.txPackets == packets
    && w.stats.txErrors == v.stats.txErrors + errors
    && w.stats.txBytes == v.stats.txBytes + PaddedOn(txs, d)
    && w.freed == v.freed + SkbsOn(txs, d)
    && !w.stopped
  }

  lemma TallyStep<B, K>(v: Dev<B, K>, u: Dev<B, K>, w: Dev<B, K>, packets: nat, e: nat, errors: nat,
                        txs: seq<Event<K>>, d: Side)
    requires txs != [] && SendsOn(txs, d)
    requires Completed(v, u, txs[0].skb, |Pad(txs[0].data)|, e)
    requires Tallied(u, w, packets, errors, txs[1..], d)
    ensures Tallied(v, w, packets, e + errors, txs, d)
  {
    SendsCons(txs, d);
    ConcatAssoc(v.freed, [txs[0].skb], SkbsOn(txs[1..], d));
  }

  lemma SendsCons<K>(txs: seq<Event<K>>, d: Side)
    requires txs != [] && SendsOn(txs, d)
    ensures SkbsOn(txs, d) == [txs[0].skb] + SkbsOn(txs[1..], d)
    ensures PaddedOn(txs, d) == |Pad(txs[0].data)| + PaddedOn(txs[1..], d)
  {
  }

  lemma NothingSent<B, K>(v: Dev<B, K>, d: Side)
    requires !v.stopped
    ensures Tallied(v, v, v.stats.txPackets, 0, [], d)
  {
    assert v.freed + [] == v.freed;
  }

  /** One send and its recovery, then a tally of the rest, make a tally of all. */
  lemma ScheduleTallies<B, K>(
      cfg: Config, s: Net<B, K>, u: Net<B, K>, w: Net<B, K>, n: nat, d: Side, txs: seq<Event<K>>)
    requires SendsOn(txs, d) && txs != [] && Recovered(cfg, s, u, txs[0], n)
    requires Tallied(u.Get(d), w.Get(d), n + |txs|, Losses(cfg, n + 1, |txs| - 1), txs[1..], d)
    ensures Tallied(s.Get(d), w.Get(d), n + |txs|, Losses(cfg, n, |txs|), txs, d)
  {
    TallyStep(s.Get(d), u.Get(d), w.Get(d), n + |txs|, Loss(cfg, n), Losses(cfg, n + 1, |txs| - 1), txs, d);
  }

  lemma {:induction false} ScheduleTally<B, K>(cfg: Config, s: Net<B, K>, n: nat, d: Side, txs: seq<Event<K>>)
    returns (w: Net<B, K>)
    requires !cfg.napi && Armed(cfg, s, d, n) && SendsOn(txs, d)
    ensures Outcome(cfg, s, Schedule(cfg, n, txs)) == Some(w)
    ensures Tallied(s.Get(d), w.Get(d), n + |txs|, Losses(cfg, n, |txs|), txs, d)
    decreases |txs|
  {
    hide Attempt, Step, Legal, LocksUp, NetOk, Quiet;
    if txs == [] {
      NothingSent(s.Get(d), d);
      w := s;
    } else {
      var u := SendRecovers(cfg, s, txs[0], n);
      w := ScheduleTally(cfg, u, n + 1, d, txs[1..]);
      OutcomeConcat(cfg, s, Attempt(cfg, n, txs[0]), u, Schedule(cfg, n + 1, txs[1..]));
      ScheduleTallies(cfg, s, u, w, n, d, txs);
    }
  }

  /** Lockup arithmetic: with lockup = k > 0, after any number of sends from freshly opened
      devices the packet counter is the number of sends, the error counter its quotient by k,
      the byte counter the exact sum, every skb has been freed once and in order, and the
      queue runs. */
  lemma LockupArithmetic<B, K>(cfg: Config, pool0: seq<B>, pool1: seq<B>, d: Side, txs: seq<Event<K>>)
    requires !cfg.napi && cfg.lockup > 0 && pool0 != [] && pool1 != [] && SendsOn(txs, d)
    ensures LegalRun(cfg, Opened(pool0, pool1), Schedule(cfg, 0, txs))
    ensures var w := Run(cfg, Opened(pool0, pool1), Schedule(cfg, 0, txs)).Get(d);
      && w.stats.txPackets == |txs|
      && w.stats.txErrors == |txs| / cfg.lockup
      && w.stats.txBytes == PaddedOn(txs, d)
      && w.freed == SkbsOn(txs, d)
      && !w.stopped
  {
    hide Outcome, Run, CallRun, RestartsSupplied, Schedule;
    assert Losses(cfg, 0, |txs|) == |txs| / cfg.lockup by {
      LossesQuotient(cfg, 0, |txs|);
    }
    var w := ScheduleTally(cfg, Opened<B, K>(pool0, pool1), 0, d, txs);
    OutcomeIsRun(cfg, Opened<B, K>(pool0, pool1), Schedule(cfg, 0, txs), w);
  }
}
