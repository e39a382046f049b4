/** The loop of snull_poll, in full: what it takes off the list, what it delivers, what it
    drops, and where the buffers go, for every list, quota and pattern of failures. */
module SnullPoll {
  import opened Bytes
  import opened Frames
  import opened SnullModel
  import opened SnullLedger

  /** Payloads delivered when these entries are taken in order under these allocations. */
  ghost function Handed<B>(cfg: Config, taken: seq<Queued<B>>, allocs: seq<bool>): seq<seq<byte>> {
    if taken == [] then []
    else (if NextAlloc(allocs) then [Payload(cfg, taken[0].frame)] else [])
         + Handed(cfg, taken[1..], LaterAllocs(allocs))
  }

  /** Frames dropped meanwhile. */
  ghost function Dropped<B>(taken: seq<Queued<B>>, allocs: seq<bool>): seq<Frame> {
    if taken == [] then []
    else (if NextAlloc(allocs) then [] else [taken[0].frame]) + Dropped(taken[1..], LaterAllocs(allocs))
  }

  /** The buffers of e among the entries taken. */
  ghost function Home<B>(taken: seq<Queued<B>>, e: Side): seq<B> {
    if taken == [] then []
    else (if taken[0].owner == e then [taken[0].buf] else []) + Home(taken[1..], e)
  }

  /** The entries above position m of a list, in the order the loop meets them. */
  ghost function Taken<B>(queue: seq<Queued<B>>, m: nat): seq<Queued<B>>
    requires m <= |queue|
  {
    Reverse(queue[m..])
  }

  lemma TakenStep<B>(queue: seq<Queued<B>>, m: nat)
    requires m < |queue|
    ensures Taken(queue, m) == [Last(queue)] + Taken(Init(queue), m)
  {
    assert Init(queue[m..]) == Init(queue)[m..];
  }

  lemma ReceiveOneEffect<B, K>(cfg: Config, s: Net<B, K>, d: Side, alloc: bool, e: Side)
    requires s.Get(d).queue != []
    ensures var q, v, w := Last(s.Get(d).queue), s.Get(e), ReceiveOne(cfg, s, d, alloc).Get(e);
      && w.pool == v.pool + (if q.owner == e then [q.buf] else [])
      && w.delivered == v.delivered + (if e == d && alloc then [Payload(cfg, q.frame)] else [])
      && w.lost == v.lost + (if e == d && !alloc then [q.frame] else [])
      && w.stats == (if e == d then Account(v, q.frame, Payload(cfg, q.frame), alloc).stats else v.stats)
      && w.queue == (if e == d then Init(v.queue) else v.queue)
  {
    hide Account, Payload;
    var q := Last(s.Get(d).queue);
    DequeueEffect(cfg, s, d, alloc, e);
    ReleaseEffect(Dequeue(cfg, s, d, alloc), q.owner, q.buf, e);
  }

  lemma DequeueEffect<B, K>(cfg: Config, s: Net<B, K>, d: Side, alloc: bool, e: Side)
    requires s.Get(d).queue != []
    ensures var q, v, w := Last(s.Get(d).queue), s.Get(e), Dequeue(cfg, s, d, alloc).Get(e);
      && w.pool == v.pool
      && w.delivered == v.delivered + (if e == d && alloc then [Payload(cfg, q.frame)] else [])
      && w.lost == v.lost + (if e == d && !alloc then [q.frame] else [])
      && w.stats == (if e == d then Account(v, q.frame, Payload(cfg, q.frame), alloc).stats else v.stats)
      && w.queue == (if e == d then Init(v.queue) else v.queue)
  {
    hide Payload;
    if e == d {} else {}
  }

  lemma ReleaseEffect<B, K>(s: Net<B, K>, owner: Side, buf: B, e: Side)
    ensures var v, w := s.Get(e), ReleaseBuffer(s, owner, buf).Get(e);
      && w.pool == v.pool + (if owner == e then [buf] else [])
      && w.delivered == v.delivered && w.lost == v.lost && w.stats == v.stats && w.queue == v.queue
  {
    if owner == Sn0 {} else {}
  }

  /** Device w is device v after these entries were delivered or dropped to it. */
  ghost predicate Logged<B, K>(cfg: Config, v: Dev<B, K>, w: Dev<B, K>, taken: seq<Queued<B>>, allocs: seq<bool>) {
    && w.delivered == v.delivered + Handed(cfg, taken, allocs)
    && w.lost == v.lost + Dropped(taken, allocs)
    && w.stats.rxPackets == v.stats.rxPackets + |Handed(cfg, taken, allocs)|
    && w.stats.rxDropped == v.stats.rxDropped + |Dropped(taken, allocs)|
    && w.stats.rxBytes == v.stats.rxBytes + WireBytes(Handed(cfg, taken, allocs))
  }

  /** What the poll loop on d must have done to device e. */
  ghost predicate PollEffect<B, K>(
      cfg: Config, s: Net<B, K>, d: Side, allocs: seq<bool>, t: Net<B, K>, e: Side)
  {
    var queue, m := s.Get(d).queue, |t.Get(d).queue|;
    && m <= |queue|
    && t.Get(d).queue == queue[..m]
    && t.Get(e).pool == s.Get(e).pool + Home(Taken(queue, m), e)
    && if e == d then Logged(cfg, s.Get(e), t.Get(e), Taken(queue, m), allocs)
       else t.Get(e).queue == s.Get(e).queue && Logged(cfg, s.Get(e), t.Get(e), [], [])
  }

  lemma {:induction false} EveryTakenIsCounted<B>(cfg: Config, taken: seq<Queued<B>>, allocs: seq<bool>)
    ensures |Handed(cfg, taken, allocs)| + |Dropped(taken, allocs)| == |taken|
  {
    if taken != [] {
      EveryTakenIsCounted(cfg, taken[1..], LaterAllocs(allocs));
    }
  }

  ghost function HandedOne(cfg: Config, f: Frame, allocs: seq<bool>): seq<seq<byte>> {
    if NextAlloc(allocs) then [Payload(cfg, f)] else []
  }

  lemma HandedCons<B>(cfg: Config, first: Queued<B>, rest: seq<Queued<B>>, allocs: seq<bool>)
    ensures Handed(cfg, [first] + rest, allocs)
         == HandedOne(cfg, first.frame, allocs) + Handed(cfg, rest, LaterAllocs(allocs))
  {
    assert ([first] + rest)[1..] == rest;
  }

  lemma DroppedCons<B>(first: Queued<B>, rest: seq<Queued<B>>, allocs: seq<bool>)
    ensures Dropped([first] + rest, allocs)
         == (if NextAlloc(allocs) then [] else [first.frame]) + Dropped(rest, LaterAllocs(allocs))
  {
    assert ([first] + rest)[1..] == rest;
  }

  lemma HomeCons<B>(first: Queued<B>, rest: seq<Queued<B>>, e: Side)
    ensures Home([first] + rest, e) == (if first.owner == e then [first.buf] else []) + Home(rest, e)
  {
    assert ([first] + rest)[1..] == rest;
  }

  lemma HandedBytes(cfg: Config, f: Frame, allocs: seq<bool>, later: seq<seq<byte>>)
    ensures WireBytes(HandedOne(cfg, f, allocs) + later)
         == (if NextAlloc(allocs) then |f| else 0) + WireBytes(later)
  {
    WireBytesConcat(HandedOne(cfg, f, allocs), later);
    WireBytesPush([], Payload(cfg, f));
    assert [] + [Payload(cfg, f)] == [Payload(cfg, f)];
  }

  lemma ConcatAssoc<T>(a: seq<T>, b: seq<T>, c: seq<T>)
    ensures (a + b) + c == a + (b + c)
  {
  }

  /** One iteration on d, then a loop that logs the rest, logs everything. */
  lemma LoggedStep<B, K>(
      cfg: Config, s: Net<B, K>, d: Side, w: Dev<B, K>, rest: seq<Queued<B>>, allocs: seq<bool>)
    requires s.Get(d).queue != []
    requires Logged(cfg, ReceiveOne(cfg, s, d, NextAlloc(allocs)).Get(d), w, rest, LaterAllocs(allocs))
    ensures Logged(cfg, s.Get(d), w, [Last(s.Get(d).queue)] + rest, allocs)
  {
    var v, first, later := s.Get(d), Last(s.Get(d).queue), LaterAllocs(allocs);
    var handed := HandedOne(cfg, first.frame, allocs);
    ReceiveOneEffect(cfg, s, d, NextAlloc(allocs), d);
    HandedCons(cfg, first, rest, allocs);
    HandedBytes(cfg, first.frame, allocs, Handed(cfg, rest, later));
    DroppedCons(first, rest, allocs);
    ConcatAssoc(v.delivered, handed, Handed(cfg, rest, later));
    ConcatAssoc(v.lost, if NextAlloc(allocs) then [] else [first.frame], Dropped(rest, later));
  }

  /** One iteration followed by a loop that meets PollEffect meets PollEffect. */
  lemma PollEffectStep<B, K>(cfg: Config, s: Net<B, K>, d: Side, allocs: seq<bool>, t: Net<B, K>, e: Side)
    requires s.Get(d).queue != []
    requires PollEffect(cfg, ReceiveOne(cfg, s, d, NextAlloc(allocs)), d, LaterAllocs(allocs), t, e)
    ensures PollEffect(cfg, s, d, allocs, t, e)
  {
    var queue, m := s.Get(d).queue, |t.Get(d).queue|;
    ReceiveOneEffect(cfg, s, d, NextAlloc(allocs), e);
    TakenStep(queue, m);
    assert Init(queue)[..m] == queue[..m];
    var first, rest := Last(queue), Taken(Init(queue), m);
    HomeCons(first, rest, e);
    ConcatAssoc(s.Get(e).pool, if first.owner == e then [first.buf] else [], Home(rest, e));
    if e == d {
      LoggedStep(cfg, s, d, t.Get(e), rest, allocs);
    }
  }

  /** The poll loop: it terminates; it leaves the oldest part of the list; it delivers or
      drops every entry it takes, newest first, and nothing else; each buffer goes back to
      the pool of its owner; it stops when the quota of successes is used up or the list is
      empty, and never delivers beyond the quota. */
  lemma {:induction false} PollLoopSpec<B, K>(
      cfg: Config, s: Net<B, K>, d: Side, npackets: int, quota: int, allocs: seq<bool>, e: Side)
    ensures var (t, n) := PollLoop(cfg, s, d, npackets, quota, allocs);
      && PollEffect(cfg, s, d, allocs, t, e)
      && n == npackets + |Handed(cfg, Taken(s.Get(d).queue, |t.Get(d).queue|), allocs)|
      && (n >= quota || t.Get(d).queue == [])
      && (n > npackets ==> n <= quota)
    decreases |s.Get(d).queue|
  {
    hide ReceiveOne;
    var queue := s.Get(d).queue;
    var (t, n) := PollLoop(cfg, s, d, npackets, quota, allocs);
    if npackets < quota && queue != [] {
      var alloc := NextAlloc(allocs);
      var r, later := ReceiveOne(cfg, s, d, alloc), if alloc then npackets + 1 else npackets;
      PollLoopSpec(cfg, r, d, later, quota, LaterAllocs(allocs), e);
      PollEffectStep(cfg, s, d, allocs, t, e);
      assert PollEffect(cfg, r, d, LaterAllocs(allocs), t, e);
      TakenStep(queue, |t.Get(d).queue|);
      var taken := Taken(queue, |t.Get(d).queue|);
      assert taken[1..] == Taken(Init(queue), |t.Get(d).queue|);
    } else {
      assert queue[..|queue|] == queue && queue[|queue|..] == [];
      assert Taken(queue, |queue|) == [];
    }
  }

  /** The counters of a poll: packets plus drops go up by what left the list. */
  lemma PollCounts<B, K>(cfg: Config, s: Net<B, K>, d: Side, quota: int, allocs: seq<bool>)
    ensures var v, w := s.Get(d), Poll(cfg, s, d, quota, allocs).Get(d);
      && |w.queue| <= |v.queue|
      && w.stats.rxPackets + w.stats.rxDropped == v.stats.rxPackets + v.stats.rxDropped + |v.queue| - |w.queue|
      && w.stats.rxPackets - v.stats.rxPackets <= (if quota > 0 then quota else 0)
      && (w.stats.rxPackets - v.stats.rxPackets < quota ==> w.queue == [])
  {
    PollLoopSpec(cfg, s, d, 0, quota, allocs, d);
    var t := PollLoop(cfg, s, d, 0, quota, allocs).0;
    assert PollEffect(cfg, s, d, allocs, t, d);
    EveryTakenIsCounted(cfg, Taken(s.Get(d).queue, |t.Get(d).queue|), allocs);
  }

  /** A poll with any quota at all takes something off a list that has something on it. */
  lemma PollProgress<B, K>(cfg: Config, s: Net<B, K>, d: Side, quota: int, allocs: seq<bool>)
    requires quota >= 1 && s.Get(d).queue != []
    ensures |Poll(cfg, s, d, quota, allocs).Get(d).queue| < |s.Get(d).queue|
  {
    PollCounts(cfg, s, d, quota, allocs);
    PollLoopSpec(cfg, s, d, 0, quota, allocs, d);
  }

  /** How many calls of a run are polls of d with any quota at all. */
  ghost function PollsOf<K>(es: seq<Event<K>>, d: Side): nat {
    if es == [] then 0
    else (if es[0].PollCall? && es[0].side == d && es[0].quota >= 1 then 1 else 0) + PollsOf(es[1..], d)
  }

  /** No call but a transmission lengthens a list, and each such poll shortens it. */
  lemma StepShortens<B, K>(cfg: Config, s: Net<B, K>, ev: Event<K>, d: Side)
    requires !ev.Tx?
    ensures |Step(cfg, s, ev).Get(d).queue| <= |s.Get(d).queue|
    ensures ev.PollCall? && ev.side == d && ev.quota >= 1 && s.Get(d).queue != [] ==>
              |Step(cfg, s, ev).Get(d).queue| < |s.Get(d).queue|
  {
    match ev
    case PollCall(side, quota, allocs) =>
      PollLoopSpec(cfg, s, side, 0, quota, allocs, d);
      if side == d && quota >= 1 && s.Get(d).queue != [] {
        PollProgress(cfg, s, d, quota, allocs);
      }
    case Timeout(side) =>
      if side == d {} else {}
    case Open(side) =>
      if side == d {} else {}
    case Stop(side) =>
      if side == d {} else {}
  }

  /** Finitely many polls empty the list: as many as it is long will do, in any run without
      transmissions, whatever the quotas, the failures and the calls in between. */
  lemma {:induction false} PollsDrain<B, K>(cfg: Config, s: Net<B, K>, es: seq<Event<K>>, d: Side)
    requires CallRun(cfg, s, es) && forall i | 0 <= i < |es| :: !es[i].Tx?
    requires PollsOf(es, d) >= |s.Get(d).queue|
    ensures Run(cfg, s, es).Get(d).queue == []
    decreases |es|
  {
    hide Step;
    if es != [] {
      StepShortens(cfg, s, es[0], d);
      PollsDrain(cfg, Step(cfg, s, es[0]), es[1..], d);
    }
  }
}
