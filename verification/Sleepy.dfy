/** The sleeping-reader driver as a concurrent protocol: any number of readers inside
    wait_event_interruptible, writers between setting the flag and waking the queue, and proc
    writers, one atomic step at a time in any order. */
module Sleepy {
  import opened Bytes

  const EINVAL := 22
  const EFAULT := 14
  const ERESTARTSYS := 512

  /** Where a reader is. wait_event_interruptible tests the condition once before it queues
      anything, and again every time round its loop, after prepare_to_wait. */
  datatype Pc =
    | Entry          // about to test the flag for the first time
    | Prepare        // about to queue itself and mark itself interruptible
    | Retest         // queued and marked, about to test the flag
    | SawClear       // saw the flag clear, about to look for a signal and call schedule
    | Asleep         // in schedule
    | FinishOk       // saw the flag set, about to leave the queue
    | FinishIntr     // saw a signal, about to leave the queue
    | Granted        // out of the wait, about to look at wake_one
    | Clear          // about to reset the flag
    | Done(ret: int)

  /** A task is interruptible from prepare_to_wait until something wakes it or it leaves. */
  datatype Reader = Reader(pc: Pc, interruptible: bool, signalled: bool)

  datatype Sys = Sys(
    dataPresent: bool,
    wakeOne: bool,
    readers: map<int, Reader>,
    wq: set<int>,
    waking: set<int>)       // writers that have set the flag and not yet called wake_up

  datatype Event =
    | ReadCall(r: int)
    | ReadStep(r: int)
    | Signal(r: int)
    | WriteSet(w: int)
    | WriteWake(w: int)
    | ProcWrite(data: seq<byte>, copied: bool)

  predicate Enabled(s: Sys, e: Event) {
    match e
    case ReadCall(r) => r !in s.readers
    case ReadStep(r) => r in s.readers && CanStep(s.readers[r])
    case Signal(r) => r in s.readers && !s.readers[r].pc.Done?
    case WriteSet(w) => w !in s.waking
    case WriteWake(w) => w in s.waking
    case ProcWrite(_, _) => true
  }

  /** schedule returns only to a task that has been made runnable. */
  predicate CanStep(p: Reader) {
    !p.pc.Done? && (p.pc.Asleep? ==> !p.interruptible)
  }

  /** wake_up_interruptible: every queued task that is interruptible becomes runnable and,
      by autoremove_wake_function, leaves the queue. */
  function Woken(s: Sys): Sys {
    WokenBut(s, {})
  }

  /** The wake-up while the walk along the queue has these entries left. */
  function WokenBut(s: Sys, left: set<int>): Sys {
    s.(readers := map r | r in s.readers ::
         if r in s.wq && r !in left then s.readers[r].(interruptible := false) else s.readers[r],
       wq := set r | r in s.wq && (r in left || r !in s.readers || !s.readers[r].interruptible))
  }

  lemma WakeOne(s: Sys, left: set<int>, r: int)
    requires r in left && left <= s.wq
    ensures var t, u := WokenBut(s, left), WokenBut(s, left - {r});
            if r in t.readers && t.readers[r].interruptible
            then u.readers == t.readers[r := t.readers[r].(interruptible := false)] && u.wq == t.wq - {r}
            else u.readers == t.readers && u.wq == t.wq
  {
  }

  method Pick<T>(s: set<T>) returns (x: T)
    requires s != {}
    ensures x in s
  {
    x :| x in s;
  }

  /** What write_wake_one returns. */
  function ProcReturn(data: seq<byte>, copied: bool): int {
    if |data| > 1 then -EINVAL
    else if |data| == 1 && !copied then -EFAULT
    else if |data| == 1 && data[0] in {0x30, 0x31, 0x32} then 1
    else -EINVAL
  }

  function ProcEffect(s: Sys, data: seq<byte>, copied: bool): Sys {
    if ProcReturn(data, copied) < 0 then s
    else if data[0] == 0x30 then s.(wakeOne := false)
    else if data[0] == 0x31 then s.(wakeOne := true)
    else s.(dataPresent := false)
  }

  function ReaderStep(s: Sys, r: int): Sys
    requires Enabled(s, ReadStep(r))
  {
    var p := s.readers[r];
    match p.pc
    case Entry => Put(s, r, p.(pc := if s.dataPresent then Granted else Prepare))
    case Prepare => Put(s.(wq := s.wq + {r}), r, p.(pc := Retest, interruptible := true))
    case Retest => Put(s, r, p.(pc := if s.dataPresent then FinishOk else SawClear))
    case SawClear => Put(s, r, p.(pc := if p.signalled then FinishIntr else Asleep))
    case Asleep => Put(s, r, p.(pc := Prepare))
    case FinishOk => Put(s.(wq := s.wq - {r}), r, p.(pc := Granted, interruptible := false))
    case FinishIntr => Put(s.(wq := s.wq - {r}), r, p.(pc := Done(-ERESTARTSYS), interruptible := false))
    case Granted => Put(s, r, p.(pc := if s.wakeOne then Clear else Done(0)))
    case Clear => Put(s.(dataPresent := false), r, p.(pc := Done(0)))
  }

  function Put(s: Sys, r: int, p: Reader): Sys {
    s.(readers := s.readers[r := p])
  }

  function Step(s: Sys, e: Event): Sys
    requires Enabled(s, e)
  {
    match e
    case ReadCall(r) => Put(s, r, Reader(Entry, false, false))
    case ReadStep(r) => ReaderStep(s, r)
    case Signal(r) => Put(s, r, s.readers[r].(signalled := true, interruptible := false))
    case WriteSet(w) => s.(dataPresent := true, waking := s.waking + {w})
    case WriteWake(w) => Woken(s).(waking := s.waking - {w})
    case ProcWrite(data, copied) => ProcEffect(s, data, copied)
  }

  const START := Sys(false, false, map[], {}, {})

  predicate Schedule(s: Sys, es: seq<Event>)
    decreases |es|
  {
    es != [] ==> Enabled(s, es[0]) && Schedule(Step(s, es[0]), es[1..])
  }

  function After(s: Sys, es: seq<Event>): Sys
    requires Schedule(s, es)
    decreases |es|
  {
    if es == [] then s else After(Step(s, es[0]), es[1..])
  }

  // ------------------------------------------------------------ no lost wakeup

  /** The reader has decided to sleep, or sleeps, and nothing has made it runnable. */
  predicate Stuck(p: Reader) {
    (p.pc.SawClear? || p.pc.Asleep?) && p.interruptible
  }

  /** Such a reader is on the queue, and while the flag is set a wake-up is on its way. */
  predicate NoLostWakeup(s: Sys) {
    forall r | r in s.readers && Stuck(s.readers[r]) :: r in s.wq && (s.dataPresent ==> s.waking != {})
  }

  /** The reader is inside the loop of wait_event_interruptible: its queue entry, which lies on
      its stack, is alive. */
  predicate InWait(pc: Pc) {
    pc.Prepare? || pc.Retest? || pc.SawClear? || pc.Asleep? || pc.FinishOk? || pc.FinishIntr?
  }

  /** The queue holds only tasks that are in the wait, none that has left it, and a task about
      to sleep is on it. */
  predicate Queued(s: Sys) {
    && (forall r | r in s.wq :: r in s.readers && InWait(s.readers[r].pc))
    && forall r | r in s.readers && s.readers[r].pc.Retest? && s.readers[r].interruptible :: r in s.wq
  }

  lemma StepKeeps(s: Sys, e: Event)
    requires NoLostWakeup(s) && Queued(s) && Enabled(s, e)
    ensures NoLostWakeup(Step(s, e)) && Queued(Step(s, e))
  {
    if e.ReadStep? {
      ReaderStepKeeps(s, e.r);
    } else if e.WriteSet? {
      assert e.w in Step(s, e).waking;
    }
  }

  lemma ReaderStepKeeps(s: Sys, r: int)
    requires NoLostWakeup(s) && Queued(s) && Enabled(s, ReadStep(r))
    ensures NoLostWakeup(ReaderStep(s, r)) && Queued(ReaderStep(s, r))
  {
    match s.readers[r].pc {
      case Prepare =>
      case FinishOk =>
      case FinishIntr =>
      case _ =>
    }
  }

  /** Under every interleaving of readers, writers, signals and proc writes. */
  lemma {:induction false} ScheduleKeeps(s: Sys, es: seq<Event>)
    requires NoLostWakeup(s) && Queued(s) && Schedule(s, es)
    ensures NoLostWakeup(After(s, es)) && Queued(After(s, es))
    decreases |es|
  {
    if es != [] {
      StepKeeps(s, es[0]);
      ScheduleKeeps(Step(s, es[0]), es[1..]);
    }
  }

  lemma NoWakeupIsLost(es: seq<Event>)
    requires Schedule(START, es)
    ensures NoLostWakeup(After(START, es)) && Queued(After(START, es))
  {
    ScheduleKeeps(START, es);
  }

  // ------------------------------------------------------------ the flag

  /** A reader on its way out in wake-one mode, or the command "2". */
  predicate Resets(s: Sys, e: Event) {
    || (e.ReadStep? && e.r in s.readers && s.readers[e.r].pc.Clear?)
    || e == ProcWrite([0x32], true)
  }

  predicate NoReset(s: Sys, es: seq<Event>)
    requires Schedule(s, es)
    decreases |es|
  {
    es != [] ==> !Resets(s, es[0]) && NoReset(Step(s, es[0]), es[1..])
  }

  /** Of the writes and the resets of a schedule, the last is a write. */
  predicate LastIsWrite(s: Sys, es: seq<Event>)
    requires Schedule(s, es)
    decreases |es|
  {
    && es != []
    && ((es[0].WriteSet? && NoReset(Step(s, es[0]), es[1..])) || LastIsWrite(Step(s, es[0]), es[1..]))
  }

  lemma {:induction false} FlagFollows(s: Sys, es: seq<Event>)
    requires Schedule(s, es)
    ensures After(s, es).dataPresent <==> LastIsWrite(s, es) || (s.dataPresent && NoReset(s, es))
    decreases |es|
  {
    if es != [] {
      FlagStep(s, es[0]);
      hide Step, Resets;
      FlagFollows(Step(s, es[0]), es[1..]);
      if es[0].WriteSet? {
        WriteIsNoReset(s, es[0]);
      }
    }
  }

  lemma FlagStep(s: Sys, e: Event)
    requires Enabled(s, e)
    ensures Step(s, e).dataPresent <==> e.WriteSet? || (s.dataPresent && !Resets(s, e))
  {
  }

  lemma WriteIsNoReset(s: Sys, e: Event)
    requires e.WriteSet?
    ensures !Resets(s, e)
  {
  }

  /** At the end of any run the flag is set if and only if, of the writes, the resets by readers
      in wake-one mode and the commands "2" in it, the last one is a write. */
  lemma FlagIffLastIsWrite(es: seq<Event>)
    requires Schedule(START, es)
    ensures After(START, es).dataPresent <==> LastIsWrite(START, es)
  {
    FlagFollows(START, es);
  }

  /** Of the commands "0" and "1" of a schedule, the last is a "1"; mode is how it began. */
  predicate WakeOneMode(es: seq<Event>, mode: bool) {
    if es == [] then mode
    else WakeOneMode(es[1..], if es[0] == ProcWrite([0x31], true) then true
                              else if es[0] == ProcWrite([0x30], true) then false else mode)
  }

  lemma {:induction false} ModeFollows(s: Sys, es: seq<Event>)
    requires Schedule(s, es)
    ensures After(s, es).wakeOne <==> WakeOneMode(es, s.wakeOne)
    decreases |es|
  {
    if es != [] {
      ModeStep(s, es[0]);
      hide Step;
      ModeFollows(Step(s, es[0]), es[1..]);
    }
  }

  lemma ModeStep(s: Sys, e: Event)
    requires Enabled(s, e)
    ensures Step(s, e).wakeOne <==> if e == ProcWrite([0x31], true) then true
                                    else if e == ProcWrite([0x30], true) then false else s.wakeOne
  {
    if e.ProcWrite? && |e.data| == 1 {
      assert e.data == [e.data[0]];
    }
  }

  /** A reader that has been granted its read returns 0. It resets the flag on its way out if and
      only if the driver has been put in wake-one mode: by a "1" with no "0" after it. */
  lemma ModeDecides(es: seq<Event>, r: int)
    requires Schedule(START, es)
    requires r in After(START, es).readers && After(START, es).readers[r].pc.Granted?
    ensures var s := After(START, es);
            var t := ReaderStep(s, r);
            if WakeOneMode(es, false)
            then CanStep(t.readers[r]) && ReaderStep(t, r).readers[r].pc == Done(0) && !ReaderStep(t, r).dataPresent
            else t.readers[r].pc == Done(0) && t.dataPresent == s.dataPresent
  {
    ModeFollows(START, es);
  }

  // ------------------------------------------------------------ what a read returns

  /** The reader has found the flag set and is on its way out. */
  predicate Committed(pc: Pc) {
    pc.FinishOk? || pc.Granted? || pc.Clear? || pc == Done(0)
  }

  /** Somewhere in the schedule the reader tests the flag and finds it set. */
  predicate Sees(s: Sys, es: seq<Event>, r: int)
    requires Schedule(s, es)
    decreases |es|
  {
    && es != []
    && ((es[0] == ReadStep(r) && s.dataPresent && (s.readers[r].pc.Entry? || s.readers[r].pc.Retest?))
        || Sees(Step(s, es[0]), es[1..], r))
  }

  predicate Interrupted(p: Reader) {
    p.signalled || p.pc.FinishIntr? || p.pc == Done(-ERESTARTSYS)
  }

  /** A read that returns 0 saw the flag set; one that returns -ERESTARTSYS was signalled; and
      a read returns nothing else. */
  lemma ReadReturns(es: seq<Event>, r: int)
    requires Schedule(START, es) && r in After(START, es).readers && After(START, es).readers[r].pc.Done?
    ensures var ret := After(START, es).readers[r].pc.ret;
            (ret == 0 && Sees(START, es, r)) || (ret == -ERESTARTSYS && Signal(r) in es)
  {
    Traced(START, es, r);
  }

  /** What the program counter of a reader says about its past. */
  lemma {:induction false} Traced(s: Sys, es: seq<Event>, r: int)
    requires Schedule(s, es) && r in After(s, es).readers && r !in s.readers
    ensures var p := After(s, es).readers[r];
            && (Committed(p.pc) ==> Sees(s, es, r))
            && (Interrupted(p) ==> Signal(r) in es)
            && (p.pc.Done? ==> p.pc.ret == 0 || p.pc.ret == -ERESTARTSYS)
    decreases |es|
  {
    hide Step;
    if r in Step(s, es[0]).readers {
      Newcomer(s, es[0], r);
      TracedFrom(Step(s, es[0]), es[1..], r);
    } else {
      Traced(Step(s, es[0]), es[1..], r);
    }
  }

  lemma Newcomer(s: Sys, e: Event, r: int)
    requires Enabled(s, e) && r !in s.readers && r in Step(s, e).readers
    ensures Step(s, e).readers[r] == Reader(Entry, false, false)
  {
  }

  lemma {:induction false} TracedFrom(s: Sys, es: seq<Event>, r: int)
    requires Schedule(s, es) && r in s.readers
    ensures r in After(s, es).readers
    ensures var p := After(s, es).readers[r];
            && (Committed(p.pc) ==> Sees(s, es, r) || Committed(s.readers[r].pc))
            && (Interrupted(p) ==> Signal(r) in es || Interrupted(s.readers[r]))
            && (p.pc.Done? ==> p.pc.ret == 0 || p.pc.ret == -ERESTARTSYS || p.pc == s.readers[r].pc)
    decreases |es|
  {
    if es != [] {
      TracedStep(s, es[0], r);
      TracedFrom(Step(s, es[0]), es[1..], r);
    }
  }

  lemma TracedStep(s: Sys, e: Event, r: int)
    requires Enabled(s, e) && r in s.readers
    ensures r in Step(s, e).readers
    ensures var p, q := s.readers[r], Step(s, e).readers[r];
            && (Committed(q.pc) && !Committed(p.pc) ==>
                  e == ReadStep(r) && s.dataPresent && (p.pc.Entry? || p.pc.Retest?))
            && (Interrupted(q) ==> e == Signal(r) || Interrupted(p))
            && (q.pc.Done? ==> q.pc.ret == 0 || q.pc.ret == -ERESTARTSYS || q.pc == p.pc)
  {
    if e == ReadStep(r) {} else {}
  }

  /** What the three proc commands are for: after "1" a reader that was granted its read resets
      the flag on its way out, after "0" it leaves the flag alone, and after "2" a reader that
      comes in goes to sleep. Anything else is refused and changes nothing. */
  lemma ProcCommands(s: Sys, r: int, data: seq<byte>, copied: bool)
    requires r in s.readers
    ensures var t := Step(s, ProcWrite(data, copied));
      && t.readers == s.readers && t.wq == s.wq && t.waking == s.waking
      && (copied && data == [0x31] && s.readers[r].pc.Granted? ==>
            var u := ReaderStep(ReaderStep(t, r), r); u.readers[r].pc == Done(0) && !u.dataPresent)
      && (copied && data == [0x30] && s.readers[r].pc.Granted? ==>
            var u := ReaderStep(t, r); u.readers[r].pc == Done(0) && u.dataPresent == s.dataPresent)
      && (copied && data == [0x32] && s.readers[r].pc.Entry? ==> ReaderStep(t, r).readers[r].pc == Prepare)
      && (t != s ==> copied && (data == [0x30] || data == [0x31] || data == [0x32]))
      && ProcReturn(data, copied) == (if copied && data in [[0x30], [0x31], [0x32]] then 1
                                      else if |data| == 1 && !copied then -14 else -22)
  {
    assert |data| == 1 ==> data == [data[0]];
  }

  // ------------------------------------------------------------ progress

  /** A wake-up reaches every reader that had decided to sleep. It takes exactly the
      interruptible tasks off the queue and makes them runnable, and does nothing else. */
  lemma WakeReachesAll(s: Sys, w: int)
    requires NoLostWakeup(s) && Queued(s) && Enabled(s, WriteWake(w))
    ensures var t := Step(s, WriteWake(w));
      && (forall r | r in s.readers :: !Stuck(t.readers[r]))
      && (forall r | r in s.readers ::
            t.readers[r] == s.readers[r].(interruptible := s.readers[r].interruptible && r !in s.wq))
      && (forall r | r in s.readers :: r in t.wq <==> r in s.wq && !s.readers[r].interruptible)
      && t.readers.Keys == s.readers.Keys && t.dataPresent == s.dataPresent && t.waking == s.waking - {w}
  {
  }

  /** How many of its own steps a reader may need to get out once the flag stays set. */
  function Rank(pc: Pc): nat {
    match pc
    case SawClear => 7
    case Asleep => 6
    case Prepare => 5
    case Retest => 4
    case Entry => 3
    case FinishOk => 3
    case Granted => 2
    case Clear => 1
    case _ => 0
  }

  /** Until the reader has returned, nobody but the reader itself resets the flag. */
  predicate NoOtherReset(s: Sys, es: seq<Event>, r: int)
    requires Schedule(s, es)
    decreases |es|
  {
    es != [] && r in s.readers && !s.readers[r].pc.Done? ==>
      (es[0] == ReadStep(r) || !Resets(s, es[0])) && NoOtherReset(Step(s, es[0]), es[1..], r)
  }

  function StepsOf(es: seq<Event>, r: int): nat {
    if es == [] then 0 else (if es[0] == ReadStep(r) then 1 else 0) + StepsOf(es[1..], r)
  }

  predicate Unhindered(s: Sys, r: int) {
    && r in s.readers && !Stuck(s.readers[r]) && !s.readers[r].signalled
    && !s.readers[r].pc.FinishIntr? && (s.readers[r].pc.Done? ==> s.readers[r].pc == Done(0))
  }

  /** Once woken with the flag set, a reader can always step, and returns 0 after at most as
      many of its own steps as its rank, whatever everybody else does short of a reset. */
  lemma {:induction false} ReaderGetsOut(s: Sys, es: seq<Event>, r: int)
    requires Schedule(s, es) && Unhindered(s, r) && (s.dataPresent || s.readers[r].pc.Done?)
    requires NoOtherReset(s, es, r) && Signal(r) !in es
    ensures Unhindered(After(s, es), r) && Rank(s.readers[r].pc) <= 7
    ensures var p := After(s, es).readers[r];
            && (p.pc == Done(0) || CanStep(p))
            && Rank(p.pc) + StepsOf(es, r) <= Rank(s.readers[r].pc)
            && (StepsOf(es, r) == Rank(s.readers[r].pc) ==> p.pc == Done(0))
    decreases |es|
  {
    if es != [] {
      UnhinderedStep(s, es[0], r);
      FlagStep(s, es[0]);
      ReaderGetsOut(Step(s, es[0]), es[1..], r);
    }
  }

  lemma UnhinderedStep(s: Sys, e: Event, r: int)
    requires Enabled(s, e) && Unhindered(s, r) && (s.dataPresent || s.readers[r].pc.Done?) && e != Signal(r)
    ensures var p, q := s.readers[r], Step(s, e).readers[r];
      && Unhindered(Step(s, e), r)
      && Rank(q.pc) + (if e == ReadStep(r) then 1 else 0) <= Rank(p.pc)
      && (p.pc.Done? ==> q.pc.Done?)
      && (e == ReadStep(r) && Resets(s, e) ==> q.pc.Done?)
  {
  }

  /** So after a write's wake-up every reader without a signal returns 0 within its rank, which
      is at most 7 steps, provided nobody has reset the flag since the last write and nobody
      else does before it is out. */
  lemma WriteReleasesReaders(before: seq<Event>, w: int, es: seq<Event>, r: int)
    requires Schedule(START, before) && LastIsWrite(START, before)
    requires Enabled(After(START, before), WriteWake(w))
    requires var s := Step(After(START, before), WriteWake(w));
             && Schedule(s, es) && NoOtherReset(s, es, r) && Signal(r) !in es
             && r in s.readers && !Interrupted(s.readers[r]) && StepsOf(es, r) == Rank(s.readers[r].pc)
    ensures var end := After(Step(After(START, before), WriteWake(w)), es);
            r in end.readers && end.readers[r].pc == Done(0)
  {
    var s := After(START, before);
    ScheduleKeeps(START, before);
    FlagIffLastIsWrite(before);
    WakeReachesAll(s, w);
    if s.readers[r].pc.Done? {
      ReadReturns(before, r);
    }
    ReaderGetsOut(Step(s, WriteWake(w)), es, r);
  }

  /** How many of its own steps a reader may need to get out once it has been signalled. */
  function SignalRank(pc: Pc): nat {
    match pc
    case Asleep => 6
    case Entry => 6
    case Prepare => 5
    case Retest => 4
    case FinishOk => 3
    case SawClear => 2
    case Granted => 2
    case FinishIntr => 1
    case Clear => 1
    case Done(_) => 0
  }

  /** A reader that has been signalled, and not yet found the flag set. */
  predicate Signalled(s: Sys, r: int) {
    && r in s.readers && s.readers[r].signalled && (s.readers[r].pc.Asleep? ==> !s.readers[r].interruptible)
    && !Committed(s.readers[r].pc) && (s.readers[r].pc.Done? ==> s.readers[r].pc == Done(-512))
  }

  /** A signal reaches any reader that is still waiting, asleep or not. */
  lemma SignalReaches(s: Sys, r: int)
    requires Enabled(s, Signal(r)) && !Committed(s.readers[r].pc)
    ensures Signalled(Step(s, Signal(r)), r) && Step(s, Signal(r)).readers[r].pc == s.readers[r].pc
  {
  }

  /** A signalled reader can always step, however the flag moves, and is out after as many of
      its own steps as its rank: with 0 if it comes to test the flag and finds it set, and else
      with -512, which is -ERESTARTSYS. */
  lemma {:induction false} SignalledGetsOut(s: Sys, es: seq<Event>, r: int)
    requires Schedule(s, es) && Signalled(s, r)
    ensures r in After(s, es).readers
    ensures var p := After(s, es).readers[r];
            && (p.pc.Done? || CanStep(p))
            && SignalRank(p.pc) + StepsOf(es, r) <= SignalRank(s.readers[r].pc)
            && (p.pc.Done? ==> p.pc == Done(if Sees(s, es, r) then 0 else -512))
            && (StepsOf(es, r) == SignalRank(s.readers[r].pc) ==> p.pc.Done?)
    decreases |es|
  {
    if es != [] {
      SignalledStep(s, es[0], r);
      if Signalled(Step(s, es[0]), r) {
        SignalledGetsOut(Step(s, es[0]), es[1..], r);
      } else {
        CommittedGetsOut(Step(s, es[0]), es[1..], r);
      }
    }
  }

  lemma SignalledStep(s: Sys, e: Event, r: int)
    requires Enabled(s, e) && Signalled(s, r)
    ensures var p, t := s.readers[r], Step(s, e);
      && r in t.readers && t.readers[r].signalled
      && SignalRank(t.readers[r].pc) + (if e == ReadStep(r) then 1 else 0) <= SignalRank(p.pc)
      && (if e == ReadStep(r) && s.dataPresent && (p.pc.Entry? || p.pc.Retest?)
          then Committed(t.readers[r].pc) else Signalled(t, r))
  {
  }

  /** A reader that has found the flag set returns 0. */
  lemma {:induction false} CommittedGetsOut(s: Sys, es: seq<Event>, r: int)
    requires Schedule(s, es) && r in s.readers && Committed(s.readers[r].pc)
    ensures r in After(s, es).readers
    ensures var p := After(s, es).readers[r];
            && Committed(p.pc) && (p.pc == Done(0) || CanStep(p))
            && SignalRank(p.pc) + StepsOf(es, r) <= SignalRank(s.readers[r].pc)
    decreases |es|
  {
    if es != [] {
      CommittedStep(s, es[0], r);
      CommittedGetsOut(Step(s, es[0]), es[1..], r);
    }
  }

  lemma CommittedStep(s: Sys, e: Event, r: int)
    requires Enabled(s, e) && r in s.readers && Committed(s.readers[r].pc)
    ensures var p, t := s.readers[r], Step(s, e);
      && r in t.readers && Committed(t.readers[r].pc)
      && SignalRank(t.readers[r].pc) + (if e == ReadStep(r) then 1 else 0) <= SignalRank(p.pc)
  {
  }

  // ------------------------------------------------------------ the driver

  /** The globals of the driver and the tasks inside it, updated in place. */
  class Driver {
    var dataPresent: bool
    var wakeOne: bool
    var readers: map<int, Reader>
    var wq: set<int>
    var waking: set<int>

    ghost function Model(): Sys
      reads this
    {
      Sys(dataPresent, wakeOne, readers, wq, waking)
    }

    constructor ()
      ensures Model() == START
    {
      dataPresent, wakeOne, readers, wq, waking := false, false, map[], {}, {};
    }

    method Set(r: int, p: Reader)
      modifies `readers
      ensures Model() == Put(old(Model()), r, p)
    {
      readers := readers[r := p];
    }

    /** The next atomic step of the reader's sleepy_read. */
    method AdvanceRead(r: int)
      requires Enabled(Model(), ReadStep(r))
      modifies this
      ensures Model() == Step(old(Model()), ReadStep(r))
    {
      var p := readers[r];
      match p.pc
      case Entry => Set(r, p.(pc := if dataPresent then Granted else Prepare));
      case Prepare =>
        wq := wq + {r};
        Set(r, p.(pc := Retest, interruptible := true));
      case Retest => Set(r, p.(pc := if dataPresent then FinishOk else SawClear));
      case SawClear => Set(r, p.(pc := if p.signalled then FinishIntr else Asleep));
      case Asleep => Set(r, p.(pc := Prepare));
      case FinishOk =>
        wq := wq - {r};
        Set(r, p.(pc := Granted, interruptible := false));
      case FinishIntr =>
        wq := wq - {r};
        Set(r, p.(pc := Done(-ERESTARTSYS), interruptible := false));
      case Granted => Set(r, p.(pc := if wakeOne then Clear else Done(0)));
      case Clear =>
        dataPresent := false;
        Set(r, p.(pc := Done(0)));
    }

    /** sleepy_write up to the wake-up. */
    method SetFlag(w: int)
      requires Enabled(Model(), WriteSet(w))
      modifies `dataPresent, `waking
      ensures Model() == Step(old(Model()), WriteSet(w))
    {
      dataPresent := true;
      waking := waking + {w};
    }

    /** wake_up_interruptible, which walks the queue, and the end of sleepy_write. */
    method WakeUp(w: int)
      requires Enabled(Model(), WriteWake(w))
      modifies `readers, `wq, `waking
      ensures Model() == Step(old(Model()), WriteWake(w))
    {
      ghost var was := Model();
      var left := wq;
      while left != {}
        invariant left <= was.wq && Model() == WokenBut(was, left)
        decreases |left|
      {
        var r := Pick(left);
        WakeOne(was, left, r);
        left := left - {r};
        if r in readers && readers[r].interruptible {
          readers := readers[r := readers[r].(interruptible := false)];
          wq := wq - {r};
        }
      }
      waking := waking - {w};
    }

    /** write_wake_one */
    method WriteWakeOne(data: seq<byte>, copied: bool) returns (ret: int)
      modifies `wakeOne, `dataPresent
      ensures Model() == Step(old(Model()), ProcWrite(data, copied))
      ensures ret == ProcReturn(data, copied)
      ensures ret < 0 ==> Model() == old(Model())
    {
      if |data| > 1 {
        return -EINVAL;
      }
      if |data| == 1 && !copied {
        return -EFAULT;
      }
      var first := if |data| == 1 then data[0] else 0;
      match first {
        case 0x30 => wakeOne := false;
        case 0x31 => wakeOne := true;
        case 0x32 => dataPresent := false;
        case _ => return -EINVAL;
      }
      return |data|;
    }
  }
}
