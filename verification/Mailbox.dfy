/** The serial driver's receive path: a one-byte mailbox between the interrupt handler and one
    reader, the reader stepping through wait, copy and clear, an interrupt possible between any
    two steps. */
module Mailbox {
  import opened Bytes
  import opened Serial

  /** Where the reader is: in no call, spinning on rflag, about to copy, about to clear. */
  datatype Pc = Idle | Wait | Copy | Clear

  /** The driver's globals, the reader, and the history: the bytes the handler stored, and for
      each finished copy which of them it copied and what reached the user, if copy_to_user
      worked. The reader does not look whether it did. */
  datatype Mail = Mail(
    rbuff: bv8, rflag: bool, tflag: bool, pc: Pc,
    received: seq<bv8>, taken: seq<int>, results: seq<Option<bv8>>, overruns: nat)

  datatype Event =
    | Interrupt(iir: bv8, rbr: bv8)
    | Call
    | Proceed(copied: bool)

  const START := Mail(0, false, true, Idle, [], [], [], 0)

  /** Bit 0 of the interrupt identification register is clear while an interrupt is pending. */
  predicate Pending(iir: bv8) {
    iir & 1 == 0
  }

  /** Bits 1 to 3 say which. */
  function Source(iir: bv8): bv8 {
    (iir >> 1) & 7
  }

  predicate Arrives(iir: bv8) {
    Pending(iir) && Source(iir) == 2
  }

  /** The two codes of the 16450 that the handler serves: 4 in the low four bits for received
      data, 2 for an empty transmit register. */
  lemma CodesServed(iir: bv8)
    ensures Arrives(iir) <==> iir & 0x0f == 0x04
    ensures Pending(iir) && Source(iir) == 1 <==> iir & 0x0f == 0x02
    ensures Pending(iir) <==> iir as int % 2 == 0
  {
  }

  /** irq_handler */
  function Handle(m: Mail, iir: bv8, rbr: bv8): Mail {
    if !Pending(iir) then m
    else if Source(iir) == 1 then m.(tflag := false)
    else if Source(iir) == 2 then
      m.(rbuff := rbr, rflag := true, received := m.received + [rbr],
         overruns := m.overruns + if m.rflag then 1 else 0)
    else m
  }

  predicate Enabled(m: Mail, e: Event) {
    match e
    case Interrupt(_, _) => true
    case Call => m.pc.Idle?
    case Proceed(_) => !m.pc.Idle?
  }

  /** One step of NAME_read. */
  function Advance(m: Mail, copied: bool): Mail {
    match m.pc
    case Idle => m
    case Wait => if m.rflag then m.(pc := Copy) else m
    case Copy => m.(pc := Clear, taken := m.taken + [|m.received| - 1],
                    results := m.results + [if copied then Some(m.rbuff) else None])
    case Clear => m.(pc := Idle, rflag := false)
  }

  function Step(m: Mail, e: Event): Mail
    requires Enabled(m, e)
  {
    match e
    case Interrupt(iir, rbr) => Handle(m, iir, rbr)
    case Call => m.(pc := Wait)
    case Proceed(copied) => Advance(m, copied)
  }

  predicate Schedule(m: Mail, es: seq<Event>)
    decreases |es|
  {
    es != [] ==> Enabled(m, es[0]) && Schedule(Step(m, es[0]), es[1..])
  }

  function After(m: Mail, es: seq<Event>): Mail
    requires Schedule(m, es)
    decreases |es|
  {
    if es == [] then m else After(Step(m, es[0]), es[1..])
  }

  /** A byte sits in the mailbox that no copy has taken. */
  function Waiting(m: Mail): nat {
    if m.rflag && !m.pc.Clear? then 1 else 0
  }

  /** The copies are of ever later arrivals, and hand on what those were. */
  predicate Ordered(m: Mail) {
    && |m.taken| == |m.results|
    && (forall i | 0 <= i < |m.taken| :: 0 <= m.taken[i] < |m.received|)
    && (forall i, j | 0 <= i < j < |m.taken| :: m.taken[i] < m.taken[j])
    && (forall i | 0 <= i < |m.results| && m.results[i].Some? :: m.results[i].value == m.received[m.taken[i]])
  }

  /** What reads return is an in-order subsequence of what arrived, each arrival returned at
      most once, and every arrival is accounted for: copied, still waiting, or overrun, that is,
      it found the flag still up. The rest ties the globals to that history. */
  predicate Sound(m: Mail) {
    && Ordered(m)
    && (m.rflag ==> m.received != [] && m.rbuff == Last(m.received))
    && ((m.pc.Copy? || m.pc.Clear?) ==> m.rflag)
    && (Waiting(m) == 1 ==> forall i | 0 <= i < |m.taken| :: m.taken[i] < |m.received| - 1)
    && |m.received| == |m.results| + Waiting(m) + m.overruns
  }

  lemma StepSound(m: Mail, e: Event)
    requires Sound(m) && Enabled(m, e)
    ensures Sound(Step(m, e))
  {
    match e {
      case Interrupt(iir, rbr) => HandleSound(m, iir, rbr);
      case Call =>
      case Proceed(copied) => AdvanceSound(m, copied);
    }
  }

  lemma HandleSound(m: Mail, iir: bv8, rbr: bv8)
    requires Sound(m)
    ensures Sound(Handle(m, iir, rbr))
  {
    if Arrives(iir) {
      assert Last(m.received + [rbr]) == rbr;
    }
  }

  lemma AdvanceSound(m: Mail, copied: bool)
    requires Sound(m)
    ensures Sound(Advance(m, copied))
  {
    match m.pc {
      case Copy =>
      case _ =>
    }
  }

  lemma StartSound()
    ensures Sound(START)
  {
  }

  lemma {:induction false} ScheduleSound(m: Mail, es: seq<Event>)
    requires Sound(m) && Schedule(m, es)
    ensures Sound(After(m, es))
    decreases |es|
  {
    if es != [] {
      StepSound(m, es[0]);
      ScheduleSound(Step(m, es[0]), es[1..]);
    }
  }

  /** Under every interleaving of calls, steps and interrupts. */
  lemma ReadsAreArrivalsInOrder(es: seq<Event>)
    requires Schedule(START, es)
    ensures Sound(After(START, es))
  {
    StartSound();
    ScheduleSound(START, es);
  }

  /** Every byte of the schedule arrives with the flag down. */
  predicate FlagDown(m: Mail, es: seq<Event>)
    requires Schedule(m, es)
    decreases |es|
  {
    es != [] ==>
      && (es[0].Interrupt? && Arrives(es[0].iir) ==> !m.rflag)
      && FlagDown(Step(m, es[0]), es[1..])
  }

  /** Overruns are counted and never forgotten. */
  lemma {:induction false} OverrunsGrow(m: Mail, es: seq<Event>)
    requires Schedule(m, es)
    ensures After(m, es).overruns >= m.overruns
    ensures After(m, es).overruns == m.overruns <==> FlagDown(m, es)
    decreases |es|
  {
    if es != [] {
      OverrunsGrow(Step(m, es[0]), es[1..]);
    }
  }

  /** Every copy of the schedule succeeds. */
  predicate CopiesWork(m: Mail, es: seq<Event>)
    requires Schedule(m, es)
    decreases |es|
  {
    es != [] ==>
      && (es[0].Proceed? && m.pc.Copy? ==> es[0].copied)
      && CopiesWork(Step(m, es[0]), es[1..])
  }

  predicate AllSome(results: seq<Option<bv8>>) {
    forall i | 0 <= i < |results| :: results[i].Some?
  }

  /** A failed copy is never made good. */
  lemma {:induction false} FailuresStay(m: Mail, es: seq<Event>)
    requires Schedule(m, es)
    ensures AllSome(After(m, es).results) <==> AllSome(m.results) && CopiesWork(m, es)
    decreases |es|
  {
    if es != [] {
      var t := Step(m, es[0]);
      FailuresStay(t, es[1..]);
      if es[0].Proceed? && m.pc.Copy? {
        assert t.results[..|m.results|] == m.results;
        assert forall i | 0 <= i < |m.results| :: t.results[i] == m.results[i];
        assert t.results[|m.results|].Some? <==> es[0].copied;
      }
    }
  }

  /** Without overruns every arrival is copied or waiting, and the copies are the arrivals from
      the first on. */
  lemma NothingOverrun(es: seq<Event>)
    requires Schedule(START, es)
    ensures var m := After(START, es);
            FlagDown(START, es) <==> |m.results| + Waiting(m) == |m.received|
    ensures var m := After(START, es);
            FlagDown(START, es) ==>
              && |m.results| <= |m.received|
              && forall i | 0 <= i < |m.results| && m.results[i].Some? :: m.results[i].value == m.received[i]
  {
    ReadsAreArrivalsInOrder(es);
    OverrunsGrow(START, es);
    if FlagDown(START, es) {
      TakenInARow(After(START, es));
    }
  }

  function Somes(bytes: seq<bv8>): (r: seq<Option<bv8>>)
    ensures |r| == |bytes|
  {
    seq(|bytes|, i requires 0 <= i < |bytes| => Some(bytes[i]))
  }

  /** What the user has been given, and then the byte that waits for the next copy. */
  function Handed(m: Mail): (r: seq<Option<bv8>>)
    ensures |r| == |m.results| + Waiting(m)
  {
    m.results + if Waiting(m) == 1 then [Some(m.rbuff)] else []
  }

  /** In every run, what has been handed on at the end is exactly what arrived, byte by byte, if
      and only if each byte arrived with the flag down and each copy to the user succeeded. */
  lemma NothingLost(es: seq<Event>)
    requires Schedule(START, es)
    ensures var m := After(START, es);
            FlagDown(START, es) && CopiesWork(START, es) <==> Handed(m) == Somes(m.received)
    ensures var m := After(START, es);
            FlagDown(START, es) && CopiesWork(START, es) <==>
              AllSome(m.results) && |m.results| + Waiting(m) == |m.received|
  {
    var m := After(START, es);
    NothingOverrun(es);
    FailuresStay(START, es);
    ReadsAreArrivalsInOrder(es);
    assert forall i | 0 <= i < |m.results| :: Handed(m)[i] == m.results[i];
    if AllSome(m.results) && |m.results| + Waiting(m) == |m.received| {
      forall i | 0 <= i < |m.received| ensures Handed(m)[i] == Some(m.received[i]) {
      }
      assert Handed(m) == Somes(m.received);
    }
  }

  /** A byte that arrives with the flag down and is lost to a failed copy. */
  const FAILED_COPY: seq<Event> := [Interrupt(4, 0x41), Call, Proceed(true), Proceed(false), Proceed(true)]

  lemma CopyLosesByte()
    ensures Schedule(START, FAILED_COPY) && FlagDown(START, FAILED_COPY)
    ensures var m := After(START, FAILED_COPY); m.received == [0x41] && m.results == [None] && !m.rflag && m.pc.Idle?
  {
    var a := Step(START, FAILED_COPY[0]);
    var b := Step(a, Call);
    var c := Step(b, Proceed(true));
    var d := Step(c, Proceed(false));
    assert FAILED_COPY[1..] == [Call, Proceed(true), Proceed(false), Proceed(true)];
    assert FAILED_COPY[1..][1..] == [Proceed(true), Proceed(false), Proceed(true)];
    assert FAILED_COPY[1..][1..][1..] == [Proceed(false), Proceed(true)];
    assert FAILED_COPY[1..][1..][1..][1..] == [Proceed(true)];
    assert Schedule(d, [Proceed(true)]) && Schedule(c, [Proceed(false), Proceed(true)]);
    assert After(d, [Proceed(true)]) == Step(d, Proceed(true));
  }

  lemma TakenInARow(m: Mail)
    requires Sound(m) && m.overruns == 0
    ensures forall i | 0 <= i < |m.taken| :: m.taken[i] == i
  {
    forall i | 0 <= i < |m.taken| ensures m.taken[i] == i {
      AtLeast(m.taken, i);
      AtMost(m.taken, i, |m.received| - Waiting(m));
    }
  }

  lemma {:induction false} AtLeast(s: seq<int>, i: nat)
    requires i < |s| && s[0] >= 0 && forall i, j | 0 <= i < j < |s| :: s[i] < s[j]
    ensures s[i] >= i
  {
    if i > 0 {
      AtLeast(s, i - 1);
    }
  }

  lemma {:induction false} AtMost(s: seq<int>, i: nat, n: nat)
    requires i < |s| <= n && forall i, j | 0 <= i < j < |s| :: s[i] < s[j]
    requires forall i | 0 <= i < |s| :: s[i] < n
    ensures s[i] <= n - (|s| - i)
    decreases |s| - i
  {
    if i + 1 < |s| {
      AtMost(s, i + 1, n);
    }
  }

  /** A transmit-empty interrupt, going by the four low bits of the identification register. */
  predicate TransmitEmpty(e: Event) {
    e.Interrupt? && e.iir & 0x0f == 0x02
  }

  /** The transmit flag is up at the start and comes down for good with the first interrupt that
      says the transmitter is empty: nothing else moves it. */
  lemma TransmitFlag(es: seq<Event>)
    requires Schedule(START, es)
    ensures After(START, es).tflag <==> forall i | 0 <= i < |es| :: !TransmitEmpty(es[i])
  {
    TransmitFlagFrom(START, es);
  }

  lemma {:induction false} TransmitFlagFrom(m: Mail, es: seq<Event>)
    requires Schedule(m, es)
    ensures After(m, es).tflag <==> m.tflag && forall i | 0 <= i < |es| :: !TransmitEmpty(es[i])
    decreases |es|
  {
    if es != [] {
      FlagStep(m, es[0]);
      hide Step, TransmitEmpty;
      TransmitFlagFrom(Step(m, es[0]), es[1..]);
      assert forall i | 0 < i < |es| :: es[i] == es[1..][i - 1];
    }
  }

  lemma FlagStep(m: Mail, e: Event)
    requires Enabled(m, e)
    ensures Step(m, e).tflag <==> m.tflag && !TransmitEmpty(e)
  {
    if e.Interrupt? {
      CodesServed(e.iir);
    }
  }

  /** The globals, updated by the handler and the read call; the history is ghost. */
  class Port {
    const uart: Uart
    var rbuff: bv8
    var rflag: bool
    var tflag: bool
    var pc: Pc
    ghost var received: seq<bv8>
    ghost var taken: seq<int>
    var results: seq<Option<bv8>>
    ghost var overruns: nat

    ghost function Model(): Mail
      reads this
    {
      Mail(rbuff, rflag, tflag, pc, received, taken, results, overruns)
    }

    constructor (uart: Uart)
      ensures this.uart == uart && Model() == START
    {
      this.uart := uart;
      rbuff, rflag, tflag, pc := 0, false, true, Idle;
      received, taken, results, overruns := [], [], [], 0;
    }

    /** irq_handler, which takes whatever the data port shows for the received byte. */
    method Irq() returns (handled: bool)
      modifies this
      ensures Model() == Step(old(Model()), Interrupt(uart.iir, Inb(uart.Model(), DATA_PORT)))
      ensures handled <==> Pending(uart.iir)
    {
      var iir := uart.Read(IIR_PORT);
      if !Pending(iir) {
        return false;
      }
      if Source(iir) == 1 {
        tflag := false;
      } else if Source(iir) == 2 {
        overruns := overruns + if rflag then 1 else 0;
        rbuff := uart.Read(DATA_PORT);
        received := received + [rbuff];
        rflag := true;
      }
      return true;
    }

    method BeginRead()
      requires Enabled(Model(), Call)
      modifies `pc
      ensures Model() == Step(old(Model()), Call)
    {
      pc := Wait;
    }

    /** The next step of NAME_read. */
    method AdvanceRead(copied: bool)
      requires Enabled(Model(), Proceed(copied))
      modifies this
      ensures Model() == Step(old(Model()), Proceed(copied))
    {
      match pc {
        case Idle =>
        case Wait =>
          if rflag {
            pc := Copy;
          }
        case Copy =>
          taken := taken + [|received| - 1];
          results := results + [if copied then Some(rbuff) else None];
          pc := Clear;
        case Clear =>
          rflag := false;
          pc := Idle;
      }
    }
  }
}
