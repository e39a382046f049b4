/** The serial driver as a whole: a task that opens and configures the line, write by write to
    the ports, the interrupt handler and the reader, all interleaved. The handler reads the data
    port whatever the DLAB bit is, so a byte that arrives while the divisor latch is open may be
    stored as something else. */
module SerialLine {
  import opened Bytes
  import opened Serial
  import opened Mailbox

  datatype Out = Out(port: nat, value: bv8)

  datatype Request = OpenLine | Change(cmd: Command)

  /** The port writes of NAME_open, or of NAME_ioctl for a command, in order. The line control
      register is read when the call begins. */
  function Writes(u: Regs, r: Request): seq<Out> {
    match r
    case OpenLine =>
      [Out(INT_PORT, 0x00), Out(LCR_PORT, 0x80), Out(DATA_PORT, 0x0c), Out(INT_PORT, 0x00),
       Out(LCR_PORT, 0x00), Out(LCR_PORT, 0x0b), Out(INT_PORT, 0x03)]
    case Change(Baud9600) => BaudWrites(u.lcr, 0x0c)
    case Change(Baud19200) => BaudWrites(u.lcr, 0x06)
    case Change(EnableInterrupts) => [Out(INT_PORT, 0x03)]
    case Change(DisableInterrupts) => [Out(INT_PORT, 0x00)]
    case Change(Unsupported(_)) => []
    case Change(cmd) => [Out(LCR_PORT, LineControl(u.lcr, cmd))]
  }

  function BaudWrites(prev: bv8, low: bv8): seq<Out> {
    [Out(LCR_PORT, prev | 0x80), Out(DATA_PORT, low), Out(INT_PORT, 0x00), Out(LCR_PORT, prev)]
  }

  predicate ChangesBaud(r: Request) {
    r == Change(Baud9600) || r == Change(Baud19200)
  }

  function Next(u: Regs, a: Out): Regs {
    Outb(u, a.port, a.value)
  }

  function OutAll(u: Regs, outs: seq<Out>): Regs
    decreases |outs|
  {
    if outs == [] then u else OutAll(Next(u, outs[0]), outs[1..])
  }

  // ------------------------------------------------------------ one request

  lemma OutOne(u: Regs, a: Out)
    ensures OutAll(u, [a]) == Next(u, a)
  {
    assert [a][1..] == [];
  }

  lemma OutMore(u: Regs, a: Out, outs: seq<Out>)
    ensures OutAll(u, [a] + outs) == OutAll(Next(u, a), outs)
  {
    assert ([a] + outs)[1..] == outs;
  }

  lemma OutFour(u: Regs, a: Out, b: Out, c: Out, d: Out)
    ensures OutAll(u, [a, b, c, d]) == Next(Next(Next(Next(u, a), b), c), d)
  {
    hide Next, OutAll;
    assert [a, b, c, d] == [a] + ([b] + ([c] + [d]));
    OutMore(u, a, [b] + ([c] + [d]));
    OutMore(Next(u, a), b, [c] + [d]);
    OutMore(Next(Next(u, a), b), c, [d]);
    OutOne(Next(Next(Next(u, a), b), c), d);
  }

  lemma BaudDone(u: Regs, low: bv8)
    ensures OutAll(u, BaudWrites(u.lcr, low)) == SetDivisor(u, low)
  {
    OutFour(u, Out(LCR_PORT, u.lcr | 0x80), Out(DATA_PORT, low), Out(INT_PORT, 0x00), Out(LCR_PORT, u.lcr));
    LatchOpens(u.lcr);
  }

  /** Carried out in full, the writes of a command are what the ioctl does. */
  lemma ChangeDone(u: Regs, cmd: Command)
    ensures OutAll(u, Writes(u, Change(cmd))) == Ioctl(u, cmd)
  {
    match cmd {
      case Baud9600 => BaudDone(u, 0x0c);
      case Baud19200 => BaudDone(u, 0x06);
      case EnableInterrupts => OutOne(u, Out(INT_PORT, 0x03));
      case DisableInterrupts => OutOne(u, Out(INT_PORT, 0x00));
      case Unsupported(_) =>
      case _ => OutOne(u, Out(LCR_PORT, LineControl(u.lcr, cmd)));
    }
  }

  lemma OpenDone(u: Regs)
    ensures Shows(OutAll(u, Writes(u, OpenLine)), DEFAULT)
    ensures var v := OutAll(u, Writes(u, OpenLine)); v == u.(lcr := 0x0b, ier := 0x03, dll := 0x0c, dlm := 0x00)
  {
    var w := Writes(u, OpenLine);
    var rest := [w[3], w[4], w[5], w[6]];
    assert w == [w[0]] + ([w[1]] + ([w[2]] + rest));
    OutMore(u, w[0], [w[1]] + ([w[2]] + rest));
    OutMore(Next(u, w[0]), w[1], [w[2]] + rest);
    OutMore(Next(Next(u, w[0]), w[1]), w[2], rest);
    OutFour(Next(Next(Next(u, w[0]), w[1]), w[2]), w[3], w[4], w[5], w[6]);
  }

  /** The receive interrupt is enabled. */
  predicate Receives(u: Regs) {
    u.ier & 1 != 0
  }

  /** At every moment of these writes the latch is closed or the receive interrupt is off. */
  predicate QuietThrough(u: Regs, outs: seq<Out>)
    decreases |outs|
  {
    && (Latched(u) ==> !Receives(u))
    && (outs != [] ==> QuietThrough(Next(u, outs[0]), outs[1..]))
  }

  lemma QuietMore(u: Regs, a: Out, outs: seq<Out>)
    ensures QuietThrough(u, [a] + outs) <==> (Latched(u) ==> !Receives(u)) && QuietThrough(Next(u, a), outs)
  {
    assert ([a] + outs)[1..] == outs;
  }

  lemma QuietFour(u: Regs, a: Out, b: Out, c: Out, d: Out)
    ensures QuietThrough(u, [a, b, c, d]) <==>
      var v, w := Next(u, a), Next(Next(u, a), b);
      var x, y := Next(w, c), Next(Next(w, c), d);
      QuietThrough(u, []) && QuietThrough(v, []) && QuietThrough(w, []) && QuietThrough(x, []) && QuietThrough(y, [])
  {
    hide Next, Latched, Receives;
    assert [a, b, c, d] == [a] + ([b] + ([c] + ([d] + [])));
    QuietMore(u, a, [b] + ([c] + ([d] + [])));
    QuietMore(Next(u, a), b, [c] + ([d] + []));
    QuietMore(Next(Next(u, a), b), c, [d] + []);
    QuietMore(Next(Next(Next(u, a), b), c), d, []);
  }

  lemma OpenQuiet(u: Regs)
    requires !Latched(u)
    ensures QuietThrough(u, Writes(u, OpenLine))
  {
    var w := Writes(u, OpenLine);
    var rest := [w[3], w[4], w[5], w[6]];
    assert w == [w[0]] + ([w[1]] + ([w[2]] + rest));
    QuietMore(u, w[0], [w[1]] + ([w[2]] + rest));
    QuietMore(Next(u, w[0]), w[1], [w[2]] + rest);
    QuietMore(Next(Next(u, w[0]), w[1]), w[2], rest);
    QuietFour(Next(Next(Next(u, w[0]), w[1]), w[2]), w[3], w[4], w[5], w[6]);
  }

  lemma BaudQuiet(u: Regs, low: bv8)
    requires !Latched(u)
    ensures QuietThrough(u, BaudWrites(u.lcr, low)) <==> !Receives(u)
  {
    QuietFour(u, Out(LCR_PORT, u.lcr | 0x80), Out(DATA_PORT, low), Out(INT_PORT, 0x00), Out(LCR_PORT, u.lcr));
    LatchOpens(u.lcr);
  }

  /** A request made with the latch closed keeps it closed while the receive interrupt is on,
      except a baud change made with the interrupt on. It leaves the latch closed. */
  lemma QuietRequest(u: Regs, r: Request)
    requires !Latched(u)
    ensures QuietThrough(u, Writes(u, r)) <==> !(ChangesBaud(r) && Receives(u))
    ensures !Latched(OutAll(u, Writes(u, r)))
  {
    match r
    case OpenLine =>
      OpenQuiet(u);
      OpenDone(u);
      ShowsUnlatched(OutAll(u, Writes(u, OpenLine)), DEFAULT);
    case Change(cmd) =>
      ChangeDone(u, cmd);
      StaysUnlatched(u, cmd);
      if cmd == Baud9600 {
        BaudQuiet(u, 0x0c);
      } else if cmd == Baud19200 {
        BaudQuiet(u, 0x06);
      } else if |Writes(u, r)| == 1 {
        var a := Writes(u, r)[0];
        OutOne(u, a);
        QuietMore(u, a, []);
        assert Writes(u, r) == [a] + [];
      }
  }

  // ------------------------------------------------------------ everything together

  /** The registers, the writes still to be made, the driver's globals and reader, and the
      bytes on the line: what the receive register held at each interrupt that announced one. */
  datatype Line = Line(regs: Regs, todo: seq<Out>, mail: Mail, arrived: seq<bv8>)

  datatype Action =
    | Ask(request: Request)     // an open or ioctl call begins
    | DoOut                     // its next write
    | Act(event: Event)         // reader or interrupt; in the latter the byte on the line

  function Boot(u: Regs): Line {
    Line(u, [], START, [])
  }

  /** What the handler finds at the ports, for what is on the line. */
  function Seen(u: Regs, e: Event): Event {
    if e.Interrupt? then Interrupt(e.iir, Inb(u.(rbr := e.rbr), DATA_PORT)) else e
  }

  /** One task configures the line, one call after the other. */
  predicate Able(s: Line, a: Action) {
    match a
    case Ask(_) => s.todo == []
    case DoOut => s.todo != []
    case Act(e) => Enabled(s.mail, e)
  }

  function Do(s: Line, a: Action): Line
    requires Able(s, a)
  {
    match a
    case Ask(r) => s.(todo := Writes(s.regs, r))
    case DoOut => s.(regs := Next(s.regs, s.todo[0]), todo := s.todo[1..])
    case Act(e) =>
      s.(mail := Step(s.mail, Seen(s.regs, e)),
         arrived := s.arrived + if e.Interrupt? && Arrives(e.iir) then [e.rbr] else [])
  }

  predicate Possible(s: Line, acts: seq<Action>)
    decreases |acts|
  {
    acts != [] ==> Able(s, acts[0]) && Possible(Do(s, acts[0]), acts[1..])
  }

  function Final(s: Line, acts: seq<Action>): Line
    requires Possible(s, acts)
    decreases |acts|
  {
    if acts == [] then s else Final(Do(s, acts[0]), acts[1..])
  }

  /** The run as the mailbox sees it. */
  function MailEvents(s: Line, acts: seq<Action>): seq<Event>
    requires Possible(s, acts)
    decreases |acts|
  {
    if acts == [] then []
    else (if acts[0].Act? then [Seen(s.regs, acts[0].event)] else []) + MailEvents(Do(s, acts[0]), acts[1..])
  }

  lemma {:induction false} MailRuns(s: Line, acts: seq<Action>)
    requires Possible(s, acts)
    ensures Schedule(s.mail, MailEvents(s, acts))
    ensures After(s.mail, MailEvents(s, acts)) == Final(s, acts).mail
    decreases |acts|
  {
    hide Step, Writes, Seen, Next;
    if acts != [] {
      var t := Do(s, acts[0]);
      MailRuns(t, acts[1..]);
      if acts[0].Act? {
        SeenEnabled(s, acts[0].event);
        var rest := MailEvents(t, acts[1..]);
        assert ([Seen(s.regs, acts[0].event)] + rest)[1..] == rest;
      } else {
        assert [] + MailEvents(t, acts[1..]) == MailEvents(t, acts[1..]);
      }
    }
  }

  lemma SeenEnabled(s: Line, e: Event)
    ensures Enabled(s.mail, Seen(s.regs, e)) <==> Enabled(s.mail, e)
  {
  }

  /** The handler reads the byte on the line: DLAB is clear, or the latch holds that byte. */
  predicate ReadsLine(u: Regs, e: Event) {
    e.Interrupt? && Arrives(e.iir) ==> !Latched(u) || u.dll == e.rbr
  }

  predicate LatchClear(s: Line, acts: seq<Action>)
    requires Possible(s, acts)
    decreases |acts|
  {
    acts != [] ==>
      && (acts[0].Act? ==> ReadsLine(s.regs, acts[0].event))
      && LatchClear(Do(s, acts[0]), acts[1..])
  }

  /** One arrival is stored as it is on the line exactly when the handler reads the line. */
  lemma StoredByte(s: Line, e: Event)
    requires Enabled(s.mail, e) && |s.mail.received| == |s.arrived|
    ensures var t := Do(s, Act(e));
      && |t.mail.received| == |t.arrived|
      && (t.mail.received == t.arrived <==> s.mail.received == s.arrived && ReadsLine(s.regs, e))
  {
    var t := Do(s, Act(e));
    if e.Interrupt? && Arrives(e.iir) {
      var stored := Inb(s.regs.(rbr := e.rbr), DATA_PORT);
      assert stored == e.rbr <==> ReadsLine(s.regs, e);
      assert t.mail.received == s.mail.received + [stored];
      SameAppended(s.mail.received, s.arrived, stored, e.rbr);
    }
  }

  lemma SameAppended(a: seq<bv8>, b: seq<bv8>, x: bv8, y: bv8)
    requires |a| == |b|
    ensures a + [x] == b + [y] <==> a == b && x == y
  {
    if a + [x] == b + [y] {
      assert a == (a + [x])[..|a|] && b == (b + [y])[..|a|];
      assert (a + [x])[|a|] == x && (b + [y])[|a|] == y;
    }
  }

  /** What the handler stored in a run is what was on the line if and only if every arrival
      met the latch closed, or holding that very byte. */
  lemma {:induction false} StoredIffClear(s: Line, acts: seq<Action>)
    requires Possible(s, acts) && |s.mail.received| == |s.arrived|
    ensures var t := Final(s, acts);
      && |t.mail.received| == |t.arrived|
      && (t.mail.received == t.arrived <==> s.mail.received == s.arrived && LatchClear(s, acts))
    decreases |acts|
  {
    hide Step, Writes, Seen, Next, ReadsLine;
    if acts != [] {
      if acts[0].Act? {
        StoredByte(s, acts[0].event);
      }
      StoredIffClear(Do(s, acts[0]), acts[1..]);
    }
  }

  /** The receive path from end to end, over every interleaving: what has been handed on is
      exactly the bytes that came in on the line, in order, if and only if each arrived with
      the flag down and the latch closed (or holding it), and each copy succeeded. */
  lemma ReadsAreLine(u: Regs, acts: seq<Action>)
    requires Possible(Boot(u), acts)
    ensures Schedule(START, MailEvents(Boot(u), acts))
    ensures var t, es := Final(Boot(u), acts), MailEvents(Boot(u), acts);
            Handed(t.mail) == Somes(t.arrived) <==>
              FlagDown(START, es) && CopiesWork(START, es) && LatchClear(Boot(u), acts)
  {
    hide Final, MailEvents, FlagDown, CopiesWork, LatchClear;
    var t, es := Final(Boot(u), acts), MailEvents(Boot(u), acts);
    MailRuns(Boot(u), acts);
    StoredIffClear(Boot(u), acts);
    NothingLost(es);
    SomesAgree(t.mail.received, t.arrived);
    if Handed(t.mail) == Somes(t.arrived) {
      AllHanded(t.mail, t.arrived);
    }
  }

  lemma SomesAgree(a: seq<bv8>, b: seq<bv8>)
    ensures Somes(a) == Somes(b) <==> a == b
  {
    if Somes(a) == Somes(b) {
      forall i | 0 <= i < |a| ensures a[i] == b[i] {
        assert Somes(a)[i] == Somes(b)[i];
      }
    }
  }

  lemma AllHanded(m: Mail, bytes: seq<bv8>)
    requires Handed(m) == Somes(bytes)
    ensures AllSome(m.results)
  {
    forall i | 0 <= i < |m.results| ensures m.results[i].Some? {
      assert Handed(m)[i] == Somes(bytes)[i];
    }
  }

  /** Overruns or not, with the latch closed the reads are bytes of the line in order. */
  lemma ReadsFromLine(u: Regs, acts: seq<Action>)
    requires Possible(Boot(u), acts) && LatchClear(Boot(u), acts)
    ensures var t := Final(Boot(u), acts); Ordered(t.mail) && t.mail.received == t.arrived
  {
    MailRuns(Boot(u), acts);
    StoredIffClear(Boot(u), acts);
    ReadsAreArrivalsInOrder(MailEvents(Boot(u), acts));
  }

  // ------------------------------------------------------------ keeping the latch clear

  /** The hardware announces a byte only while the receive interrupt is enabled. */
  predicate Announced(s: Line, acts: seq<Action>)
    requires Possible(s, acts)
    decreases |acts|
  {
    acts != [] ==>
      && (acts[0].Act? && acts[0].event.Interrupt? && Arrives(acts[0].event.iir) ==> Receives(s.regs))
      && Announced(Do(s, acts[0]), acts[1..])
  }

  /** Each change of the baud rate is asked for with the receive interrupt disabled. */
  predicate Guarded(s: Line, acts: seq<Action>)
    requires Possible(s, acts)
    decreases |acts|
  {
    acts != [] ==>
      && (acts[0].Ask? && ChangesBaud(acts[0].request) ==> !Receives(s.regs))
      && Guarded(Do(s, acts[0]), acts[1..])
  }

  /** The writes under way close the latch, and open it only with the interrupt off. */
  predicate Careful(s: Line) {
    QuietThrough(s.regs, s.todo) && !Latched(OutAll(s.regs, s.todo))
  }

  lemma CarefulStep(s: Line, a: Action)
    requires Careful(s) && Able(s, a)
    requires a.Ask? && ChangesBaud(a.request) ==> !Receives(s.regs)
    ensures Careful(Do(s, a))
  {
    if a.Ask? {
      QuietRequest(s.regs, a.request);
    }
  }

  /** Open is safe as it stands, since it turns the interrupts off first. If every change of
      the baud rate is asked for with the interrupt disabled, no byte is ever misread, however
      arrivals, reads and port writes interleave. */
  lemma {:induction false} GuardedIsClear(s: Line, acts: seq<Action>)
    requires Possible(s, acts) && Careful(s) && Announced(s, acts) && Guarded(s, acts)
    ensures LatchClear(s, acts)
    decreases |acts|
  {
    hide Step, Seen, Next, Writes, Receives, Latched, OutAll, ChangesBaud;
    if acts != [] {
      CarefulStep(s, acts[0]);
      GuardedIsClear(Do(s, acts[0]), acts[1..]);
    }
  }

  /** If one is asked for with the interrupt enabled, a byte that arrives after the first of its
      writes is misread, unless it happens to be the low octet of the old divisor. */
  lemma UnguardedIsNot(s: Line, r: Request, b: bv8)
    requires s.todo == [] && !Latched(s.regs) && ChangesBaud(r) && Receives(s.regs)
    ensures var acts := [Ask(r), DoOut, Act(Interrupt(4, b))];
            Possible(s, acts) && Announced(s, acts) && (LatchClear(s, acts) <==> b == s.regs.dll)
  {
    var hit := Act(Interrupt(4, b));
    var acts := [Ask(r), DoOut, hit];
    assert acts[1..] == [DoOut, hit] && acts[1..][1..] == [hit] && [hit][1..] == [];
    LatchOpens(s.regs.lcr);
    var t := Do(Do(s, Ask(r)), DoOut);
    assert t.regs == s.regs.(lcr := s.regs.lcr | 0x80);
    OneHit(t, b);
  }

  lemma OneHit(t: Line, b: bv8)
    requires Latched(t.regs) && Receives(t.regs)
    ensures var hit := Act(Interrupt(4, b));
            Possible(t, [hit]) && Announced(t, [hit]) && (LatchClear(t, [hit]) <==> b == t.regs.dll)
    ensures var hit := Act(Interrupt(4, b));
            Final(t, [hit]).mail.rbuff == t.regs.dll && Final(t, [hit]).arrived == t.arrived + [b]
  {
    var hit := Act(Interrupt(4, b));
    assert Arrives(4) && [hit][1..] == [];
    assert Possible(Do(t, hit), []) && LatchClear(Do(t, hit), []);
    assert LatchClear(t, [hit]) <==> ReadsLine(t.regs, hit.event);
  }

  lemma {:induction false} OutsRun(s: Line)
    ensures var outs := seq(|s.todo|, _ => DoOut);
      && Possible(s, outs) && Announced(s, outs)
      && Final(s, outs) == s.(regs := OutAll(s.regs, s.todo), todo := [])
    decreases |s.todo|
  {
    hide Next;
    if s.todo != [] {
      OutsRun(Do(s, DoOut));
      assert seq(|s.todo|, _ => DoOut)[1..] == seq(|s.todo| - 1, _ => DoOut);
    }
  }

  lemma {:induction false} RunConcat(s: Line, a: seq<Action>, b: seq<Action>)
    requires Possible(s, a) && Possible(Final(s, a), b)
    ensures Possible(s, a + b) && Final(s, a + b) == Final(Final(s, a), b)
    ensures Announced(s, a + b) <==> Announced(s, a) && Announced(Final(s, a), b)
    decreases |a|
  {
    hide Do, Able, Receives;
    if a == [] {
      assert a + b == b;
    } else {
      assert (a + b)[1..] == a[1..] + b;
      RunConcat(Do(s, a[0]), a[1..], b);
    }
  }

  lemma RunOne(s: Line, a: Action)
    requires Able(s, a) && !a.Act?
    ensures Possible(s, [a]) && Announced(s, [a]) && Final(s, [a]) == Do(s, a)
  {
    hide Do, Able;
    var t := Do(s, a);
    assert [a][1..] == [] && [a][0] == a;
    assert Possible(t, []) && Announced(t, []) && Final(t, []) == t;
  }

  /** A request carried out in full. */
  function Carried(n: nat, r: Request): seq<Action> {
    [Ask(r)] + seq(n, _ => DoOut)
  }

  lemma CarriedRun(s: Line, r: Request)
    requires s.todo == []
    ensures var acts := Carried(|Writes(s.regs, r)|, r);
      && Possible(s, acts) && Announced(s, acts)
      && Final(s, acts) == s.(regs := OutAll(s.regs, Writes(s.regs, r)))
  {
    hide OutAll, Writes;
    OutsRun(Do(s, Ask(r)));
    RunOne(s, Ask(r));
    RunConcat(s, [Ask(r)], seq(|Writes(s.regs, r)|, _ => DoOut));
  }

  /** The line is opened, and a byte arrives after the first write of a baud change: 0x41 is on
      the line, the driver stores 0x0c. */
  lemma LatchReadForByte(u: Regs)
    ensures var change := [Ask(Change(Baud19200)), DoOut, Act(Interrupt(4, 0x41))];
            var acts := Carried(7, OpenLine) + change;
      && Possible(Boot(u), acts) && Announced(Boot(u), acts)
      && Final(Boot(u), acts).mail.rbuff == 0x0c && Final(Boot(u), acts).arrived == [0x41]
  {
    var s := Boot(u).(regs := OutAll(u, Writes(u, OpenLine)));
    CarriedRun(Boot(u), OpenLine);
    OpenDone(u);
    ShowsUnlatched(s.regs, DEFAULT);
    hide Writes;
    UnguardedRun(s, 0x41);
    RunConcat(Boot(u), Carried(7, OpenLine), [Ask(Change(Baud19200)), DoOut, Act(Interrupt(4, 0x41))]);
  }

  lemma UnguardedRun(s: Line, b: bv8)
    requires s.todo == [] && Shows(s.regs, DEFAULT)
    ensures var acts := [Ask(Change(Baud19200)), DoOut, Act(Interrupt(4, b))];
      && Possible(s, acts) && Announced(s, acts)
      && Final(s, acts).mail.rbuff == 0x0c && Final(s, acts).arrived == s.arrived + [b]
  {
    var r, hit := Change(Baud19200), Act(Interrupt(4, b));
    var acts := [Ask(r), DoOut, hit];
    assert acts[1..] == [DoOut, hit] && acts[1..][1..] == [hit];
    LatchOpens(s.regs.lcr);
    var t := Do(Do(s, Ask(r)), DoOut);
    assert t.regs == s.regs.(lcr := s.regs.lcr | 0x80);
    OneHit(t, b);
  }
}
