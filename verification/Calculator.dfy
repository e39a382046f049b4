/** The calculator driver: four minor devices behind one file_operations table that open
    rewrites under a semaphore held until release. Clients interleave statement by statement. */
module Calculator {
  import opened Bytes
  import opened Int32

  const EINVAL := 22
  const EFAULT := 14
  const KBUFF := 80

  /** The four minors, in order. */
  datatype Op = Add | Sub | Mul | Div

  /** The four result globals. */
  datatype Results = Results(add: int, sub: int, mul: int, div: int) {
    function Get(op: Op): int {
      match op
      case Add => add
      case Sub => sub
      case Mul => mul
      case Div => div
    }

    predicate Fit() {
      InRange(add) && InRange(sub) && InRange(mul) && InRange(div)
    }

    function With(op: Op, v: int): Results {
      match op
      case Add => this.(add := v)
      case Sub => this.(sub := v)
      case Mul => this.(mul := v)
      case Div => this.(div := v)
    }
  }

  /** How far a client is into NAME_open, or that it holds an open file. The value is the
      minor it got back from MyTestdev. */
  datatype Pc = AtMinor | AtDown(minor: Op) | AtSwitch(minor: Op) | Opened(minor: Op)

  /** A client and the device it is opening or has open. */
  datatype Client = Client(dev: Op, pc: Pc)

  datatype Sys = Sys(
    sem: nat,
    table: Option<Op>,          // whose functions fops->read and fops->write are
    myTestdev: Op,
    results: Results,
    clients: map<int, Client>)

  datatype Event =
    | OpenCall(c: int, dev: Op)     // first statement of open: the device is put in MyTestdev
    | TakeMinor(c: int)             // second: the minor is read back from it
    | Down(c: int)
    | Switch(c: int)
    | Write(c: int, data: seq<byte>, copied: bool)
    | Read(c: int, copied: bool)
    | Release(c: int)

  const START := Sys(1, None, Add, Results(0, 0, 0, 0), map[])

  predicate At(s: Sys, c: int, pc: Pc) {
    c in s.clients && s.clients[c].pc == pc
  }

  /** The client has the semaphore. */
  predicate Holds(p: Client) {
    p.pc.AtSwitch? || p.pc.Opened?
  }

  predicate InSession(s: Sys, c: int) {
    c in s.clients && s.clients[c].pc.Opened?
  }

  function First(data: seq<byte>): int
    requires |data| >= 8
  {
    Decode(data[..4])
  }

  function Second(data: seq<byte>): int
    requires |data| >= 8
  {
    Decode(data[4..8])
  }

  /** The C operators on int, wrapping round. */
  function Compute(op: Op, a: int, b: int): int
    requires op.Div? ==> b != 0
  {
    match op
    case Add => Wrap(a + b)
    case Sub => Wrap(a - b)
    case Mul => Wrap(a * b)
    case Div => TruncDiv(a, b)
  }

  /** The operation has a result: no division by zero, and not the one quotient that is no int. */
  predicate Defined(op: Op, a: int, b: int) {
    op.Div? ==> b != 0 && InRange(TruncDiv(a, b))
  }

  /** Both operands are there, the buffer is not overrun, and the operation has a result. */
  predicate Writable(op: Op, data: seq<byte>) {
    8 <= |data| <= KBUFF && Defined(op, First(data), Second(data))
  }

  predicate Enabled(s: Sys, e: Event) {
    match e
    case OpenCall(c, _) => c !in s.clients
    case TakeMinor(c) => At(s, c, AtMinor)
    case Down(c) => c in s.clients && s.clients[c].pc.AtDown? && s.sem > 0
    case Switch(c) => c in s.clients && s.clients[c].pc.AtSwitch?
    case Write(c, data, copied) => InSession(s, c) && (s.table.Some? && copied ==> Writable(s.table.value, data))
    case Read(c, _) => InSession(s, c)
    case Release(c) => InSession(s, c)
  }

  function SetPc(s: Sys, c: int, pc: Pc): Sys
    requires c in s.clients
  {
    s.(clients := s.clients[c := s.clients[c].(pc := pc)])
  }

  function Step(s: Sys, e: Event): Sys
    requires Enabled(s, e)
  {
    match e
    case OpenCall(c, dev) => s.(myTestdev := dev, clients := s.clients[c := Client(dev, AtMinor)])
    case TakeMinor(c) => SetPc(s, c, AtDown(s.myTestdev))
    case Down(c) => SetPc(s.(sem := s.sem - 1), c, AtSwitch(s.clients[c].pc.minor))
    case Switch(c) => SetPc(s.(table := Some(s.clients[c].pc.minor)), c, Opened(s.clients[c].pc.minor))
    case Write(c, data, copied) =>
      if s.table.Some? && copied
      then s.(results := s.results.With(s.table.value, Compute(s.table.value, First(data), Second(data))))
      else s
    case Read(c, _) => s
    case Release(c) => s.(sem := s.sem + 1, clients := s.clients - {c})
  }

  /** What a read hands to the user: the four octets of the result of the table's operation. */
  function Shown(s: Sys): seq<byte>
    requires s.table.Some? && InRange(s.results.Get(s.table.value))
  {
    Encode(s.results.Get(s.table.value))
  }

  predicate Schedule(s: Sys, es: seq<Event>)
    decreases |es|
  {
    es != [] ==> Enabled(s, es[0]) && Schedule(Step(s, es[0]), es[1..])
  }

  function After(s: Sys, es: seq<Event>): Sys
    requires Schedule(s, es)
    decreases |es|
  {
    if es == [] then s else After(Step(s, es[0]), es[1..])
  }

  // ------------------------------------------------------------ one session at a time

  /** The semaphore is down exactly while somebody holds it, nobody shares it, and the table
      of a session has the functions of the minor its open read. */
  ghost predicate Exclusive(s: Sys) {
    && s.sem <= 1
    && (s.sem == 0 <==> exists c :: c in s.clients && Holds(s.clients[c]))
    && (forall c, d | c in s.clients && d in s.clients && Holds(s.clients[c]) && Holds(s.clients[d]) :: c == d)
    && (forall c | c in s.clients && s.clients[c].pc.Opened? :: s.table == Some(s.clients[c].pc.minor))
    && s.results.Fit()
  }

  lemma StepExclusive(s: Sys, e: Event)
    requires Exclusive(s) && Enabled(s, e)
    ensures Exclusive(Step(s, e))
  {
    var t := Step(s, e);
    if e.Down? {
      assert Holds(t.clients[e.c]);
    } else if !e.Release? && s.sem == 0 {
      var h :| h in s.clients && Holds(s.clients[h]);
      assert h in t.clients && Holds(t.clients[h]);
    }
  }

  /** Whoever waits for the semaphore gets it as soon as nobody has it: release gives it back. */
  lemma OpenGoesOn(es: seq<Event>, c: int)
    requires Schedule(START, es) && c in After(START, es).clients && After(START, es).clients[c].pc.AtDown?
    ensures var s := After(START, es);
            Enabled(s, Down(c)) <==> forall d | d in s.clients :: !Holds(s.clients[d])
  {
    ScheduleExclusive(START, es);
  }

  lemma {:induction false} ScheduleExclusive(s: Sys, es: seq<Event>)
    requires Exclusive(s) && Schedule(s, es)
    ensures Exclusive(After(s, es))
    decreases |es|
  {
    if es != [] {
      StepExclusive(s, es[0]);
      ScheduleExclusive(Step(s, es[0]), es[1..]);
    }
  }

  /** Over all interleavings of any number of clients, from the module's initial state. */
  lemma AtMostOneSession(es: seq<Event>, c: int, d: int)
    requires Schedule(START, es) && InSession(After(START, es), c) && InSession(After(START, es), d)
    ensures c == d && After(START, es).sem == 0
    ensures After(START, es).table == Some(After(START, es).clients[c].pc.minor)
  {
    ScheduleExclusive(START, es);
  }

  // ------------------------------------------------------------ whose functions

  /** Every open session goes through the functions of its client's own device. */
  ghost predicate SessionsOwn(s: Sys) {
    forall c | c in s.clients && s.clients[c].pc.Opened? :: s.table == Some(s.clients[c].dev)
  }

  ghost predicate AlwaysSessionsOwn(s: Sys, es: seq<Event>)
    requires Schedule(s, es)
    decreases |es|
  {
    SessionsOwn(s) && (es != [] ==> AlwaysSessionsOwn(Step(s, es[0]), es[1..]))
  }

  /** The device of the last open call of all, whoever made it. */
  function LastOpened(es: seq<Event>): Op {
    if es == [] then START.myTestdev
    else if Last(es).OpenCall? then Last(es).dev
    else LastOpened(Init(es))
  }

  /** The device that client c opened last. */
  function DeviceOf(es: seq<Event>, c: int): Op {
    if es == [] then START.myTestdev
    else if Last(es).OpenCall? && Last(es).c == c then Last(es).dev
    else DeviceOf(Init(es), c)
  }

  /** The device of the last open call before client c last took its minor. */
  function MinorOf(es: seq<Event>, c: int): Op {
    if es == [] then START.myTestdev
    else if Last(es) == TakeMinor(c) then LastOpened(Init(es))
    else MinorOf(Init(es), c)
  }

  /** A condition on the calls alone: whenever a client gets to switch the table, the last open
      call before it took its minor named the device it is opening. */
  ghost predicate SwitchesOwn(es: seq<Event>) {
    forall i | 0 <= i < |es| && es[i].Switch? :: MinorOf(es[..i], es[i].c) == DeviceOf(es[..i], es[i].c)
  }

  /** A schedule is its calls but the last, and then the last. */
  lemma {:induction false} LastStep(s: Sys, es: seq<Event>)
    requires Schedule(s, es) && es != []
    ensures Schedule(s, Init(es)) && Enabled(After(s, Init(es)), Last(es))
    ensures After(s, es) == Step(After(s, Init(es)), Last(es))
    ensures AlwaysSessionsOwn(s, es) <==> AlwaysSessionsOwn(s, Init(es)) && SessionsOwn(After(s, es))
    decreases |es|
  {
    hide Step, Enabled, SessionsOwn;
    if |es| == 1 {
      assert Init(es) == [] && es[1..] == [];
    } else {
      assert Init(es)[0] == es[0] && Init(es)[1..] == Init(es[1..]) && Last(es[1..]) == Last(es);
      LastStep(Step(s, es[0]), es[1..]);
    }
  }

  /** What the state remembers of the calls. */
  lemma {:induction false} StateOfCalls(es: seq<Event>)
    requires Schedule(START, es)
    ensures var s := After(START, es);
            && s.myTestdev == LastOpened(es)
            && (forall c | c in s.clients :: s.clients[c].dev == DeviceOf(es, c))
            && (forall c | c in s.clients && !s.clients[c].pc.AtMinor? :: s.clients[c].pc.minor == MinorOf(es, c))
    decreases |es|
  {
    if es != [] {
      LastStep(START, es);
      StateOfCalls(Init(es));
    }
  }

  /** Only the switch of a client that read another device's minor spoils a session. */
  lemma StepSessionsOwn(s: Sys, e: Event)
    requires Exclusive(s) && SessionsOwn(s) && Enabled(s, e)
    ensures SessionsOwn(Step(s, e)) <==> (e.Switch? ==> s.clients[e.c].pc.minor == s.clients[e.c].dev)
  {
    var t := Step(s, e);
    if e.Switch? && s.clients[e.c].pc.minor != s.clients[e.c].dev {
      assert t.table != Some(t.clients[e.c].dev) && t.clients[e.c].pc.Opened?;
    }
  }

  lemma SwitchesOwnLast(es: seq<Event>)
    requires es != []
    ensures var e, before := Last(es), Init(es);
            SwitchesOwn(es) <==>
            SwitchesOwn(before) && (e.Switch? ==> MinorOf(before, e.c) == DeviceOf(before, e.c))
  {
    var n := |es| - 1;
    assert es[..n] == Init(es) && es[n] == Last(es);
    assert forall i | 0 <= i < n :: Init(es)[i] == es[i] && Init(es)[..i] == es[..i];
  }

  /** In a run, every session at every moment is on its client's own device if and only if
      each client that switched the table had read its own minor back. */
  lemma {:induction false} SessionsOwnIff(es: seq<Event>)
    requires Schedule(START, es)
    ensures AlwaysSessionsOwn(START, es) <==> SwitchesOwn(es)
    decreases |es|
  {
    if es != [] {
      LastStep(START, es);
      SwitchesOwnLast(es);
      SessionsOwnIff(Init(es));
      if AlwaysSessionsOwn(START, Init(es)) {
        AlwaysMeansNow(START, Init(es));
        ScheduleExclusive(START, Init(es));
        StateOfCalls(Init(es));
        StepSessionsOwn(After(START, Init(es)), Last(es));
      }
    }
  }

  lemma {:induction false} AlwaysMeansNow(s: Sys, es: seq<Event>)
    requires Schedule(s, es) && AlwaysSessionsOwn(s, es)
    ensures SessionsOwn(After(s, es))
    decreases |es|
  {
    hide Step, SessionsOwn;
    if es != [] {
      AlwaysMeansNow(Step(s, es[0]), es[1..]);
    }
  }

  const COLLISION := [
    OpenCall(1, Add), OpenCall(2, Sub), TakeMinor(1), Down(1), Switch(1)]

  /** Two opens can collide: here the client of the adder gets the subtractor. */
  lemma CollisionHappens()
    ensures Schedule(START, COLLISION)
    ensures var s := After(START, COLLISION); InSession(s, 1) && s.clients[1].dev == Add && s.table == Some(Sub)
  {
  }

  // ------------------------------------------------------------ what a write computes

  /** The little-endian int at octets k to k + 3, in two's complement. */
  function IntAt(data: seq<byte>, k: nat): int
    requires k + 4 <= |data|
  {
    var u := data[k] + 0x100 * (data[k + 1] as int) + 0x10000 * (data[k + 2] as int) + 0x1000000 * (data[k + 3] as int);
    if u < 0x80000000 then u else u - 0x100000000
  }

  /** r is the result of the operation on two ints: the int congruent to sum, difference or
      product, or the quotient whose remainder is smaller than the divisor and has the sign of
      the dividend. */
  ghost predicate IsResultOf(op: Op, a: int, b: int, r: int) {
    && -0x80000000 <= r < 0x80000000
    && match op
       case Add => (a + b - r) % 0x100000000 == 0
       case Sub => (a - b - r) % 0x100000000 == 0
       case Mul => (a * b - r) % 0x100000000 == 0
       case Div =>
         var rem := a - b * r;
         Abs(rem) < Abs(b) && (rem == 0 || (rem < 0 <==> a < 0))
  }

  /** The result of the operation on the two ints at the start of the data. There is only one. */
  ghost predicate IsResult(op: Op, data: seq<byte>, r: int) {
    |data| >= 8 && IsResultOf(op, IntAt(data, 0), IntAt(data, 4), r)
  }

  lemma IntAtDecodes(data: seq<byte>, k: nat)
    requires k + 4 <= |data|
    ensures IntAt(data, k) == Decode(data[k..k + 4])
  {
  }

  lemma ComputesResult(op: Op, data: seq<byte>)
    requires Writable(op, data)
    ensures IsResult(op, data, Compute(op, First(data), Second(data)))
  {
    hide Compute, IsResultOf, TruncDiv;
    IntAtDecodes(data, 0);
    IntAtDecodes(data, 4);
    ComputesInts(op, First(data), Second(data));
  }

  lemma ComputesInts(op: Op, a: int, b: int)
    requires Defined(op, a, b)
    ensures IsResultOf(op, a, b, Compute(op, a, b))
  {
    hide Wrap, TruncDiv;
    match op
    case Add => WrapMeaning(a + b);
    case Sub => WrapMeaning(a - b);
    case Mul => WrapMeaning(a * b);
    case Div => TruncDivMeaning(a, b);
  }

  lemma ResultIsUnique(op: Op, data: seq<byte>, r: int, q: int)
    requires IsResult(op, data, r) && IsResult(op, data, q)
    ensures r == q
  {
    var a, b := IntAt(data, 0), IntAt(data, 4);
    hide IntAt;
    match op
    case Add => CongruentInts(a + b, r, q);
    case Sub => CongruentInts(a - b, r, q);
    case Mul => CongruentInts(a * b, r, q);
    case Div => QuotientIsUnique(a, b, r, q);
  }

  lemma CongruentInts(x: int, r: int, q: int)
    requires -0x80000000 <= r < 0x80000000 && -0x80000000 <= q < 0x80000000
    requires (x - r) % 0x100000000 == 0 && (x - q) % 0x100000000 == 0
    ensures r == q
  {
    var m, n := (x - r) / 0x100000000, (x - q) / 0x100000000;
    assert r - q == 0x100000000 * (n - m);
  }

  lemma QuotientIsUnique(a: int, b: int, r: int, q: int)
    requires Abs(a - b * r) < Abs(b) && (a - b * r == 0 || (a - b * r < 0 <==> a < 0))
    requires Abs(a - b * q) < Abs(b) && (a - b * q == 0 || (a - b * q < 0 <==> a < 0))
    ensures r == q
  {
    var x, y := a - b * r, a - b * q;
    CloseTogether(a, b, x, y);
    Distribute(b, q, r);
    assert b * (q - r) == x - y;
    SmallMultiple(b, q - r);
  }

  lemma CloseTogether(a: int, b: int, x: int, y: int)
    requires Abs(x) < Abs(b) && (x == 0 || (x < 0 <==> a < 0))
    requires Abs(y) < Abs(b) && (y == 0 || (y < 0 <==> a < 0))
    ensures Abs(x - y) < Abs(b)
  {
  }

  lemma Distribute(b: int, q: int, r: int)
    ensures b * (q - r) == b * q - b * r
  {
  }

  lemma SmallMultiple(b: int, d: int)
    requires Abs(b * d) < Abs(b)
    ensures d == 0
  {
    Signs(b, d);
    Signs(b, -d);
    if d != 0 {
      AtLeastOnce(Abs(b), Abs(d));
    }
  }

  lemma AtLeastOnce(n: nat, m: nat)
    requires m >= 1
    ensures n * m >= n
  {
    assert n * m == n + n * (m - 1);
  }

  /** The data of the last successful write to a device, if there has been one. Neither the
      table nor the semaphore comes into it. */
  function LastWritten(s: Sys, es: seq<Event>, op: Op, before: Option<seq<byte>>): Option<seq<byte>>
    requires Schedule(s, es)
    decreases |es|
  {
    if es == [] then before
    else LastWritten(Step(s, es[0]), es[1..], op, if WritesTo(s, es[0], op) then Some(es[0].data) else before)
  }

  /** A client of the device writes, and the copy from the user succeeds. */
  predicate WritesTo(s: Sys, e: Event, op: Op)
    requires Enabled(s, e)
  {
    e.Write? && e.copied && s.clients[e.c].dev == op
  }

  /** A result as a write of these data left it, or as it was at the start. */
  ghost predicate Leaves(op: Op, written: Option<seq<byte>>, r: int) {
    if written.None? then r == 0 else IsResult(op, written.value, r)
  }

  /** While sessions are on their own devices, the driver is four independent cells: each
      result is what the last successful write to its device makes of its operands. */
  lemma {:induction false} ResultsAreCells(s: Sys, es: seq<Event>, op: Op, before: Option<seq<byte>>)
    requires Schedule(s, es) && Exclusive(s) && AlwaysSessionsOwn(s, es)
    requires Leaves(op, before, s.results.Get(op))
    ensures Leaves(op, LastWritten(s, es, op, before), After(s, es).results.Get(op))
    decreases |es|
  {
    hide Leaves;
    if es != [] {
      var now := if WritesTo(s, es[0], op) then Some(es[0].data) else before;
      StepExclusive(s, es[0]);
      StepCell(s, es[0], op, before);
      hide Step, Enabled, WritesTo, Exclusive;
      ResultsAreCells(Step(s, es[0]), es[1..], op, now);
    }
  }

  /** A write in a session leaves the result of its operation, and no other call changes any. */
  lemma StepCell(s: Sys, e: Event, op: Op, before: Option<seq<byte>>)
    requires Exclusive(s) && SessionsOwn(s) && Enabled(s, e) && Leaves(op, before, s.results.Get(op))
    ensures Leaves(op, if WritesTo(s, e, op) then Some(e.data) else before, Step(s, e).results.Get(op))
  {
    hide IsResult;
    if WritesTo(s, e, op) {
      assert s.table == Some(op);
      ComputesResult(op, e.data);
    }
  }

  lemma ShownIsResult(s: Sys)
    requires s.table.Some? && InRange(s.results.Get(s.table.value))
    ensures |Shown(s)| == 4 && IntAt(Shown(s), 0) == s.results.Get(s.table.value)
  {
    RoundTrip(s.results.Get(s.table.value));
    IntAtDecodes(Shown(s), 0);
    assert Shown(s)[0..4] == Shown(s);
  }

  /** So the four octets a read in a session shows are the result of the operation of the
      client's own device on the data last written to it in the whole run, 0 before any. */
  lemma ReadShowsOwnCell(es: seq<Event>, c: int)
    requires Schedule(START, es) && SwitchesOwn(es) && InSession(After(START, es), c)
    ensures var s := After(START, es);
            && s.table.Some? && InRange(s.results.Get(s.table.value)) && |Shown(s)| == 4
            && Leaves(s.clients[c].dev, LastWritten(START, es, s.clients[c].dev, None), IntAt(Shown(s), 0))
  {
    var s := After(START, es);
    ScheduleExclusive(START, es);
    SessionsOwnIff(es);
    AlwaysMeansNow(START, es);
    ResultsAreCells(START, es, s.clients[c].dev, None);
    ShownIsResult(s);
  }

  // ------------------------------------------------------------ the driver

  /** The globals of the driver and the clients inside it, updated in place. */
  class Driver {
    var sem: nat
    var table: Option<Op>
    var myTestdev: Op
    var addResult: int
    var subResult: int
    var mulResult: int
    var divResult: int
    var clients: map<int, Client>

    ghost function Model(): Sys
      reads this
    {
      Sys(sem, table, myTestdev, Results(addResult, subResult, mulResult, divResult), clients)
    }

    constructor ()
      ensures Model() == START
    {
      sem, table, myTestdev, clients := 1, None, Add, map[];
      addResult, subResult, mulResult, divResult := 0, 0, 0, 0;
    }

    method MoveTo(c: int, pc: Pc)
      requires c in clients
      modifies `clients
      ensures Model() == SetPc(old(Model()), c, pc)
    {
      clients := clients[c := clients[c].(pc := pc)];
    }

    /** NAME_open, the four atomic parts of it. */
    method SetTestdev(c: int, dev: Op)
      requires Enabled(Model(), OpenCall(c, dev))
      modifies this
      ensures Model() == Step(old(Model()), OpenCall(c, dev))
    {
      myTestdev := dev;
      clients := clients[c := Client(dev, AtMinor)];
    }

    method ReadMinor(c: int)
      requires Enabled(Model(), TakeMinor(c))
      modifies this
      ensures Model() == Step(old(Model()), TakeMinor(c))
    {
      MoveTo(c, AtDown(myTestdev));
    }

    method DownSem(c: int)
      requires Enabled(Model(), Down(c))
      modifies this
      ensures Model() == Step(old(Model()), Down(c))
    {
      sem := sem - 1;
      MoveTo(c, AtSwitch(clients[c].pc.minor));
    }

    method SwitchTable(c: int)
      requires Enabled(Model(), Switch(c))
      modifies this
      ensures Model() == Step(old(Model()), Switch(c))
    {
      var minor := clients[c].pc.minor;
      match minor {
        case Add => table := Some(Add);
        case Sub => table := Some(Sub);
        case Mul => table := Some(Mul);
        case Div => table := Some(Div);
      }
      MoveTo(c, Opened(minor));
    }

    /** NAME_release */
    method CloseFile(c: int)
      requires Enabled(Model(), Release(c))
      modifies this
      ensures Model() == Step(old(Model()), Release(c))
    {
      clients := clients - {c};
      sem := sem + 1;
    }

    /** The write call: through the table to NAME_write_add and its three likes. */
    method WriteFile(c: int, data: seq<byte>, copied: bool) returns (ret: int)
      requires Enabled(Model(), Write(c, data, copied))
      modifies `addResult, `subResult, `mulResult, `divResult
      ensures Model() == Step(old(Model()), Write(c, data, copied))
      ensures ret == if table.None? then -EINVAL else if copied then |data| else -EFAULT
    {
      if table.None? {
        return -EINVAL;
      }
      if !copied {
        return -EFAULT;
      }
      var a, b := First(data), Second(data);
      match table.value {
        case Add => addResult := Wrap(a + b);
        case Sub => subResult := Wrap(a - b);
        case Mul => mulResult := Wrap(a * b);
        case Div => divResult := TruncDiv(a, b);
      }
      return |data|;
    }

    /** The read call: four octets are copied, if the copy succeeds, and 0 is returned. */
    method ReadFile(c: int, copied: bool) returns (ret: int, user: Option<seq<byte>>)
      requires Exclusive(Model()) && Enabled(Model(), Read(c, copied))
      ensures ret == 0
      ensures user == if copied then Some(Shown(Model())) else None
    {
      assert InSession(Model(), c) && InRange(Model().results.Get(table.value));
      var result := match table.value {
        case Add => addResult
        case Sub => subResult
        case Mul => mulResult
        case Div => divResult
      };
      user := if copied then Some(Encode(result)) else None;
      ret := 0;
    }
  }
}
