/** The serial driver's configuration path: a 16450 register file in which the DLAB bit of the
    line control register remaps two ports, and the open and ioctl calls that drive it. */
module Serial {
  import opened Bytes

  const DATA_PORT := 0      // receive and transmit registers, or divisor latch low
  const INT_PORT := 1       // interrupt enable register, or divisor latch high
  const IIR_PORT := 2       // interrupt identification register
  const LCR_PORT := 3       // line control register
  const DLAB: bv8 := 0x80
  const CLOCK := 1843200

  datatype Regs = Regs(lcr: bv8, ier: bv8, dll: bv8, dlm: bv8, iir: bv8, rbr: bv8, sent: seq<bv8>)

  predicate Latched(u: Regs) {
    u.lcr & DLAB != 0
  }

  function Inb(u: Regs, port: nat): bv8 {
    if port == DATA_PORT then (if Latched(u) then u.dll else u.rbr)
    else if port == INT_PORT then (if Latched(u) then u.dlm else u.ier)
    else if port == IIR_PORT then u.iir
    else if port == LCR_PORT then u.lcr
    else 0xff
  }

  function Outb(u: Regs, port: nat, v: bv8): Regs {
    if port == DATA_PORT then (if Latched(u) then u.(dll := v) else u.(sent := u.sent + [v]))
    else if port == INT_PORT then (if Latched(u) then u.(dlm := v) else u.(ier := v))
    else if port == LCR_PORT then u.(lcr := v)
    else u
  }

  class Uart {
    var lcr: bv8
    var ier: bv8
    var dll: bv8
    var dlm: bv8
    var iir: bv8
    var rbr: bv8
    var sent: seq<bv8>

    ghost function Model(): Regs
      reads this
    {
      Regs(lcr, ier, dll, dlm, iir, rbr, sent)
    }

    /** inb_p */
    method Read(port: nat) returns (v: bv8)
      ensures v == Inb(Model(), port)
    {
      var latched := lcr & DLAB != 0;
      if port == DATA_PORT {
        v := if latched then dll else rbr;
      } else if port == INT_PORT {
        v := if latched then dlm else ier;
      } else if port == IIR_PORT {
        v := iir;
      } else if port == LCR_PORT {
        v := lcr;
      } else {
        v := 0xff;
      }
    }

    /** outb_p */
    method Write(v: bv8, port: nat)
      modifies this
      ensures Model() == Outb(old(Model()), port, v)
    {
      var latched := lcr & DLAB != 0;
      if port == DATA_PORT && latched {
        dll := v;
      } else if port == DATA_PORT {
        sent := sent + [v];
      } else if port == INT_PORT && latched {
        dlm := v;
      } else if port == INT_PORT {
        ier := v;
      } else if port == LCR_PORT {
        lcr := v;
      }
    }
  }

  datatype Command =
    | Baud9600 | Baud19200
    | EvenParity | OddParity | NoParity
    | StopBits1 | CharLen8
    | EnableInterrupts | DisableInterrupts
    | Unsupported(nr: int)

  // ------------------------------------------------------------ what a user configured

  /** The line as the ioctl caller thinks of it. Stop bits and character length are fixed. */
  datatype Settings = Settings(fast: bool, parity: bool, even: bool, interrupts: bool)

  const DEFAULT := Settings(false, true, false, true)

  function Apply(c: Settings, cmd: Command): Settings {
    match cmd
    case Baud9600 => c.(fast := false)
    case Baud19200 => c.(fast := true)
    case EvenParity => c.(parity := true, even := true)
    case OddParity => c.(parity := true)          // the even bit is never cleared
    case NoParity => c.(parity := false)
    case EnableInterrupts => c.(interrupts := true)
    case DisableInterrupts => c.(interrupts := false)
    case _ => c
  }

  /** The registers that stand for the settings. */
  predicate Shows(u: Regs, c: Settings) {
    && u.lcr == 0x03 | (if c.parity then 0x08 else 0) | (if c.even then 0x10 else 0)
    && u.dll == (if c.fast then 6 else 12) && u.dlm == 0
    && u.ier == if c.interrupts then 0x03 else 0
  }

  lemma ShowsUnlatched(u: Regs, c: Settings)
    requires Shows(u, c)
    ensures !Latched(u)
  {
  }

  function DivisorValue(u: Regs): nat {
    256 * (u.dlm as int) + u.dll as int
  }

  /** The baud rate that the divisor latch selects. */
  function Rate(u: Regs): nat
    requires DivisorValue(u) > 0
  {
    CLOCK / (16 * DivisorValue(u))
  }

  lemma RateShown(u: Regs, c: Settings)
    requires Shows(u, c)
    ensures DivisorValue(u) > 0 && Rate(u) == if c.fast then 19200 else 9600
  {
  }

  // ------------------------------------------------------------ the driver

  /** What a command does to the line control register: only these bits. */
  function LineControl(lcr: bv8, cmd: Command): bv8 {
    match cmd
    case EvenParity => lcr | 0x18
    case OddParity => lcr | 0x08
    case NoParity => lcr & 0xf7
    case StopBits1 => lcr & 0xfb
    case CharLen8 => lcr | 0x03
    case _ => lcr
  }

  /** The register file after an ioctl, from any state whatever. */
  function Ioctl(u: Regs, cmd: Command): Regs {
    match cmd
    case Baud9600 => SetDivisor(u, 0x0c)
    case Baud19200 => SetDivisor(u, 0x06)
    case EnableInterrupts => Outb(u, INT_PORT, 0x03)
    case DisableInterrupts => Outb(u, INT_PORT, 0x00)
    case _ => u.(lcr := LineControl(u.lcr, cmd))
  }

  /** The latch is opened, written and closed again: nothing else changes. */
  function SetDivisor(u: Regs, low: bv8): Regs {
    u.(dll := low, dlm := 0)
  }

  /** Only these bits of the line control register differ afterwards, and these are set. */
  predicate BitsSet(lcr: bv8, now: bv8, mask: bv8, bits: bv8) {
    now & mask == bits && now & !mask == lcr & !mask
  }

  /** Which bits of the register a command sets, and which it clears, whatever they were. */
  lemma LineControlBits(lcr: bv8)
    ensures BitsSet(lcr, LineControl(lcr, EvenParity), 0x18, 0x18)
    ensures BitsSet(lcr, LineControl(lcr, OddParity), 0x08, 0x08)
    ensures BitsSet(lcr, LineControl(lcr, NoParity), 0x08, 0x00)
    ensures BitsSet(lcr, LineControl(lcr, StopBits1), 0x04, 0x00)
    ensures BitsSet(lcr, LineControl(lcr, CharLen8), 0x03, 0x03)
    ensures forall cmd | About(cmd) !in {Parity, StopBits, Length} :: LineControl(lcr, cmd) == lcr
  {
  }

  class Driver {
    const uart: Uart

    constructor (uart: Uart)
      ensures this.uart == uart
    {
      this.uart := uart;
    }

    /** NAME_open: whatever the registers held, they show the default settings. */
    method Open()
      modifies uart
      ensures Shows(uart.Model(), DEFAULT)
      ensures uart.sent == old(uart.sent)
    {
      uart.Write(0x00, INT_PORT);
      uart.Write(0x80, LCR_PORT);
      uart.Write(0x0c, DATA_PORT);
      uart.Write(0x00, INT_PORT);
      uart.Write(0x00, LCR_PORT);
      uart.Write(0x0b, LCR_PORT);
      uart.Write(0x03, INT_PORT);
    }

    /** SET_BAUD_9600 and SET_BAUD_19200 */
    method SetBaud(low: bv8)
      modifies uart
      ensures uart.Model() == SetDivisor(old(uart.Model()), low)
    {
      var prev := uart.Read(LCR_PORT);
      uart.Write(prev | 0x80, LCR_PORT);
      LatchOpens(prev);
      uart.Write(low, DATA_PORT);
      uart.Write(0x00, INT_PORT);
      uart.Write(prev, LCR_PORT);
    }

    /** NAME_ioctl */
    method Control(cmd: Command) returns (ret: int)
      modifies uart
      ensures uart.Model() == Ioctl(old(uart.Model()), cmd) && ret == 1
    {
      ret := 1;
      match cmd {
        case Baud9600 => SetBaud(0x0c);
        case Baud19200 => SetBaud(0x06);
        case EvenParity =>
          var prev := uart.Read(LCR_PORT);
          uart.Write(prev | 0x18, LCR_PORT);
        case OddParity =>
          var prev := uart.Read(LCR_PORT);
          uart.Write(prev | 0x08, LCR_PORT);
        case NoParity =>
          var prev := uart.Read(LCR_PORT);
          uart.Write(prev & 0xf7, LCR_PORT);
        case StopBits1 =>
          var prev := uart.Read(LCR_PORT);
          uart.Write(prev & 0xfb, LCR_PORT);
        case CharLen8 =>
          var prev := uart.Read(LCR_PORT);
          uart.Write(prev | 0x03, LCR_PORT);
        case EnableInterrupts => uart.Write(0x03, INT_PORT);
        case DisableInterrupts => uart.Write(0x00, INT_PORT);
        case Unsupported(_) =>
      }
    }

    /** Open and then a list of commands, one after the other. */
    method OpenAndConfigure(cmds: seq<Command>)
      modifies uart
      ensures Shows(uart.Model(), ApplyAll(DEFAULT, cmds))
      ensures uart.sent == old(uart.sent)
    {
      Open();
      assert cmds[..0] == [];
      for i := 0 to |cmds|
        invariant Shows(uart.Model(), ApplyAll(DEFAULT, cmds[..i])) && uart.sent == old(uart.sent)
      {
        ghost var c := ApplyAll(DEFAULT, cmds[..i]);
        IoctlShows(uart.Model(), c, cmds[i]);
        var ret := Control(cmds[i]);
        assert cmds[..i + 1] == cmds[..i] + [cmds[i]];
        ApplyOneMore(DEFAULT, cmds[..i], cmds[i]);
      }
      assert cmds[..|cmds|] == cmds;
    }
  }

  lemma LatchOpens(prev: bv8)
    ensures (prev | 0x80) & DLAB != 0
  {
  }

  // ------------------------------------------------------------ command sequences

  function ApplyAll(c: Settings, cmds: seq<Command>): Settings
    decreases |cmds|
  {
    if cmds == [] then c else ApplyAll(Apply(c, cmds[0]), cmds[1..])
  }

  function IoctlAll(u: Regs, cmds: seq<Command>): Regs
    decreases |cmds|
  {
    if cmds == [] then u else IoctlAll(Ioctl(u, cmds[0]), cmds[1..])
  }

  lemma {:induction false} ApplyOneMore(c: Settings, cmds: seq<Command>, cmd: Command)
    ensures ApplyAll(c, cmds + [cmd]) == Apply(ApplyAll(c, cmds), cmd)
    decreases |cmds|
  {
    if cmds == [] {
    } else {
      assert (cmds + [cmd])[1..] == cmds[1..] + [cmd];
      ApplyOneMore(Apply(c, cmds[0]), cmds[1..], cmd);
    }
  }

  /** One command takes registers that show some settings to registers that show the settings
      the command asks for: DLAB is clear again, and nothing has been transmitted. */
  lemma IoctlShows(u: Regs, c: Settings, cmd: Command)
    requires Shows(u, c)
    ensures Shows(Ioctl(u, cmd), Apply(c, cmd)) && Ioctl(u, cmd).sent == u.sent
  {
    ShowsUnlatched(u, c);
    if c.parity {
      if c.even {} else {}
    } else {
      if c.even {} else {}
    }
  }

  /** After open and any commands at all. */
  lemma {:induction false} SequenceShows(u: Regs, c: Settings, cmds: seq<Command>)
    requires Shows(u, c)
    ensures Shows(IoctlAll(u, cmds), ApplyAll(c, cmds)) && !Latched(IoctlAll(u, cmds))
    ensures IoctlAll(u, cmds).sent == u.sent
    decreases |cmds|
  {
    if cmds == [] {
      ShowsUnlatched(u, c);
    } else {
      IoctlShows(u, c, cmds[0]);
      SequenceShows(Ioctl(u, cmds[0]), Apply(c, cmds[0]), cmds[1..]);
    }
  }

  /** The last of the commands that is one of the given ones. */
  function LastOf(cmds: seq<Command>, which: set<Command>): Option<Command> {
    if cmds == [] then None
    else if Last(cmds) in which then Some(Last(cmds))
    else LastOf(Init(cmds), which)
  }

  lemma LastOneMore(cmds: seq<Command>, which: set<Command>)
    requires cmds != []
    ensures LastOf(cmds, which) == if Last(cmds) in which then Some(Last(cmds)) else LastOf(Init(cmds), which)
  {
  }

  /** Each setting is the last command's about it, except that one even parity command since
      open is enough to set the even bit for good. */
  lemma {:induction false} SettingsByLastCommand(cmds: seq<Command>)
    ensures var c := ApplyAll(DEFAULT, cmds);
      && (c.fast <==> LastOf(cmds, {Baud9600, Baud19200}) == Some(Baud19200))
      && (c.parity <==> LastOf(cmds, {EvenParity, OddParity, NoParity}) != Some(NoParity))
      && (c.even <==> EvenParity in cmds)
      && (c.interrupts <==> LastOf(cmds, {EnableInterrupts, DisableInterrupts}) != Some(DisableInterrupts))
  {
    if cmds != [] {
      SettingsByLastCommand(Init(cmds));
      assert cmds == Init(cmds) + [Last(cmds)];
      ApplyOneMore(DEFAULT, Init(cmds), Last(cmds));
      LastOneMore(cmds, {Baud9600, Baud19200});
      LastOneMore(cmds, {EvenParity, OddParity, NoParity});
      LastOneMore(cmds, {EnableInterrupts, DisableInterrupts});
      hide ApplyAll, LastOf;
    }
  }

  /** The registers themselves after a line that is open and any commands: eight data bits and one
      stop bit (3), parity (8), even (16), the divisor 6 or 12, both interrupts or none. */
  lemma RegistersByLastCommand(u: Regs, cmds: seq<Command>)
    requires Shows(u, DEFAULT)
    ensures var v := IoctlAll(u, cmds);
      && v.lcr as int == 3 + (if LastOf(cmds, {EvenParity, OddParity, NoParity}) == Some(NoParity) then 0 else 8)
                           + (if EvenParity in cmds then 16 else 0)
      && v.dll as int == (if LastOf(cmds, {Baud9600, Baud19200}) == Some(Baud19200) then 6 else 12) && v.dlm == 0
      && v.ier as int == (if LastOf(cmds, {EnableInterrupts, DisableInterrupts}) == Some(DisableInterrupts)
                          then 0 else 3)
      && v.sent == u.sent
  {
    SequenceShows(u, DEFAULT, cmds);
    SettingsByLastCommand(cmds);
    hide LastOf, ApplyAll, IoctlAll;
    ShownRegisters(IoctlAll(u, cmds), ApplyAll(DEFAULT, cmds));
  }

  lemma ShownRegisters(u: Regs, c: Settings)
    requires Shows(u, c)
    ensures u.lcr as int == 3 + (if c.parity then 8 else 0) + (if c.even then 16 else 0)
    ensures u.dll as int == (if c.fast then 6 else 12) && u.dlm == 0 && u.ier as int == (if c.interrupts then 3 else 0)
  {
  }

  /** So an odd parity command selects odd parity exactly when no even one came before it. */
  lemma OddIsOddUnlessEvenCame(cmds: seq<Command>)
    ensures var c := ApplyAll(DEFAULT, cmds + [OddParity]);
            c.parity && (!c.even <==> EvenParity !in cmds)
  {
    SettingsByLastCommand(cmds + [OddParity]);
  }

  /** An even parity command and then an odd one leave the line on even parity. */
  lemma OddAfterEven()
    ensures ApplyAll(DEFAULT, [EvenParity, OddParity]) == DEFAULT.(even := true)
  {
    assert [EvenParity, OddParity][1..] == [OddParity] && [OddParity][1..] == [];
  }

  /** The parts of the register file a command may be about. */
  datatype Field = Divisor | Parity | StopBits | Length | Interrupts | Nothing

  function About(cmd: Command): Field {
    match cmd
    case Baud9600 | Baud19200 => Divisor
    case EvenParity | OddParity | NoParity => Parity
    case StopBits1 => StopBits
    case CharLen8 => Length
    case EnableInterrupts | DisableInterrupts => Interrupts
    case Unsupported(_) => Nothing
  }

  /** What a command does to the divisor latch. */
  function DivisorAfter(dll: bv8, dlm: bv8, cmd: Command): (bv8, bv8) {
    match cmd
    case Baud9600 => (0x0c, 0)
    case Baud19200 => (0x06, 0)
    case _ => (dll, dlm)
  }

  /** What a command does to the interrupt enable register. */
  function InterruptsAfter(ier: bv8, cmd: Command): bv8 {
    match cmd
    case EnableInterrupts => 0x03
    case DisableInterrupts => 0x00
    case _ => ier
  }

  lemma IoctlByRegister(u: Regs, cmd: Command)
    requires !Latched(u)
    ensures var (dll, dlm) := DivisorAfter(u.dll, u.dlm, cmd);
            Ioctl(u, cmd) == Regs(LineControl(u.lcr, cmd), InterruptsAfter(u.ier, cmd), dll, dlm, u.iir, u.rbr, u.sent)
  {
    hide Latched;
  }

  lemma OtherRegistersCommute(dll: bv8, dlm: bv8, ier: bv8, a: Command, b: Command)
    requires About(a) != About(b)
    ensures var (l, m), (p, q) := DivisorAfter(dll, dlm, a), DivisorAfter(dll, dlm, b);
            DivisorAfter(l, m, b) == DivisorAfter(p, q, a)
    ensures InterruptsAfter(InterruptsAfter(ier, a), b) == InterruptsAfter(InterruptsAfter(ier, b), a)
  {
  }

  lemma StaysUnlatched(u: Regs, cmd: Command)
    requires !Latched(u)
    ensures !Latched(Ioctl(u, cmd)) && Ioctl(u, cmd).sent == u.sent
  {
  }

  lemma LineControlCommutes(lcr: bv8, a: Command, b: Command)
    requires About(a) != About(b)
    ensures LineControl(LineControl(lcr, a), b) == LineControl(LineControl(lcr, b), a)
  {
    ParityStopBits(lcr);
    ParityLength(lcr);
    StopBitsLength(lcr);
  }

  lemma ParityStopBits(lcr: bv8)
    ensures (lcr | 0x18) & 0xfb == (lcr & 0xfb) | 0x18
    ensures (lcr | 0x08) & 0xfb == (lcr & 0xfb) | 0x08
    ensures (lcr & 0xf7) & 0xfb == (lcr & 0xfb) & 0xf7
  {
  }

  lemma ParityLength(lcr: bv8)
    ensures (lcr | 0x18) | 0x03 == (lcr | 0x03) | 0x18
    ensures (lcr | 0x08) | 0x03 == (lcr | 0x03) | 0x08
    ensures (lcr & 0xf7) | 0x03 == (lcr | 0x03) & 0xf7
  {
  }

  lemma StopBitsLength(lcr: bv8)
    ensures (lcr & 0xfb) | 0x03 == (lcr | 0x03) & 0xfb
  {
  }

  /** Commands about different things commute, from any registers with DLAB clear. */
  lemma DifferentFieldsCommute(u: Regs, a: Command, b: Command)
    requires !Latched(u) && About(a) != About(b)
    ensures Ioctl(Ioctl(u, a), b) == Ioctl(Ioctl(u, b), a)
  {
    hide Ioctl, Latched, LineControl, DivisorAfter, InterruptsAfter;
    StaysUnlatched(u, a);
    StaysUnlatched(u, b);
    IoctlByRegister(u, a);
    IoctlByRegister(u, b);
    IoctlByRegister(Ioctl(u, a), b);
    IoctlByRegister(Ioctl(u, b), a);
    LineControlCommutes(u.lcr, a, b);
    OtherRegistersCommute(u.dll, u.dlm, u.ier, a, b);
  }
}
