/** The board record of the firmware, updated in place; each service is proved to be the corresponding
    step of `BoardIo` or `GpioLoop`. */
module BoardService {
  import opened Words
  import opened Health
  import opened BoardLog
  import opened BoardIo
  import G = GpioLoop
  import HealthCore

  /** soc_health_board_io_t, together with the display driver's copy of its control register. */
  class Board {
    var gpioPhase: nat
    var gpioIndex: nat
    var gpioExpected: bv32
    var gpioWritten: bv32
    var gpioStart: U32
    var gpioAttempt: U32
    var gpioGeneration: U32
    var gpioDeadline: Deadline
    var generation: U32
    var value: bv32
    var ledPending: bool
    var hexPending: bool
    var start: U32
    var phase: nat
    var initialized: bool
    var command: Command
    var shadow: bv32
    ghost var log: seq<Event>
    ghost var pinLog: seq<Event>

    /** The command part and the pin part of the state. */
    ghost function Commands(c: HealthCore.Core): BoardIo.Board
      reads this, c
    {
      BoardIo.Board(c.State(), generation, value, ledPending, hexPending, start, phase, initialized,
                    command, shadow, log)
    }

    ghost function Pins(c: HealthCore.Core): G.Gpio
      reads this, c
    {
      G.Gpio(c.State(), gpioPhase, gpioIndex, gpioExpected, gpioWritten, gpioStart, gpioAttempt, gpioGeneration,
        gpioDeadline, pinLog)
    }

    /** soc_health_board_io_init */
    constructor (c: HealthCore.Core)
      ensures Commands(c) == BoardIo.Idle(c.State()) && Pins(c) == G.Idle(c.State())
    {
      gpioPhase, gpioIndex, gpioExpected, gpioWritten := 0, 0, 0, 0;
      gpioStart, gpioAttempt, gpioGeneration, gpioDeadline := 0, 0, 0, Deadline(0, 0, 0, false);
      generation, value, ledPending, hexPending, start := 0, 0, false, false, 0;
      phase, initialized, shadow := 0, false, 1;
      command := Command(0, 0, 0, 0);
      log, pinLog := [], [];
    }

    /** The sample and what it commands, and who owes an answer for it. */
    method Hold(c: HealthCore.Core, v: bv32)
      modifies this`value, this`command, this`generation, this`ledPending, this`hexPending, this`start, this`phase
      ensures Commands(c) == Captured(old(Commands(c)), v)
    {
      hide CommandFor, Inc;
      value := v;
      generation := Inc(generation);
      start := c.epoch;
      ledPending, hexPending := true, true;
      phase := 0;
      command := HexCommand(v);
    }

    /** soc_health_report, from the command part */
    method Tell(c: HealthCore.Core, r: Report)
      requires c.Valid()
      modifies c, this`log
      ensures c.Valid() && Commands(c) == Told(old(Commands(c)), r)
    {
      hide Reported, Accepts;
      log := log + [Made(r, c.epoch, Accepts(c.State(), r))];
      var _ := c.Report(r.id, r.step, r.token, r.detail);
    }

    method WriteReg(c: HealthCore.Core, reg: Register, v: bv32)
      modifies this`log
      ensures Commands(c) == BoardIo.Write(old(Commands(c)), reg, v)
    {
      log := log + [Wrote(reg, v, c.epoch)];
    }

    method ReadReg(c: HealthCore.Core, reg: Register, answer: bv32)
      modifies this`log
      ensures Commands(c) == BoardIo.Read(old(Commands(c)), reg, answer)
    {
      log := log + [Saw(reg, answer, c.epoch)];
    }

    /** sw_service */
    method SwService(c: HealthCore.Core, a: Answers)
      requires c.Valid()
      modifies c, this`generation, this`value, this`ledPending, this`hexPending, this`start, this`phase, this`command
      modifies this`log
      ensures c.Valid() && Commands(c) == SwServed(old(Commands(c)), a)
    {
      hide Told, Captured, And, Inc, BoardIo.Read;
      if ledPending || hexPending {
        return;
      }
      ghost var b := Commands(c);
      ReadReg(c, SwReg, a.sw);
      ReadSame(b, SwReg, a.sw);
      Hold(c, And(a.sw, 0x3ff));
      CapturedSame(BoardIo.Read(b, SwReg, a.sw), And(a.sw, 0x3ff));
      assert generation == Commands(c).generation && value == Commands(c).value;
      Tell(c, Report(SW, STEP_PROGRESS, generation, value));
    }

    /** consumer_expired */
    method Expired(c: HealthCore.Core, id: nat) returns (expired: bool)
      requires c.Valid()
      modifies c, this`log
      ensures c.Valid() && expired == Late(old(Commands(c)))
      ensures var b := old(Commands(c));
        Commands(c) ==
          if expired then Told(b, Report(id, STEP_DEADLINE_MISS, generation, MissedDetail(b.value))) else b
    {
      hide Told, Or;
      if Sub(c.epoch, start) < BOARD_BUDGET {
        return false;
      }
      Tell(c, Report(id, STEP_DEADLINE_MISS, generation, Or(0x73000000, value)));
      return true;
    }

    /** led_service */
    method LedService(c: HealthCore.Core, a: Answers)
      requires c.Valid()
      modifies c, this`ledPending, this`log
      ensures c.Valid() && Commands(c) == LedServed(old(Commands(c)), a)
    {
      hide Told, And, LedReport, Late, MissedDetail, BoardIo.Read, BoardIo.Write;
      if !ledPending {
        return;
      }
      ghost var b := Commands(c);
      var expired := Expired(c, LED);
      if !expired {
        WriteReg(c, LedReg, And(value, 0x3ff));
        ReadReg(c, LedReg, a.led);
        LedAccessed(b, And(b.value, 0x3ff), a.led);
        LedCheck(c, And(a.led, 0x3ff));
      }
      ledPending := false;
    }

    method LedCheck(c: HealthCore.Core, readback: bv32)
      requires c.Valid()
      modifies c, this`log
      ensures var b := old(Commands(c));
        c.Valid() && Commands(c) == Told(b, LedReport(b.value, b.generation, readback))
    {
      hide Told, Or, Shl;
      if readback != value {
        Tell(c, Report(LED, STEP_FAIL, 0, Or(Or(0x74000000, Shl(readback, 10)), value)));
      } else {
        Tell(c, Report(LED, STEP_PROGRESS, generation, Or(Shl(readback, 10), value)));
      }
    }

    /** hex_display_write_ctrl */
    method WriteCtrl(c: HealthCore.Core, ctrl: bv32)
      modifies this`shadow, this`log
      ensures Commands(c) == WithCtrl(old(Commands(c)), ctrl)
    {
      shadow := ctrl;
      WriteReg(c, CtrlReg, ctrl);
    }

    /** hex_service */
    method HexService(c: HealthCore.Core, a: Answers)
      requires c.Valid()
      modifies c, this`hexPending, this`phase, this`initialized, this`shadow, this`log
      ensures c.Valid() && Commands(c) == HexServed(old(Commands(c)), a)
    {
      hide Told, Late, MissedDetail, HexPhased, WithCtrl;
      if !initialized {
        WriteCtrl(c, 1);
        initialized := true;
      }
      assert Commands(c) == Initialised(old(Commands(c)));
      if !hexPending {
        return;
      }
      var expired := Expired(c, HEX);
      if expired {
        hexPending := false;
        return;
      }
      HexPhase(c, a);
    }

    /** The switch of hex_service. */
    method HexPhase(c: HealthCore.Core, a: Answers)
      requires c.Valid()
      modifies c, this`hexPending, this`phase, this`shadow, this`log
      ensures c.Valid() && Commands(c) == HexPhased(old(Commands(c)), a)
    {
      hide HexAnswered, Disabled, Enabled, Moded, WithData, WithCtrl, BoardIo.Read;
      if phase == 0 {
        ReadReg(c, CtrlReg, a.resync);
        WriteCtrl(c, Disabled(a.resync));
        phase := 1;
      } else if phase == 1 {
        WriteData(c);
        phase := 2;
      } else if phase == 2 {
        WriteCtrl(c, Moded(shadow, command.ctrl == 3));
        phase := 3;
      } else if phase == 3 {
        WriteCtrl(c, Enabled(shadow));
        phase := 4;
      } else {
        HexCheck(c, a);
        hexPending := false;
      }
    }

    method WriteData(c: HealthCore.Core)
      modifies this`log
      ensures Commands(c) == WithData(old(Commands(c)))
    {
      hide And;
      if command.ctrl == 3 {
        WriteReg(c, LowReg, And(command.low, 0x1fffff));
        WriteReg(c, HighReg, And(command.high, 0x1fffff));
      } else {
        WriteReg(c, ValueReg, And(command.value, 0xffffff));
      }
    }

    /** The registers are read back. */
    method ReadBack(c: HealthCore.Core, a: Answers)
      modifies this`log
      ensures Commands(c) == Checked(old(Commands(c)), a)
    {
      ReadReg(c, CtrlReg, a.ctrl);
      if command.ctrl == 3 {
        ReadReg(c, LowReg, a.low);
        ReadReg(c, HighReg, a.high);
      } else {
        ReadReg(c, ValueReg, a.value);
      }
    }

    method HexCheck(c: HealthCore.Core, a: Answers)
      requires c.Valid()
      modifies c, this`log
      ensures c.Valid() && Commands(c) == HexAnswered(old(Commands(c)), a)
    {
      hide Told, Or, Shl, And, Fault, Checked;
      ReadBack(c, a);
      var ctrl := And(a.ctrl, 3);
      var fault := FaultOf(a);
      if fault != 0 {
        Tell(c, Report(HEX, STEP_FAIL, 0, Or(Or(Shl(fault, 24), Shl(ctrl, 10)), value)));
      } else {
        Tell(c, Report(HEX, STEP_PROGRESS, generation, Or(Shl(ctrl, 10), value)));
      }
    }

    /** The fault bits collected one by one. */
    method FaultOf(a: Answers) returns (fault: bv32)
      ensures fault == Fault(command, a)
    {
      hide And;
      fault := 0;
      if And(a.ctrl, 3) != command.ctrl {
        fault := 1;
      }
      if command.ctrl == 3 {
        if And(a.low, 0x1fffff) != command.low {
          fault := Or(fault, 2);
        }
        if And(a.high, 0x1fffff) != command.high {
          fault := Or(fault, 4);
        }
      } else if And(a.value, 0xffffff) != command.value {
        fault := Or(fault, 8);
      }
    }

    // -------------------------------------------------------------- the pins

    /** soc_health_report, from the pins */
    method PinTell(c: HealthCore.Core, r: Report) returns (taken: bool)
      requires c.Valid()
      modifies c, this`pinLog
      ensures c.Valid() && Pins(c) == G.Told(old(Pins(c)), r) && taken == Accepts(old(c.State()), r)
    {
      hide Reported, Accepts;
      pinLog := pinLog + [Made(r, c.epoch, Accepts(c.State(), r))];
      taken := c.Report(r.id, r.step, r.token, r.detail);
    }

    method PinWrite(c: HealthCore.Core, reg: Register, v: bv32)
      modifies this`pinLog
      ensures Pins(c) == G.Write(old(Pins(c)), reg, v)
    {
      pinLog := pinLog + [Wrote(reg, v, c.epoch)];
    }

    method PinRead(c: HealthCore.Core, reg: Register, answer: bv32)
      modifies this`pinLog
      ensures Pins(c) == G.Read(old(Pins(c)), reg, answer)
    {
      pinLog := pinLog + [Saw(reg, answer, c.epoch)];
    }

    /** A register is read and written anew. */
    method PinChange(c: HealthCore.Core, reg: Register, answer: bv32, v: bv32)
      modifies this`pinLog
      ensures Pins(c) == G.Changed(old(Pins(c)), reg, answer, v)
    {
      PinRead(c, reg, answer);
      PinWrite(c, reg, v);
    }

    /** gpio_service */
    method GpioService(c: HealthCore.Core, p: G.Pins)
      requires c.Valid()
      modifies c, this`gpioPhase, this`gpioIndex, this`gpioExpected, this`gpioWritten, this`gpioStart
      modifies this`gpioAttempt, this`gpioGeneration, this`gpioDeadline, this`pinLog
      ensures c.Valid() && Pins(c) == G.Served(old(Pins(c)), p)
    {
      hide G.PhaseServed, G.LateDetail, G.Told, G.Polled;
      if gpioPhase != 0 {
        var late := G.LateDetail(gpioIndex, gpioExpected);
        var expired := PinPoll(c);
        if expired {
          var _ := PinTell(c, G.Failure(late));
          gpioPhase := 0;
          return;
        }
      }
      GpioPhase(c, p);
    }

    /** soc_health_deadline_poll */
    method PinPoll(c: HealthCore.Core) returns (expired: bool)
      requires c.Valid()
      modifies c, this`gpioDeadline, this`pinLog
      ensures c.Valid() && (Pins(c), expired) == G.Polled(old(Pins(c)))
      ensures Pins(c).phase == old(gpioPhase) && Pins(c).index == old(gpioIndex)
        && Pins(c).expected == old(gpioExpected)
    {
      hide Reported, Accepts;
      if DeadlineDue(c.epoch, gpioDeadline) {
        pinLog := pinLog + [Made(G.MissReport(Pins(c)), c.epoch, Accepts(c.State(), G.MissReport(Pins(c))))];
      }
      gpioDeadline, expired := c.DeadlinePoll(GPIO, gpioDeadline);
    }

    method GpioPhase(c: HealthCore.Core, p: G.Pins)
      requires c.Valid()
      modifies c, this`gpioPhase, this`gpioIndex, this`gpioExpected, this`gpioWritten, this`gpioStart
      modifies this`gpioAttempt, this`gpioGeneration, this`gpioDeadline, this`pinLog
      ensures c.Valid() && Pins(c) == G.PhaseServed(old(Pins(c)), p)
    {
      hide G.Begun, G.Driven, G.Checked;
      if gpioPhase == 0 {
        GpioBegin(c, p);
      } else if gpioPhase == 1 {
        GpioDrive(c, p);
      } else {
        GpioCheck(c, p);
      }
    }

    method GpioClaim(c: HealthCore.Core, p: G.Pins)
      modifies this`gpioWritten, this`pinLog
      ensures Pins(c) == G.Claimed(old(Pins(c)), p)
    {
      hide G.Changed, G.Inputs, G.OtherBits, G.LowHalf, Or;
      PinChange(c, DirReg, p.released, G.Inputs(p.released));
      PinChange(c, OutReg, p.latch, G.OtherBits(p.latch));
      gpioWritten := G.OtherBits(p.latch);
      PinChange(c, DirReg, p.claimed, G.LowHalf(Or(p.claimed, 1)));
    }

    /** Reading the direction back and, if that is right, the latch. */
    method GpioInspect(c: HealthCore.Core, p: G.Pins) returns (owned: bool)
      modifies this`pinLog
      ensures Pins(c) == G.Inspected(old(Pins(c)), p) && owned == G.Owned(gpioWritten, p)
    {
      hide G.Directed, G.LowHalf, G.Read;
      PinRead(c, DirReg, p.dir);
      if !G.Directed(p.dir) {
        return false;
      }
      PinRead(c, OutReg, p.latchAgain);
      return G.LowHalf(p.latchAgain) == gpioWritten;
    }

    method GpioBegin(c: HealthCore.Core, p: G.Pins)
      requires c.Valid()
      modifies c, this`gpioPhase, this`gpioIndex, this`gpioExpected, this`gpioWritten, this`gpioStart
      modifies this`gpioAttempt, this`gpioDeadline, this`pinLog
      ensures c.Valid() && Pins(c) == G.Begun(old(Pins(c)), p)
    {
      hide G.Claimed, G.Inspected, G.Owned, G.Told, Inc;
      ghost var g := Pins(c);
      GpioClaim(c, p);
      var owned := GpioInspect(c, p);
      if !owned {
        var _ := PinTell(c, G.Failure(0x72000000));
        return;
      }
      ghost var h := Pins(c);
      gpioIndex, gpioExpected, gpioStart := 0, 0, c.epoch;
      gpioAttempt := Inc(gpioAttempt);
      var ok;
      gpioDeadline, ok := HealthCore.DeadlineBegin(gpioDeadline, c.epoch, BOARD_BUDGET, gpioAttempt);
      gpioPhase := 2;
    }

    method GpioDrive(c: HealthCore.Core, p: G.Pins)
      modifies this`gpioPhase, this`gpioExpected, this`gpioWritten, this`gpioStart, this`pinLog
      ensures Pins(c) == G.Driven(old(Pins(c)), p)
    {
      hide G.OtherBits, G.Stimulus, Or;
      gpioExpected := G.Stimulus(gpioIndex);
      gpioWritten := Or(G.OtherBits(p.latch), gpioExpected);
      PinChange(c, OutReg, p.latch, gpioWritten);
      gpioStart := c.epoch;
      gpioPhase := 2;
    }

    /** Waiting for the level to settle and come back. */
    method GpioCheck(c: HealthCore.Core, p: G.Pins)
      requires c.Valid()
      modifies c, this`gpioPhase, this`gpioIndex, this`gpioGeneration, this`gpioDeadline, this`pinLog
      ensures c.Valid() && Pins(c) == G.Checked(old(Pins(c)), p)
    {
      hide G.Inspected, G.Owned, G.Told, Inc, G.SenseBit, G.Read, G.Matched;
      if Sub(c.epoch, gpioStart) < G.SETTLE {
        return;
      }
      var owned := GpioInspect(c, p);
      if !owned {
        var _ := PinTell(c, G.Failure(0x72000000));
        gpioPhase := 0;
        return;
      }
      PinRead(c, InReg, p.pins);
      if G.SenseBit(p.pins) == gpioExpected {
        GpioMatch(c);
      }
    }

    method GpioMatch(c: HealthCore.Core)
      requires c.Valid()
      modifies c, this`gpioPhase, this`gpioIndex, this`gpioGeneration, this`gpioDeadline, this`pinLog
      ensures c.Valid() && Pins(c) == G.Matched(old(Pins(c)))
    {
      hide Reported, Accepts, Inc;
      gpioIndex := gpioIndex + 1;
      if gpioIndex == 4 {
        gpioGeneration := Inc(gpioGeneration);
        var _ := PinTell(c, Report(GPIO, STEP_PROGRESS, gpioGeneration, 0x103));
        gpioDeadline := gpioDeadline.(armed := false);
        gpioPhase := 0;
      } else {
        gpioPhase := 1;
      }
    }
  }

  lemma ReadSame(b: BoardIo.Board, reg: Register, v: bv32)
    ensures var r := BoardIo.Read(b, reg, v); r == b.(log := r.log)
  {
  }

  lemma CapturedSame(b: BoardIo.Board, v: bv32)
    ensures Captured(b, v).generation == Inc(b.generation) && Captured(b, v).value == v && Captured(b, v).core == b.core
  {
    hide CommandFor, Inc;
  }

  lemma LedAccessed(b: BoardIo.Board, v: bv32, r: bv32)
    ensures var c := BoardIo.Read(BoardIo.Write(b, LedReg, v), LedReg, r); c == b.(log := c.log)
  {
  }

  /** hex_command */
  method HexCommand(s: bv32) returns (command: Command)
    ensures command == CommandFor(s)
  {
    hide Bank, Or, Shl, And;
    var low, high := BanksOf(s);
    command := Command(Or(And(s, 0x1ff), Shl(And(s, 0x1ff), 12)), low, high, if And(s, 0x200) != 0 then 3 else 1);
  }

  /** The digit loop of hex_command. */
  method BanksOf(s: bv32) returns (low: bv32, high: bv32)
    ensures low == Bank(s, 0, 3) && high == Bank(s, 3, 3)
  {
    hide Digit, Or, Placed;
    low, high := 0, 0;
    for i := 0 to 6
      invariant low == Bank(s, 0, if i < 3 then i else 3)
      invariant high == Bank(s, 3, if i < 3 then 0 else i - 3)
    {
      var digit := SegmentsOf(s, i);
      if i < 3 {
        low := Or(low, Placed(digit, i));
      } else {
        high := Or(high, Placed(digit, i - 3));
      }
    }
  }

  /** The segments of one digit, as the loop of hex_command chooses them. */
  method SegmentsOf(s: bv32, i: nat) returns (digit: bv7)
    ensures digit == Digit(s, i)
  {
    hide Switches, Group;
    var on := Switches(s);
    digit := !on;
    if (Group(s) == 1 && i >= 3) || (Group(s) == 2 && i < 3) {
      digit := 0x7f;
    }
    if Group(s) == 3 && i % 2 == 1 {
      digit := on;
    }
  }
}
