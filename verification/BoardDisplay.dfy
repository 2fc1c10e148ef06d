/** What the display is made to show, in terms of the switches and the registers alone. */
module BoardDisplay {
  import opened Words
  import opened Health
  import opened BoardLog
  import opened BoardIo

  /** Three digits of seven segments each, as a bank register holds them. */
  function Row(a: bv32, b: bv32, c: bv32): bv32 {
    a | (b << 7) | (c << 14)
  }

  /** The segment switches, active low and active high. */
  function Inverted(s: bv32): bv32 {
    !s & 0x7f
  }

  function Direct(s: bv32): bv32 {
    s & 0x7f
  }

  predicate Raw(s: bv32) {
    s & 0x200 != 0
  }

  /** The right three digits: dark if only switch 8 is on, and if both 8 and 7 are, the middle one inverted. */
  function RightDigits(s: bv32): bv32 {
    var n := Inverted(s);
    if s & 0x180 == 0x100 then 0x1fffff
    else if s & 0x180 == 0x180 then Row(n, Direct(s), n)
    else Row(n, n, n)
  }

  /** The left three: dark if only switch 7 is on, and if both are, the outer ones inverted. */
  function LeftDigits(s: bv32): bv32 {
    var n := Inverted(s);
    if s & 0x180 == 0x080 then 0x1fffff
    else if s & 0x180 == 0x180 then Row(Direct(s), n, Direct(s))
    else Row(n, n, n)
  }

  /** The low nine switches twice, twelve places apart. */
  function Doubled(s: bv32): bv32 {
    (s & 0x1ff) | ((s & 0x1ff) << 12)
  }

  // ---------------------------------------------------------------- the command

  /** The mode is raw exactly if switch 9 is on. */
  lemma ModeOf(s: bv32)
    ensures CommandFor(s).ctrl == if Raw(s) then 3 else 1
  {
    hide Bank, Or, Shl;
  }

  /** The value word has the low nine switches in bits 0 to 8 and again in bits 12 to 20, and nothing else. */
  lemma ValueOf(s: bv32)
    ensures var v := CommandFor(s).value;
      v == Doubled(s) && v & 0x1ff == s & 0x1ff && (v >> 12) & 0x1ff == s & 0x1ff && v & 0xffe00e00 == 0
  {
    hide Bank;
  }

  lemma ThreeIsRow(a: bv7, b: bv7, c: bv7)
    ensures Three(a, b, c) == Row(a as bv32, b as bv32, c as bv32)
  {
  }

  lemma SwitchesAre(s: bv32)
    ensures Switches(s) as bv32 == Direct(s) && (!Switches(s)) as bv32 == Inverted(s)
  {
  }

  lemma GroupIs(s: bv32)
    ensures (Group(s) == 0 <==> s & 0x180 == 0) && (Group(s) == 1 <==> s & 0x180 == 0x080)
    ensures (Group(s) == 2 <==> s & 0x180 == 0x100) && (Group(s) == 3 <==> s & 0x180 == 0x180)
  {
  }

  lemma AllDark()
    ensures Row(0x7f, 0x7f, 0x7f) == 0x1fffff
  {
  }

  lemma RightBank(s: bv32)
    ensures CommandFor(s).low == RightDigits(s)
  {
    hide Bank, Three, Row, Group, Switches, Inverted, Direct, Or, Shl, And;
    BankIs(s, 0);
    ThreeIsRow(Digit(s, 0), Digit(s, 1), Digit(s, 2));
    SwitchesAre(s);
    GroupIs(s);
    AllDark();
  }

  lemma LeftBank(s: bv32)
    ensures CommandFor(s).high == LeftDigits(s)
  {
    hide Bank, Three, Row, Group, Switches, Inverted, Direct, Or, Shl, And;
    BankIs(s, 3);
    ThreeIsRow(Digit(s, 3), Digit(s, 4), Digit(s, 5));
    SwitchesAre(s);
    GroupIs(s);
    AllDark();
  }

  /** The banks hold the digits. */
  lemma BanksOf(s: bv32)
    ensures CommandFor(s).low == RightDigits(s) && CommandFor(s).high == LeftDigits(s)
  {
    hide CommandFor, RightDigits, LeftDigits;
    RightBank(s);
    LeftBank(s);
  }

  // ---------------------------------------------------------------- what the reports say

  predicate Bit(w: bv32, mask: bv32) {
    w & mask != 0
  }

  lemma FaultIs(c: Command, a: Answers)
    ensures var f, raw := Fault(c, a), c.ctrl == 3;
      && f < 16 && (Bit(f, 1) <==> And(a.ctrl, 3) != c.ctrl)
      && (Bit(f, 2) <==> raw && And(a.low, 0x1fffff) != c.low)
      && (Bit(f, 4) <==> raw && And(a.high, 0x1fffff) != c.high)
      && (Bit(f, 8) <==> !raw && And(a.value, 0xffffff) != c.value)
  {
    hide And;
  }

  function Packed(f: bv32, c: bv32, v: bv32): bv32 {
    Or(Or(Shl(f, 24), Shl(c, 10)), v)
  }

  function Top(w: bv32): bv32 {
    w >> 24
  }

  lemma PackedLow(f: bv32, c: bv32, v: bv32)
    requires f < 16 && c < 0x400 && v < 0x400
    ensures Packed(f, c, v) & 0x3ff == v
  {
  }

  lemma PackedMiddle(f: bv32, c: bv32, v: bv32)
    requires f < 16 && c < 0x400 && v < 0x400
    ensures (Packed(f, c, v) >> 10) & 0x3ff == c
  {
  }

  lemma PackedTop(f: bv32, c: bv32, v: bv32)
    requires f < 16 && c < 0x400 && v < 0x400
    ensures Top(Packed(f, c, v)) == f
  {
  }

  lemma TopBits(w: bv32)
    ensures (Bit(w, 0x100_0000) <==> Bit(Top(w), 1)) && (Bit(w, 0x200_0000) <==> Bit(Top(w), 2))
    ensures (Bit(w, 0x400_0000) <==> Bit(Top(w), 4)) && (Bit(w, 0x800_0000) <==> Bit(Top(w), 8))
  {
  }

  lemma PackedDetail(f: bv32, c: bv32, v: bv32)
    requires f < 16 && c < 0x400 && v < 0x400
    ensures var d := Packed(f, c, v);
      && d & 0x3ff == v && (d >> 10) & 0x3ff == c
      && (Bit(d, 0x100_0000) <==> Bit(f, 1)) && (Bit(d, 0x200_0000) <==> Bit(f, 2))
      && (Bit(d, 0x400_0000) <==> Bit(f, 4)) && (Bit(d, 0x800_0000) <==> Bit(f, 8))
  {
    hide Packed, Top, Bit;
    PackedLow(f, c, v);
    PackedMiddle(f, c, v);
    PackedTop(f, c, v);
    TopBits(Packed(f, c, v));
  }

  lemma NoFault(c: bv32, v: bv32)
    ensures Or(Or(Shl(0, 24), Shl(c, 10)), v) == Or(Shl(c, 10), v)
  {
  }

  lemma LowTwo(x: bv32)
    ensures And(x, 3) < 4
  {
  }

  /** The detail of the display's report has the sample in its low ten bits, the control word read back above, and
      one bit for each register that did not read back as commanded; it fails exactly if there is such a bit. */
  lemma HexDetailTells(b: Board, a: Answers)
    requires b.value < 0x400
    ensures var r, raw := HexReport(b, a), b.command.ctrl == 3;
      && r.detail & 0x3ff == b.value && (r.detail >> 10) & 0x3ff == And(a.ctrl, 3)
      && (Bit(r.detail, 0x100_0000) <==> And(a.ctrl, 3) != b.command.ctrl)
      && (Bit(r.detail, 0x200_0000) <==> raw && And(a.low, 0x1fffff) != b.command.low)
      && (Bit(r.detail, 0x400_0000) <==> raw && And(a.high, 0x1fffff) != b.command.high)
      && (Bit(r.detail, 0x800_0000) <==> !raw && And(a.value, 0xffffff) != b.command.value)
  {
    hide And, Or, Shl, Fault, Bit;
    FaultIs(b.command, a);
    LowTwo(a.ctrl);
    PackedDetail(Fault(b.command, a), And(a.ctrl, 3), b.value);
    NoFault(And(a.ctrl, 3), b.value);
  }

  lemma FailedLed(r: bv32, v: bv32)
    requires r < 0x400 && v < 0x400
    ensures Or(Or(0x74000000, Shl(r, 10)), v) & 0x3ff == v
    ensures (Or(Or(0x74000000, Shl(r, 10)), v) >> 10) & 0x3ff == r
  {
  }

  lemma PassedLed(r: bv32, v: bv32)
    requires r < 0x400 && v < 0x400
    ensures Or(Shl(r, 10), v) & 0x3ff == v
    ensures (Or(Shl(r, 10), v) >> 10) & 0x3ff == r
  {
  }

  /** The detail of the LEDs' report has the sample in its low ten bits and what was read back in the next ten. */
  lemma LedDetailTells(v: bv32, generation: U32, r: bv32)
    requires v < 0x400 && r < 0x400
    ensures var d := LedReport(v, generation, r).detail; d & 0x3ff == v && (d >> 10) & 0x3ff == r
  {
    hide Or, Shl;
    if r != v {
      FailedLed(r, v);
      assert LedReport(v, generation, r).detail == Or(Or(0x74000000, Shl(r, 10)), v);
    } else {
      PassedLed(r, v);
      assert LedReport(v, generation, r).detail == Or(Shl(r, 10), v);
    }
    hide LedReport;
  }

  // ---------------------------------------------------------------- the registers

  /** The data registers among what was written. */
  function DataOf(w: seq<Setting>): seq<Setting> {
    if w == [] then []
    else DataOf(w[..|w| - 1]) + if w[|w| - 1].reg == CtrlReg then [] else [w[|w| - 1]]
  }

  /** The data registers for a sample. */
  function DataFor(s: bv32): seq<Setting> {
    if Raw(s) then [Setting(LowReg, RightDigits(s)), Setting(HighReg, LeftDigits(s))]
    else [Setting(ValueReg, Doubled(s))]
  }

  predicate Seen(e: Event, reg: Register, mask: bv32, v: bv32) {
    e.Saw? && e.reg == reg && And(e.v, mask) == v
  }

  /** At place k of the history the display succeeds: since the sample the data registers for it have been written
      and no others, last of all the control register with its mode, and all of these have just read back so. */
  predicate ShowsSample(log: seq<Event>, k: nat)
    requires k < |log|
  {
    var before := log[..k];
    && Of(before, SW) != []
    && (var s, w := Sample(before).report.detail, Since(before);
        && w != [] && w[|w| - 1] == Setting(CtrlReg, if Raw(s) then 3 else 1) && DataOf(w) == DataFor(s)
        && if Raw(s) then
             && k >= 3 && Seen(log[k - 3], CtrlReg, 3, 3) && Seen(log[k - 2], LowReg, 0x1fffff, RightDigits(s))
             && Seen(log[k - 1], HighReg, 0x1fffff, LeftDigits(s))
           else k >= 2 && Seen(log[k - 2], CtrlReg, 3, 1) && Seen(log[k - 1], ValueReg, 0xffffff, Doubled(s)))
  }

  predicate HexSucceeds(e: Event) {
    e.Made? && e.report.id == HEX && e.report.step == STEP_PROGRESS
  }

  lemma DataOfMore(w: seq<Setting>, x: Setting)
    ensures DataOf(w + [x]) == DataOf(w) + if x.reg == CtrlReg then [] else [x]
  {
    assert (w + [x])[..|w|] == w;
  }

  lemma ScriptEnds(c: Command, off: bv32)
    ensures Script(c, off, 4) == [Setting(CtrlReg, off)] + Data(c) +
      [Setting(CtrlReg, if c.ctrl == 3 then 2 else 0)] + [Setting(CtrlReg, c.ctrl)]
  {
    hide Data;
    assert Script(c, off, 1) == [Setting(CtrlReg, off)];
    assert Script(c, off, 2) == Script(c, off, 1) + Data(c);
    assert Script(c, off, 3) == Script(c, off, 2) + Part(c, off, 2);
  }

  /** Whatever control words come first. */
  lemma DataOfScript(w: seq<Setting>, first: seq<Setting>, c: Command, off: bv32)
    requires DataOf(first) == [] && w == first + Script(c, off, 4)
    ensures w != [] && w[|w| - 1] == Setting(CtrlReg, c.ctrl) && DataOf(w) == Data(c)
  {
    hide Script, DataOf;
    ScriptEnds(c, off);
    var a := first + [Setting(CtrlReg, off)];
    var b := a + Data(c);
    var d := b + [Setting(CtrlReg, if c.ctrl == 3 then 2 else 0)];
    assert w == d + [Setting(CtrlReg, c.ctrl)];
    DataOfMore(first, Setting(CtrlReg, off));
    if c.ctrl == 3 {
      DataOfMore(a, Setting(LowReg, c.low));
      DataOfMore(a + [Setting(LowReg, c.low)], Setting(HighReg, c.high));
      assert b == a + [Setting(LowReg, c.low)] + [Setting(HighReg, c.high)];
    } else {
      DataOfMore(a, Setting(ValueReg, c.value));
    }
    DataOfMore(b, Setting(CtrlReg, if c.ctrl == 3 then 2 else 0));
    DataOfMore(d, Setting(CtrlReg, c.ctrl));
  }

  lemma StepsTell(w: seq<Setting>, c: Command, off: bv32)
    requires Steps(w, c, off, 4)
    ensures w != [] && w[|w| - 1] == Setting(CtrlReg, c.ctrl) && DataOf(w) == Data(c)
  {
    hide Script, Data;
    if w == Script(c, off, 4) {
      assert [] + w == w;
      DataOfScript(w, [], c, off);
    } else {
      DataOfScript(w, [Setting(CtrlReg, 1)], c, off);
    }
  }

  lemma SuccessShows(log: seq<Event>, k: nat)
    requires Legal(log) && k < |log| && HexSucceeds(log[k])
    ensures ShowsSample(log, k)
  {
    hide Legal, Of, Since, Steps, CommandFor, And, RightDigits, LeftDigits, Doubled, Raw, DataOf;
    var before := log[..k];
    LawfulAt(log, k);
    var s := Sample(before).report.detail;
    var c := CommandFor(s);
    ModeOf(s);
    ValueOf(s);
    BanksOf(s);
    if Steps(Since(before), c, 0, 4) {
      StepsTell(Since(before), c, 0);
    } else {
      StepsTell(Since(before), c, 2);
    }
  }

  lemma LawfulAt(log: seq<Event>, k: nat)
    requires Legal(log) && k < |log|
    ensures Lawful(log[..k], log[k])
  {
    hide Lawful;
  }

  /** In every run, whenever the display reports success it has been made to show the sample it answers for. */
  lemma DisplayInEveryRun(c: Core, ts: seq<Turn>, k: nat)
    requires Initial(c) && forall j :: 0 <= j < |ts| ==> ts[j].Shape()
    ensures var log := Run(Idle(c), ts).log; k < |log| && HexSucceeds(log[k]) ==> ShowsSample(log, k)
  {
    hide Run, Legal, ShowsSample;
    EveryRun(c, ts);
    var log := Run(Idle(c), ts).log;
    if k < |log| && HexSucceeds(log[k]) {
      SuccessShows(log, k);
    }
  }
}
