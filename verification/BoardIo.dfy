/** The switches as commands for the LEDs and the seven-segment display: one sample is held until both
    have answered for it. */
module BoardIo {
  import opened Words
  import opened Health
  import opened BoardLog

  // ---------------------------------------------------------------- words

  function Shl(a: bv32, n: nat): bv32
    requires n <= 24
  {
    match n
    case 10 => a << 10
    case 12 => a << 12
    case 24 => a << 24
    case _ => a
  }

  // ---------------------------------------------------------------- what the display should show

  /** The command derived from a switch sample. */
  datatype Command = Command(value: bv32, low: bv32, high: bv32, ctrl: bv32)

  /** Switches 8 and 7 choose which of the six digits are lit. */
  function Group(s: bv32): bv32 {
    (s >> 7) & 3
  }

  /** The seven switches that choose segments. */
  function Switches(s: bv32): bv7 {
    (s & 0x7f) as bv7
  }

  /** The segments of digit i: switches 6 to 0 active low, or dark, or active high. */
  function Digit(s: bv32, i: nat): bv7 {
    if (Group(s) == 1 && i >= 3) || (Group(s) == 2 && i < 3) then 0x7f
    else if Group(s) == 3 && i % 2 == 1 then Switches(s)
    else !Switches(s)
  }

  /** Segments moved to place j of a bank word. */
  function Placed(d: bv7, j: nat): bv32
    requires j < 3
  {
    match j
    case 0 => d as bv32
    case 1 => (d as bv32) << 7
    case 2 => (d as bv32) << 14
  }

  /** The word of n digits from place `from` on, seven bits each. */
  function Bank(s: bv32, from: nat, n: nat): bv32
    requires n <= 3
  {
    if n == 0 then 0 else Or(Bank(s, from, n - 1), Placed(Digit(s, from + n - 1), n - 1))
  }

  /** hex_command */
  function CommandFor(s: bv32): Command {
    Command(Or(And(s, 0x1ff), Shl(And(s, 0x1ff), 12)), Bank(s, 0, 3), Bank(s, 3, 3),
            if And(s, 0x200) != 0 then 3 else 1)
  }

  /** The segments at place j of a bank word. */
  function BankDigit(w: bv32, j: nat): bv7
    requires j < 3
  {
    match j
    case 0 => (w & 0x7f) as bv7
    case 1 => ((w >> 7) & 0x7f) as bv7
    case 2 => ((w >> 14) & 0x7f) as bv7
  }

  function Three(d0: bv7, d1: bv7, d2: bv7): bv32 {
    (d0 as bv32) | ((d1 as bv32) << 7) | ((d2 as bv32) << 14)
  }

  lemma Parts(d0: bv7, d1: bv7, d2: bv7)
    ensures (Three(d0, d1, d2) & 0x7f) as bv7 == d0
    ensures ((Three(d0, d1, d2) >> 7) & 0x7f) as bv7 == d1
    ensures ((Three(d0, d1, d2) >> 14) & 0x7f) as bv7 == d2
    ensures Three(d0, d1, d2) & 0x1fffff == Three(d0, d1, d2)
  {
  }

  lemma BankParts(d0: bv7, d1: bv7, d2: bv7)
    ensures var w := Three(d0, d1, d2);
      BankDigit(w, 0) == d0 && BankDigit(w, 1) == d1 && BankDigit(w, 2) == d2 && And(w, 0x1fffff) == w
  {
    hide Three;
    Parts(d0, d1, d2);
  }

  lemma ThreeOr(d0: bv7, d1: bv7, d2: bv7)
    ensures Or(Or(Or(0, d0 as bv32), (d1 as bv32) << 7), (d2 as bv32) << 14) == Three(d0, d1, d2)
  {
  }

  lemma BankIs(s: bv32, from: nat)
    ensures Bank(s, from, 3) == Three(Digit(s, from), Digit(s, from + 1), Digit(s, from + 2))
  {
    hide Or, Digit, Three;
    assert Bank(s, from, 1) == Or(Bank(s, from, 0), Placed(Digit(s, from), 0));
    assert Bank(s, from, 2) == Or(Bank(s, from, 1), Placed(Digit(s, from + 1), 1));
    ThreeOr(Digit(s, from), Digit(s, from + 1), Digit(s, from + 2));
  }

  /** Each digit of the two bank words is that digit's segments, and the words fit the registers. */
  lemma CommandShowsDigits(s: bv32, i: nat)
    requires i < 6
    ensures var c := CommandFor(s);
      && BankDigit(if i < 3 then c.low else c.high, i % 3) == Digit(s, i)
      && And(c.low, 0x1fffff) == c.low && And(c.high, 0x1fffff) == c.high
  {
    hide Or, Shl, And, BankDigit, Digit, Three, Bank;
    BankIs(s, 0);
    BankIs(s, 3);
    BankParts(Digit(s, 0), Digit(s, 1), Digit(s, 2));
    BankParts(Digit(s, 3), Digit(s, 4), Digit(s, 5));
  }

  // ---------------------------------------------------------------- the state

  /** The command part of soc_health_board_io_t with the driver's copy of the control register, and the
      history of what was done. */
  datatype Board = Board(
    core: Core, generation: U32, value: bv32, ledPending: bool, hexPending: bool, start: U32,
    phase: nat, initialized: bool, command: Command, shadow: bv32, log: seq<Event>)

  /** soc_health_board_io_init */
  function Idle(c: Core): Board {
    Board(c, 0, 0, false, false, 0, 0, false, Command(0, 0, 0, 0), 1, [])
  }

  /** What the registers read as in one turn. */
  datatype Answers = Answers(sw: bv32, led: bv32, resync: bv32, ctrl: bv32, value: bv32, low: bv32, high: bv32)

  // ---------------------------------------------------------------- the steps

  function Told(b: Board, r: Report): (b': Board)
    requires b.core.Shape()
    ensures b'.core.Shape()
  {
    b.(core := Reported(b.core, r), log := b.log + [Made(r, b.core.epoch, Accepts(b.core, r))])
  }

  function Write(b: Board, reg: Register, v: bv32): Board {
    b.(log := b.log + [Wrote(reg, v, b.core.epoch)])
  }

  function Read(b: Board, reg: Register, v: bv32): Board {
    b.(log := b.log + [Saw(reg, v, b.core.epoch)])
  }

  /** A new sample, owed an answer by both consumers. */
  function Captured(b: Board, v: bv32): Board {
    b.(value := v, generation := Inc(b.generation), start := b.core.epoch, ledPending := true, hexPending := true,
       phase := 0, command := CommandFor(v))
  }

  /** sw_service */
  function SwServed(b: Board, a: Answers): (b': Board)
    requires b.core.Shape()
    ensures b'.core.Shape()
  {
    if b.ledPending || b.hexPending then b
    else
      var v := And(a.sw, 0x3ff);
      Told(Captured(Read(b, SwReg, a.sw), v), Report(SW, STEP_PROGRESS, Inc(b.generation), v))
  }

  predicate Late(b: Board) {
    Sub(b.core.epoch, b.start) >= BOARD_BUDGET
  }

  function LedDone(b: Board): Board {
    b.(ledPending := false)
  }

  function HexDone(b: Board): Board {
    b.(hexPending := false)
  }

  function MissedDetail(value: bv32): bv32 {
    Or(0x73000000, value)
  }

  /** What the LEDs report of a read-back. */
  function LedReport(value: bv32, generation: U32, r: bv32): Report {
    if r != value then Report(LED, STEP_FAIL, 0, Or(Or(0x74000000, Shl(r, 10)), value))
    else Report(LED, STEP_PROGRESS, generation, Or(Shl(r, 10), value))
  }

  /** led_service */
  function LedServed(b: Board, a: Answers): (b': Board)
    requires b.core.Shape()
    ensures b'.core.Shape()
  {
    if !b.ledPending then b
    else if Late(b) then LedDone(Told(b, Report(LED, STEP_DEADLINE_MISS, b.generation, MissedDetail(b.value))))
    else
      var c := Read(Write(b, LedReg, And(b.value, 0x3ff)), LedReg, a.led);
      LedDone(Told(c, LedReport(b.value, b.generation, And(a.led, 0x3ff))))
  }

  function WithCtrl(b: Board, shadow: bv32): Board {
    Write(b, CtrlReg, shadow).(shadow := shadow)
  }

  /** The data registers the command uses. */
  function WithData(b: Board): Board {
    if b.command.ctrl == 3 then
      Write(Write(b, LowReg, And(b.command.low, 0x1fffff)), HighReg, And(b.command.high, 0x1fffff))
    else Write(b, ValueReg, And(b.command.value, 0xffffff))
  }

  /** Which of the read-backs differ from the command. */
  function Fault(c: Command, a: Answers): bv32 {
    Or(if And(a.ctrl, 3) != c.ctrl then 1 else 0,
       if c.ctrl == 3 then
         Or(if And(a.low, 0x1fffff) != c.low then 2 else 0, if And(a.high, 0x1fffff) != c.high then 4 else 0)
       else if And(a.value, 0xffffff) != c.value then 8 else 0)
  }

  /** Disabled, enabled, and with the mode bit as commanded. */
  function Disabled(ctrl: bv32): bv32 {
    ctrl & 2
  }

  function Enabled(ctrl: bv32): bv32 {
    (ctrl | 1) & 3
  }

  function Moded(ctrl: bv32, raw: bool): bv32 {
    if raw then (ctrl | 2) & 3 else ctrl & 1
  }

  /** Reading back the registers of the command. */
  function Checked(b: Board, a: Answers): Board {
    var c := Read(b, CtrlReg, a.ctrl);
    if b.command.ctrl == 3 then Read(Read(c, LowReg, a.low), HighReg, a.high) else Read(c, ValueReg, a.value)
  }

  /** What the display reports of them. */
  function HexReport(b: Board, a: Answers): Report {
    var f, c := Fault(b.command, a), And(a.ctrl, 3);
    if f != 0 then Report(HEX, STEP_FAIL, 0, Or(Or(Shl(f, 24), Shl(c, 10)), b.value))
    else Report(HEX, STEP_PROGRESS, b.generation, Or(Shl(c, 10), b.value))
  }

  function Initialised(b: Board): Board {
    if b.initialized then b else WithCtrl(b, 1).(initialized := true)
  }

  /** hex_service */
  function HexServed(b0: Board, a: Answers): (b': Board)
    requires b0.core.Shape()
    ensures b'.core.Shape()
  {
    var b := Initialised(b0);
    if !b.hexPending then b
    else if Late(b) then HexDone(Told(b, Report(HEX, STEP_DEADLINE_MISS, b.generation, MissedDetail(b.value))))
    else HexPhased(b, a)
  }

  /** The next step of the command. */
  function HexPhased(b: Board, a: Answers): (b': Board)
    requires b.core.Shape()
    ensures b'.core.Shape()
  {
    if b.phase == 0 then WithCtrl(Read(b, CtrlReg, a.resync), Disabled(a.resync)).(phase := 1)
    else if b.phase == 1 then WithData(b).(phase := 2)
    else if b.phase == 2 then WithCtrl(b, Moded(b.shadow, b.command.ctrl == 3)).(phase := 3)
    else if b.phase == 3 then WithCtrl(b, Enabled(b.shadow)).(phase := 4)
    else HexDone(HexAnswered(b, a))
  }

  /** The display's answer to its command. */
  function HexAnswered(b: Board, a: Answers): (b': Board)
    requires b.core.Shape()
    ensures b'.core.Shape()
  {
    Told(Checked(b, a), HexReport(b, a))
  }

  datatype Op = DoSw | DoLed | DoHex | Elsewhere(core: Core)

  /** One turn of the board, or anything the rest of the program does to the health core. */
  datatype Turn = Turn(op: Op, answers: Answers)
  {
    predicate Shape() {
      op.Elsewhere? ==> op.core.Shape()
    }
  }

  /** The board's own three records and their tokens. */
  function Rejoined(mine: Core, others: Core): (c: Core)
    requires mine.Shape() && others.Shape()
    ensures c.Shape()
  {
    Merged(mine, Merged(mine, Merged(mine, others, SW), LED), HEX)
  }

  function Applied(b: Board, t: Turn): (b': Board)
    requires b.core.Shape() && t.Shape()
    ensures b'.core.Shape()
  {
    match t.op
    case DoSw => SwServed(b, t.answers)
    case DoLed => LedServed(b, t.answers)
    case DoHex => HexServed(b, t.answers)
    case Elsewhere(c) => b.(core := Rejoined(b.core, c))
  }

  function Run(b: Board, ts: seq<Turn>): (b': Board)
    requires b.core.Shape() && forall k :: 0 <= k < |ts| ==> ts[k].Shape()
    ensures b'.core.Shape()
  {
    if ts == [] then b else Applied(Run(b, ts[..|ts| - 1]), ts[|ts| - 1])
  }

  // ---------------------------------------------------------------- what a lawful history is

  predicate IsDisplay(e: Event) {
    e.Wrote? && (e.reg == CtrlReg || IsData(e))
  }

  predicate IsData(e: Event) {
    e.Wrote? && (e.reg == ValueReg || e.reg == LowReg || e.reg == HighReg)
  }

  /** A display register and what was written to it. */
  datatype Setting = Setting(reg: Register, v: bv32)

  /** What has been written to the display since the last sample was taken. */
  function Since(log: seq<Event>): seq<Setting> {
    if log == [] then []
    else
      var n := |log| - 1;
      var e := log[n];
      if e.Made? && e.report.id == SW then []
      else if IsDisplay(e) then Since(log[..n]) + [Setting(e.reg, e.v)]
      else Since(log[..n])
  }

  /** The last value written to the control register, and 1 before any. */
  function LastCtrl(log: seq<Event>): bv32 {
    if log == [] then 1
    else
      var n := |log| - 1;
      if log[n].Wrote? && log[n].reg == CtrlReg then log[n].v else LastCtrl(log[..n])
  }

  predicate Off(ctrl: bv32) {
    ctrl & 1 == 0
  }

  /** The data of a command, as it goes to the registers. */
  function Data(c: Command): seq<Setting> {
    if c.ctrl == 3 then [Setting(LowReg, c.low), Setting(HighReg, c.high)] else [Setting(ValueReg, c.value)]
  }

  /** The steps of showing a command: off, the data, the mode, on. */
  function Part(c: Command, off: bv32, n: nat): seq<Setting> {
    if n == 0 then [Setting(CtrlReg, off)]
    else if n == 1 then Data(c)
    else if n == 2 then [Setting(CtrlReg, if c.ctrl == 3 then 2 else 0)]
    else [Setting(CtrlReg, c.ctrl)]
  }

  function Script(c: Command, off: bv32, n: nat): seq<Setting> {
    if n == 0 then [] else Script(c, off, n - 1) + Part(c, off, n - 1)
  }

  /** So much has been written since the sample, after the driver's own initialisation if that came first. */
  predicate Steps(s: seq<Setting>, c: Command, off: bv32, n: nat) {
    s == Script(c, off, n) || s == [Setting(CtrlReg, 1)] + Script(c, off, n)
  }

  predicate Ready(log: seq<Event>, c: Command, n: nat) {
    Steps(Since(log), c, 0, n) || Steps(Since(log), c, 2, n)
  }

  predicate ReadBack(c: Command, ctrl: bv32, value: bv32, low: bv32, high: bv32) {
    && And(ctrl, 3) == c.ctrl
    && (c.ctrl == 3 ==> And(low, 0x1fffff) == c.low && And(high, 0x1fffff) == c.high)
    && (c.ctrl != 3 ==> And(value, 0xffffff) == c.value)
  }

  /** The sample that is to be answered for next: the latest, which is the one after all those answered. */
  predicate Owed(log: seq<Event>, id: nat) {
    |Of(log, SW)| == |Of(log, id)| + 1
  }

  function Sample(log: seq<Event>): (e: Event)
    requires Of(log, SW) != []
    ensures e.Made?
  {
    var s := Of(log, SW);
    assert s[|s| - 1] in s;
    s[|s| - 1]
  }

  /** A sample is taken only when all earlier ones are answered for by both, with the next token, of what the
      switches read just before. */
  predicate LawfulSample(log: seq<Event>, e: Event)
    requires e.Made?
  {
    var n := |Of(log, SW)|;
    && |Of(log, LED)| == |Of(log, HEX)| == n && e.report.step == STEP_PROGRESS && e.report.token == Low32(n + 1)
    && log != [] && log[|log| - 1].Saw? && log[|log| - 1].reg == SwReg
    && e.report.detail == And(log[|log| - 1].v, 0x3ff)
  }

  /** An answer, for the sample that is owed one, carries that sample's number and value; it is a miss exactly
      if the budget has run out since. */
  predicate LawfulAnswer(log: seq<Event>, e: Event)
    requires e.Made?
  {
    && Owed(log, e.report.id)
    && (var s := Sample(log);
        && And(e.report.detail, 0x3ff) == s.report.detail
        && (e.report.step == STEP_DEADLINE_MISS <==> Sub(e.at, s.at) >= BOARD_BUDGET)
        && (e.report.step != STEP_FAIL ==> e.report.token == Low32(|Of(log, e.report.id)| + 1)))
  }

  /** Otherwise the sample has just been written to the LEDs and read back: success is that it came back. */
  predicate LawfulLed(log: seq<Event>, e: Event)
    requires e.Made? && Owed(log, LED)
  {
    var n, s := |log|, Sample(log);
    e.report.step != STEP_DEADLINE_MISS ==>
      && n >= 2 && log[n - 2].Wrote? && log[n - 2].reg == LedReg && log[n - 2].v == s.report.detail
      && log[n - 1].Saw? && log[n - 1].reg == LedReg
      && e.report.step == if And(log[n - 1].v, 0x3ff) == s.report.detail then STEP_PROGRESS else STEP_FAIL
  }

  /** Otherwise the display has been shown the command of the sample, from off to on and nothing else since the
      sample, and its registers have just been read back: success is that they are as commanded. */
  predicate LawfulHex(log: seq<Event>, e: Event)
    requires e.Made? && Owed(log, HEX)
  {
    var n, s := |log|, Sample(log);
    var c := CommandFor(s.report.detail);
    e.report.step != STEP_DEADLINE_MISS ==>
      && Ready(log, c, 4)
      && if c.ctrl == 3 then
           && n >= 3 && log[n - 3].Saw? && log[n - 3].reg == CtrlReg && log[n - 2].Saw? && log[n - 2].reg == LowReg
           && log[n - 1].Saw? && log[n - 1].reg == HighReg
           && e.report.step ==
             if ReadBack(c, log[n - 3].v, 0, log[n - 2].v, log[n - 1].v) then STEP_PROGRESS else STEP_FAIL
         else
           && n >= 2 && log[n - 2].Saw? && log[n - 2].reg == CtrlReg && log[n - 1].Saw? && log[n - 1].reg == ValueReg
           && e.report.step == if ReadBack(c, log[n - 2].v, log[n - 1].v, 0, 0) then STEP_PROGRESS else STEP_FAIL
  }

  /** What may follow a history: a report only of what has happened, display data only while the display was
      last told to be off, and to the LEDs only the sample they owe an answer for. */
  predicate Lawful(log: seq<Event>, e: Event) {
    if e.Made? then
      if e.report.id == SW then LawfulSample(log, e)
      else if e.report.id == LED then LawfulAnswer(log, e) && LawfulLed(log, e)
      else if e.report.id == HEX then LawfulAnswer(log, e) && LawfulHex(log, e)
      else false
    else
      && (IsData(e) ==> Off(LastCtrl(log)))
      && (e.Wrote? && e.reg == LedReg ==> Owed(log, LED) && e.v == Sample(log).report.detail)
  }

  ghost predicate Legal(log: seq<Event>) {
    forall k :: 0 <= k < |log| ==> Lawful(log[..k], log[k])
  }

  lemma Next(log: seq<Event>, e: Event)
    ensures Legal(log) && Lawful(log, e) ==> Legal(log + [e])
    ensures LastCtrl(log + [e]) == if e.Wrote? && e.reg == CtrlReg then e.v else LastCtrl(log)
    ensures Since(log + [e]) ==
      if e.Made? && e.report.id == SW then []
      else if IsDisplay(e) then Since(log) + [Setting(e.reg, e.v)]
      else Since(log)
  {
    hide Lawful;
    var l := log + [e];
    assert l[..|log|] == log;
    if Legal(log) && Lawful(log, e) {
      forall k | 0 <= k < |l|
        ensures Lawful(l[..k], l[k])
      {
        assert k < |log| ==> l[..k] == log[..k];
      }
    }
  }

  // ---------------------------------------------------------------- what every turn keeps

  function One(pending: bool): nat {
    if pending then 1 else 0
  }

  /** Every sample but a pending one is answered for. */
  predicate Answered(b: Board) {
    && |Of(b.log, LED)| + One(b.ledPending) == |Of(b.log, SW)| == |Of(b.log, HEX)| + One(b.hexPending)
    && b.generation == Low32(|Of(b.log, SW)|)
  }

  /** The sample, its time and the command are those of the latest one. */
  predicate Current(b: Board) {
    Of(b.log, SW) != [] ==>
      && b.value == Sample(b.log).report.detail == And(b.value, 0x3ff) && b.start == Sample(b.log).at
      && b.command == CommandFor(b.value)
  }

  /** How far the display has been brought. */
  predicate PhasesKept(b: Board) {
    && LastCtrl(b.log) == b.shadow && (b.phase > 0 ==> b.initialized)
    && (b.hexPending && b.phase == 0 ==> if b.initialized then Ready(b.log, b.command, 0) else Since(b.log) == [])
    && (b.hexPending && 1 <= b.phase <= 2 ==>
          (b.shadow == 0 || b.shadow == 2) && Steps(Since(b.log), b.command, b.shadow, b.phase))
    && (b.hexPending && b.phase == 3 ==>
          Ready(b.log, b.command, 3) && b.shadow == if b.command.ctrl == 3 then 2 else 0)
    && (b.hexPending && b.phase >= 4 ==> Ready(b.log, b.command, 4))
  }

  predicate OnBoard(id: nat) {
    id == SW || id == LED || id == HEX
  }

  /** The core's records count the reports, and below 2^31 samples it has taken them all. */
  ghost predicate Recorded(c: Core, log: seq<Event>)
    requires c.Shape()
  {
    && (forall id :: OnBoard(id) ==> Booked(c, log, id))
    && (|Of(log, SW)| < 0x8000_0000 ==>
          && (forall id :: OnBoard(id) ==> Below(c, id, |Of(log, id)|))
          && forall e :: e in log && e.Made? ==> e.taken)
  }

  ghost predicate Lawfully(b: Board) {
    b.core.Shape() && Legal(b.log) && Answered(b) && Current(b) && Recorded(b.core, b.log)
  }

  ghost predicate Kept(b: Board) {
    Lawfully(b) && PhasesKept(b)
  }

  lemma IdleKept(c: Core)
    requires Initial(c)
    ensures Kept(Idle(c))
  {
  }

  lemma RecordedAside(c: Core, log: seq<Event>, e: Event)
    requires c.Shape() && Recorded(c, log) && !e.Made?
    ensures Recorded(c, log + [e])
  {
    hide Of, TakenOf;
    OneMore(log, e, SW);
    OneMore(log, e, LED);
    OneMore(log, e, HEX);
  }

  lemma RecordedTold(c: Core, log: seq<Event>, r: Report, at: U32)
    requires c.Shape() && Recorded(c, log) && Lawful(log, Made(r, at, Accepts(c, r)))
    ensures Recorded(Reported(c, r), log + [Made(r, at, Accepts(c, r))])
  {
    hide Of, TakenOf, Reported, Accepts, Low32, Booked, Below, And, CommandFor, Ready, ReadBack;
    var e := Made(r, at, Accepts(c, r));
    forall id | OnBoard(id)
      ensures Booked(Reported(c, r), log + [e], id)
    {
      BookedMore(c, log, r, at, id);
    }
    OneMore(log, e, SW);
    OneMore(log, e, LED);
    OneMore(log, e, HEX);
    if |Of(log + [e], SW)| < 0x8000_0000 {
      var m := |Of(log, r.id)|;
      assert Low32(m + 1) == m + 1 by { SmallLow(m + 1); }
      NextTaken(c, r, m);
      forall id | OnBoard(id) && id != r.id
        ensures Below(Reported(c, r), id, |Of(log + [e], id)|)
      {
        BelowElsewhere(c, r, id, |Of(log, id)|);
      }
    }
  }

  lemma SmallLow(n: nat)
    requires n < 0x8000_0000
    ensures Low32(n) == n
  {
  }

  /** What neither reports nor touches the display leaves everything but the history as it was. */
  lemma AsideKept(b: Board, e: Event)
    requires Kept(b) && Lawful(b.log, e) && !e.Made? && !IsDisplay(e)
    ensures Kept(b.(log := b.log + [e])) && Since(b.log + [e]) == Since(b.log)
    ensures forall id :: Of(b.log + [e], id) == Of(b.log, id)
  {
    hide Lawful, Steps, CommandFor, Legal, Of, Recorded;
    Next(b.log, e);
    RecordedAside(b.core, b.log, e);
    forall id
      ensures Of(b.log + [e], id) == Of(b.log, id)
    {
      OneMore(b.log, e, id);
    }
  }

  lemma ReadKept(b: Board, reg: Register, v: bv32)
    requires Kept(b)
    ensures Kept(Read(b, reg, v)) && Since(Read(b, reg, v).log) == Since(b.log)
    ensures forall id :: Of(Read(b, reg, v).log, id) == Of(b.log, id)
  {
    hide Kept;
    AsideKept(b, Saw(reg, v, b.core.epoch));
  }

  // ---------------------------------------------------------------- a sample

  lemma SampleKept(b: Board, v: bv32)
    requires Kept(b) && !b.ledPending && !b.hexPending
    requires LawfulSample(b.log, Made(Report(SW, STEP_PROGRESS, Inc(b.generation), v), b.core.epoch, true))
    requires v == And(v, 0x3ff)
    ensures Kept(Told(Captured(b, v), Report(SW, STEP_PROGRESS, Inc(b.generation), v)))
  {
    hide Legal, Reported, Accepts, And, CommandFor, LawfulSample, Steps, Of, Since, LastCtrl, Recorded;
    var r := Report(SW, STEP_PROGRESS, Inc(b.generation), v);
    var e := Made(r, b.core.epoch, Accepts(b.core, r));
    TakenAside(b.log, r, b.core.epoch, true, e.taken);
    Next(b.log, e);
    RecordedTold(b.core, b.log, r, b.core.epoch);
    OneMore(b.log, e, SW);
    OneMore(b.log, e, LED);
    OneMore(b.log, e, HEX);
    IncOfLow(|Of(b.log, SW)|);
    NoSteps(CommandFor(v));
  }

  lemma NoSteps(c: Command)
    ensures Steps([], c, 0, 0) && Steps([Setting(CtrlReg, 1)], c, 0, 0)
  {
  }

  /** Whether a report is taken does not make it lawful. */
  lemma TakenAside(log: seq<Event>, r: Report, at: U32, x: bool, y: bool)
    requires LawfulSample(log, Made(r, at, x))
    ensures LawfulSample(log, Made(r, at, y))
  {
  }

  lemma Masked(x: bv32)
    ensures And(And(x, 0x3ff), 0x3ff) == And(x, 0x3ff)
  {
  }

  lemma SwKept(b: Board, a: Answers)
    requires Kept(b)
    ensures Kept(SwServed(b, a))
  {
    hide Kept, Legal, Told, And, Of, Captured;
    if !b.ledPending && !b.hexPending {
      ReadKept(b, SwReg, a.sw);
      Masked(a.sw);
      KeptAnswered(b);
      IncOfLow(|Of(b.log, SW)|);
      SampleKept(Read(b, SwReg, a.sw), And(a.sw, 0x3ff));
    }
  }

  lemma KeptAnswered(b: Board)
    requires Kept(b)
    ensures b.core.Shape() && Answered(b) && Current(b) && PhasesKept(b)
  {
  }

  // ---------------------------------------------------------------- answers

  lemma PendingCommand(b: Board)
    requires Kept(b) && (b.hexPending || b.ledPending)
    ensures b.command == CommandFor(b.value) && Of(b.log, SW) != []
    ensures b.value == Sample(b.log).report.detail == And(b.value, 0x3ff)
  {
    hide Legal, Recorded, Of, CommandFor, And, PhasesKept;
  }

  /** An answer that is lawful takes one consumer off the sample. */
  lemma AnswerKept(b: Board, r: Report)
    requires Kept(b) && (r.id == LED || r.id == HEX)
    requires if r.id == LED then b.ledPending else b.hexPending
    requires Lawful(b.log, Made(r, b.core.epoch, Accepts(b.core, r)))
    ensures Kept(if r.id == LED then LedDone(Told(b, r)) else HexDone(Told(b, r)))
  {
    hide Legal, Reported, Accepts, Lawful, Steps, Of, Since, LastCtrl, CommandFor, And, Recorded;
    var e := Made(r, b.core.epoch, Accepts(b.core, r));
    Next(b.log, e);
    RecordedTold(b.core, b.log, r, b.core.epoch);
    OneMore(b.log, e, SW);
    OneMore(b.log, e, LED);
    OneMore(b.log, e, HEX);
    assert Sample(b.log + [e]) == Sample(b.log);
  }

  lemma LowOfOr(a: bv32, v: bv32)
    ensures And(a, 0x3ff) == 0 ==> And(Or(a, v), 0x3ff) == And(v, 0x3ff)
  {
  }

  lemma LowOfShift(x: bv32)
    ensures And(Shl(x, 10), 0x3ff) == 0 && And(Shl(x, 24), 0x3ff) == 0
    ensures And(0x73000000, 0x3ff) == 0 && And(0x74000000, 0x3ff) == 0
  {
  }

  /** The details of all reports carry the sample in their low ten bits. */
  lemma DetailBits(v: bv32, x: bv32, f: bv32)
    requires And(v, 0x3ff) == v
    ensures And(MissedDetail(v), 0x3ff) == v
    ensures And(Or(Or(0x74000000, Shl(x, 10)), v), 0x3ff) == v && And(Or(Shl(x, 10), v), 0x3ff) == v
    ensures And(Or(Or(Shl(f, 24), Shl(x, 10)), v), 0x3ff) == v
  {
    hide And, Or, Shl;
    LowOfShift(x);
    LowOfShift(f);
    LowOfOr(0x73000000, v);
    LowOfOr(Shl(x, 10), v);
    LowOfOr(0x74000000, Shl(x, 10));
    LowOfOr(Or(0x74000000, Shl(x, 10)), v);
    LowOfOr(Shl(f, 24), Shl(x, 10));
    LowOfOr(Or(Shl(f, 24), Shl(x, 10)), v);
  }

  lemma MissLawful(b: Board, id: nat, taken: bool)
    requires Kept(b) && Late(b) && ((id == LED && b.ledPending) || (id == HEX && b.hexPending))
    ensures Lawful(b.log, Made(Report(id, STEP_DEADLINE_MISS, b.generation, MissedDetail(b.value)), b.core.epoch,
      taken))
  {
    hide Legal, Recorded, Of, And, MissedDetail, PhasesKept, CommandFor;
    DetailBits(b.value, 0, 0);
  }

  lemma LedReportTells(v: bv32, generation: U32, r: bv32)
    requires v == And(v, 0x3ff)
    ensures var rep := LedReport(v, generation, r);
      && rep.id == LED && And(rep.detail, 0x3ff) == v && (rep.step == STEP_PROGRESS ==> rep.token == generation)
      && rep.step == if r == v then STEP_PROGRESS else STEP_FAIL
  {
    hide And, Or, Shl;
    DetailBits(v, r, 0);
  }

  lemma LedWritten(b: Board, r: bv32)
    requires Kept(b) && b.ledPending
    ensures var c := Read(Write(b, LedReg, And(b.value, 0x3ff)), LedReg, r);
      && Kept(c) && b.core.Shape() && c.core == b.core
      && (forall id :: Of(c.log, id) == Of(b.log, id))
      && |c.log| >= 2 && c.log[|c.log| - 2] == Wrote(LedReg, b.value, b.core.epoch)
      && c.log[|c.log| - 1] == Saw(LedReg, r, b.core.epoch)
  {
    hide Of, And, PhasesKept, CommandFor, Kept;
    KeptAnswered(b);
    PendingCommand(b);
    AsideKept(b, Wrote(LedReg, And(b.value, 0x3ff), b.core.epoch));
    var w := Write(b, LedReg, And(b.value, 0x3ff));
    ReadKept(w, LedReg, r);
  }

  lemma LedLawful(b: Board, r: bv32, taken: bool)
    requires Kept(b) && !Late(b) && b.ledPending
    ensures var c := Read(Write(b, LedReg, And(b.value, 0x3ff)), LedReg, r);
      Lawful(c.log, Made(LedReport(b.value, b.generation, And(r, 0x3ff)), b.core.epoch, taken))
  {
    hide Of, And, PhasesKept, CommandFor, Kept, LedReport, Read, Write;
    KeptAnswered(b);
    PendingCommand(b);
    LedWritten(b, r);
    LedReportTells(b.value, b.generation, And(r, 0x3ff));
    var c := Read(Write(b, LedReg, And(b.value, 0x3ff)), LedReg, r);
    assert Sample(c.log) == Sample(b.log);
  }

  lemma LedKept(b: Board, a: Answers)
    requires Kept(b)
    ensures Kept(LedServed(b, a))
  {
    hide Kept, Accepts, Reported, Late, And, LedReport, Lawful, MissedDetail, Legal, Recorded, Of;
    KeptAnswered(b);
    if b.ledPending {
      if Late(b) {
        var r := Report(LED, STEP_DEADLINE_MISS, b.generation, MissedDetail(b.value));
        MissLawful(b, LED, Accepts(b.core, r));
        AnswerKept(b, r);
      } else {
        var c := Read(Write(b, LedReg, And(b.value, 0x3ff)), LedReg, a.led);
        var r := LedReport(b.value, b.generation, And(a.led, 0x3ff));
        LedWritten(b, a.led);
        LedLawful(b, a.led, Accepts(c.core, r));
        LedReportTells(b.value, b.generation, And(a.led, 0x3ff));
        AnswerKept(c, r);
      }
    }
  }

  // ---------------------------------------------------------------- the display

  lemma DisplayWritten(b: Board, reg: Register, v: bv32)
    requires Lawfully(b) && IsDisplay(Wrote(reg, v, 0)) && (reg != CtrlReg ==> Off(LastCtrl(b.log)))
    ensures var w := Write(b, reg, v);
      && Lawfully(w) && Since(w.log) == Since(b.log) + [Setting(reg, v)]
      && LastCtrl(w.log) == if reg == CtrlReg then v else LastCtrl(b.log)
  {
    hide Legal, Recorded, Of, Since, LastCtrl, CommandFor, Off, And;
    var e := Wrote(reg, v, b.core.epoch);
    Next(b.log, e);
    RecordedAside(b.core, b.log, e);
    OneMore(b.log, e, SW);
    OneMore(b.log, e, LED);
    OneMore(b.log, e, HEX);
  }

  lemma CtrlBits(x: bv32)
    ensures (Disabled(x) == 0 || Disabled(x) == 2) && Off(0) && Off(2) && Enabled(2) == 3 && Enabled(0) == 1
    ensures Moded(0, true) == Moded(2, true) == 2 && Moded(0, false) == Moded(2, false) == 0
  {
  }

  lemma CommandFits(s: bv32)
    ensures var c := CommandFor(s);
      && And(c.low, 0x1fffff) == c.low && And(c.high, 0x1fffff) == c.high && And(c.value, 0xffffff) == c.value
      && (c.ctrl == 1 || c.ctrl == 3)
  {
    hide And, Or, Shl, Bank;
    CommandShowsDigits(s, 0);
    ValueFits(s);
  }

  lemma ValueFits(s: bv32)
    ensures And(Or(And(s, 0x1ff), Shl(And(s, 0x1ff), 12)), 0xffffff) == Or(And(s, 0x1ff), Shl(And(s, 0x1ff), 12))
  {
  }

  lemma StepTaken(s: seq<Setting>, c: Command, off: bv32, n: nat)
    requires Steps(s, c, off, n)
    ensures Steps(s + Part(c, off, n), c, off, n + 1)
  {
    ScriptGrows(c, off, n);
    hide Part, Script;
    var init := [Setting(CtrlReg, 1)];
    if s != Script(c, off, n) {
      assert s + Part(c, off, n) == init + (Script(c, off, n) + Part(c, off, n));
    }
  }

  lemma ScriptGrows(c: Command, off: bv32, n: nat)
    ensures Script(c, off, n + 1) == Script(c, off, n) + Part(c, off, n)
  {
  }

  lemma FirstStep(s: seq<Setting>, c: Command, off: bv32)
    requires Steps(s, c, 0, 0) || Steps(s, c, 2, 0)
    ensures Steps(s + [Setting(CtrlReg, off)], c, off, 1)
  {
    assert Steps(s, c, off, 0);
    StepTaken(s, c, off, 0);
  }

  lemma Advanced(b: Board, shadow: bv32, phase: nat, initialized: bool)
    requires Lawfully(b)
    ensures Lawfully(b.(shadow := shadow, phase := phase, initialized := initialized))
  {
    hide Legal, Recorded, Of, CommandFor, And;
  }

  lemma InitialisedKept(b: Board)
    requires Kept(b)
    ensures Kept(Initialised(b)) && Initialised(b).initialized
    ensures b.hexPending && b.phase > 0 ==> Initialised(b) == b
  {
    hide Legal, Recorded, Of, Since, LastCtrl, CommandFor, Off, And, Lawfully, Steps;
    DisplayWritten(b, CtrlReg, 1);
    Advanced(Write(b, CtrlReg, 1), 1, b.phase, true);
    NoSteps(b.command);
    assert [] + [Setting(CtrlReg, 1)] == [Setting(CtrlReg, 1)];
  }

  lemma SwitchedOff(b: Board, resync: bv32)
    requires Kept(b) && b.initialized && b.hexPending && b.phase == 0
    ensures Kept(WithCtrl(Read(b, CtrlReg, resync), Disabled(resync)).(phase := 1))
  {
    hide Legal, Recorded, Of, Since, LastCtrl, CommandFor, Off, And, Lawfully, Steps, Disabled;
    var c, off := Read(b, CtrlReg, resync), Disabled(resync);
    ReadKept(b, CtrlReg, resync);
    DisplayWritten(c, CtrlReg, off);
    Advanced(Write(c, CtrlReg, off), off, 1, true);
    FirstStep(Since(b.log), b.command, off);
    CtrlBits(resync);
    assert WithCtrl(c, off).(phase := 1) == Write(c, CtrlReg, off).(shadow := off, phase := 1, initialized := true);
  }

  lemma DataWritten(b: Board)
    requires Kept(b) && b.initialized && b.hexPending && b.phase == 1
    ensures Kept(WithData(b).(phase := 2))
  {
    hide Legal, Recorded, Of, Since, LastCtrl, CommandFor, Off, And, Lawfully, Steps;
    PendingCommand(b);
    CommandFits(b.value);
    CtrlBits(0);
    if b.command.ctrl == 3 {
      DisplayWritten(b, LowReg, b.command.low);
      DisplayWritten(Write(b, LowReg, b.command.low), HighReg, b.command.high);
    } else {
      DisplayWritten(b, ValueReg, b.command.value);
    }
    Advanced(WithData(b), b.shadow, 2, true);
    StepTaken(Since(b.log), b.command, b.shadow, 1);
    var low, high := Setting(LowReg, b.command.low), Setting(HighReg, b.command.high);
    assert Since(b.log) + [low] + [high] == Since(b.log) + [low, high];
  }

  lemma ModeSet(b: Board)
    requires Kept(b) && b.initialized && b.hexPending && b.phase == 2
    ensures Kept(WithCtrl(b, Moded(b.shadow, b.command.ctrl == 3)).(phase := 3))
  {
    hide Legal, Recorded, Of, Since, LastCtrl, CommandFor, Off, And, Lawfully, Steps, Moded;
    var mode := Moded(b.shadow, b.command.ctrl == 3);
    DisplayWritten(b, CtrlReg, mode);
    Advanced(Write(b, CtrlReg, mode), mode, 3, true);
    StepTaken(Since(b.log), b.command, b.shadow, 2);
    CtrlBits(0);
  }

  lemma SwitchedOn(b: Board)
    requires Kept(b) && b.initialized && b.hexPending && b.phase == 3
    ensures Kept(WithCtrl(b, Enabled(b.shadow)).(phase := 4))
  {
    hide Legal, Recorded, Of, Since, LastCtrl, CommandFor, Off, And, Lawfully, Steps, Enabled;
    DisplayWritten(b, CtrlReg, Enabled(b.shadow));
    Advanced(Write(b, CtrlReg, Enabled(b.shadow)), Enabled(b.shadow), 4, true);
    CtrlBits(0);
    PendingCommand(b);
    CommandFits(b.value);
    var since := Since(b.log);
    if Steps(since, b.command, 0, 3) {
      StepTaken(since, b.command, 0, 3);
    } else {
      StepTaken(since, b.command, 2, 3);
    }
  }

  lemma FaultTells(c: Command, a: Answers)
    ensures Fault(c, a) == 0 <==> ReadBack(c, a.ctrl, a.value, a.low, a.high)
  {
  }

  lemma CheckedKept(b: Board, a: Answers)
    requires Kept(b)
    ensures var c := Checked(b, a);
      && Kept(c) && c == b.(log := c.log) && Since(c.log) == Since(b.log) && forall id :: Of(c.log, id) == Of(b.log, id)
  {
    hide Kept, Of, Since, CommandFor;
    var c := Read(b, CtrlReg, a.ctrl);
    ReadKept(b, CtrlReg, a.ctrl);
    ReadKept(c, LowReg, a.low);
    ReadKept(Read(c, LowReg, a.low), HighReg, a.high);
    ReadKept(c, ValueReg, a.value);
  }

  lemma HexReportTells(b: Board, a: Answers)
    requires b.value == And(b.value, 0x3ff)
    ensures var r := HexReport(b, a);
      && r.id == HEX && And(r.detail, 0x3ff) == b.value && (r.step == STEP_PROGRESS ==> r.token == b.generation)
      && r.step == if ReadBack(b.command, a.ctrl, a.value, a.low, a.high) then STEP_PROGRESS else STEP_FAIL
  {
    hide And, Or, Shl, Fault, ReadBack;
    FaultTells(b.command, a);
    DetailBits(b.value, And(a.ctrl, 3), Fault(b.command, a));
  }

  lemma ReadsTell(b: Board, a: Answers)
    ensures var l, n := Checked(b, a).log, |Checked(b, a).log|;
      if b.command.ctrl == 3 then
        n >= 3 && l[n - 3] == Saw(CtrlReg, a.ctrl, b.core.epoch) && l[n - 2] == Saw(LowReg, a.low, b.core.epoch)
        && l[n - 1] == Saw(HighReg, a.high, b.core.epoch)
      else n >= 2 && l[n - 2] == Saw(CtrlReg, a.ctrl, b.core.epoch) && l[n - 1] == Saw(ValueReg, a.value, b.core.epoch)
  {
  }

  lemma HexLawful(b: Board, a: Answers, taken: bool)
    requires Kept(b) && !Late(b) && b.hexPending && b.phase >= 4
    ensures Lawful(Checked(b, a).log, Made(HexReport(b, a), b.core.epoch, taken))
  {
    hide Legal, Recorded, Of, And, CommandFor, Kept, HexReport, Since, Checked, Steps;
    CheckedKept(b, a);
    KeptAnswered(b);
    PendingCommand(b);
    HexReportTells(b, a);
    ReadsTell(b, a);
    var log := Checked(b, a).log;
    assert Sample(log) == Sample(b.log);
  }

  lemma HexKept(b: Board, a: Answers)
    requires Kept(b)
    ensures Kept(HexServed(b, a))
  {
    hide Kept, Accepts, Reported, Late, HexAnswered, Lawful, MissedDetail, WithCtrl, WithData, Initialised;
    InitialisedKept(b);
    var c := Initialised(b);
    KeptAnswered(c);
    if c.hexPending {
      if Late(c) {
        var r := Report(HEX, STEP_DEADLINE_MISS, c.generation, MissedDetail(c.value));
        MissLawful(c, HEX, Accepts(c.core, r));
        AnswerKept(c, r);
      } else if c.phase < 4 {
        PhaseKept(c, a);
      } else {
        AnsweredKept(c, a);
      }
    }
  }

  lemma AnsweredKept(b: Board, a: Answers)
    requires Kept(b) && b.initialized && b.hexPending && b.phase >= 4
    requires !Late(b)
    ensures b.core.Shape() && Kept(HexDone(HexAnswered(b, a)))
  {
    hide Kept, Accepts, Reported, Late, HexReport, Lawful, Checked;
    KeptAnswered(b);
    CheckedKept(b, a);
    HexLawful(b, a, Accepts(b.core, HexReport(b, a)));
    PendingCommand(b);
    HexReportTells(b, a);
    AnswerKept(Checked(b, a), HexReport(b, a));
  }

  lemma PhaseKept(b: Board, a: Answers)
    requires Kept(b) && b.initialized && b.hexPending && b.phase < 4
    ensures b.core.Shape() && Kept(HexPhased(b, a))
  {
    hide Kept, Disabled, Enabled, Moded, WithCtrl, WithData;
    KeptAnswered(b);
    if b.phase == 0 {
      SwitchedOff(b, a.resync);
    } else if b.phase == 1 {
      DataWritten(b);
    } else if b.phase == 2 {
      ModeSet(b);
    } else {
      SwitchedOn(b);
    }
  }

  // ---------------------------------------------------------------- whole runs

  lemma ElsewhereKept(b: Board, c: Core)
    requires Kept(b) && c.Shape()
    ensures Kept(b.(core := Rejoined(b.core, c)))
  {
    hide Legal, Of, TakenOf, CommandFor, Since, Steps, LastCtrl;
    RejoinedRecorded(b.core, c, b.log);
  }

  lemma RejoinedRecorded(mine: Core, others: Core, log: seq<Event>)
    requires mine.Shape() && others.Shape() && Recorded(mine, log)
    ensures Recorded(Rejoined(mine, others), log)
  {
    hide Of, TakenOf;
    var c := Rejoined(mine, others);
    assert forall id: nat :: OnBoard(id) ==>
      c.ip[id] == mine.ip[id] && c.progress[id] == mine.progress[id] && c.missed[id] == mine.missed[id];
  }

  lemma AppliedKept(b: Board, t: Turn)
    requires Kept(b) && t.Shape()
    ensures b.core.Shape() && Kept(Applied(b, t))
  {
    hide Kept, SwServed, LedServed, HexServed;
    KeptAnswered(b);
    match t.op {
      case DoSw => SwKept(b, t.answers);
      case DoLed => LedKept(b, t.answers);
      case DoHex => HexKept(b, t.answers);
      case Elsewhere(c) => ElsewhereKept(b, c);
    }
  }

  lemma {:induction false} RunKept(b: Board, ts: seq<Turn>)
    requires Kept(b) && b.core.Shape() && forall k :: 0 <= k < |ts| ==> ts[k].Shape()
    ensures Kept(Run(b, ts))
  {
    hide Kept, Applied;
    if ts != [] {
      var n := |ts| - 1;
      RunKept(b, ts[..n]);
      AppliedKept(Run(b, ts[..n]), ts[n]);
    }
  }

  // ---------------------------------------------------------------- the promises

  /** What holds of the history and the records at every moment. */
  ghost predicate Promised(c: Core, log: seq<Event>, ledPending: bool, hexPending: bool)
    requires c.Shape()
  {
    && Legal(log)
    && |Of(log, LED)| + One(ledPending) == |Of(log, SW)| == |Of(log, HEX)| + One(hexPending)
    && (forall id: nat :: OnBoard(id) ==>
          && c.ip[id].heartbeats == Low32(TakenOf(log, id, STEP_PROGRESS))
          && c.ip[id].misses == Low32(TakenOf(log, id, STEP_DEADLINE_MISS)))
    && (|Of(log, SW)| < 0x8000_0000 ==> forall e :: e in log && e.Made? ==> e.taken)
  }

  lemma KeptPromised(b: Board)
    requires Kept(b)
    ensures b.core.Shape() && Promised(b.core, b.log, b.ledPending, b.hexPending)
  {
    hide Current, Legal, Of, TakenOf, PhasesKept;
  }

  /** In every interleaving of board turns with the rest of the program, whatever the registers read: every
      access and every report is lawful, so that LED and HEX make exactly one report for each sample in turn,
      a success only of what was written and read back and a miss only once the budget has run out; none is owed
      but for a pending consumer; and the heartbeats and misses of the three records count these reports. */
  lemma EveryRun(c: Core, ts: seq<Turn>)
    requires Initial(c) && forall k :: 0 <= k < |ts| ==> ts[k].Shape()
    ensures var b := Run(Idle(c), ts); Promised(b.core, b.log, b.ledPending, b.hexPending)
  {
    hide Run, Kept, Promised;
    IdleKept(c);
    RunKept(Idle(c), ts);
    KeptPromised(Run(Idle(c), ts));
  }

  /** A sample is taken exactly when none is pending, and then both consumers owe an answer for it. */
  lemma SampledWhenAnswered(b: Board, a: Answers)
    requires Kept(b)
    ensures b.core.Shape()
    ensures var b', n := SwServed(b, a), |Of(b.log, SW)|;
      if b.ledPending || b.hexPending then b' == b
      else
        && |Of(b'.log, SW)| == n + 1 && Sample(b'.log).report.detail == And(a.sw, 0x3ff)
        && b'.ledPending && b'.hexPending && b'.phase == 0
  {
    hide Kept, Reported, Accepts, CommandFor, Of, And;
    KeptAnswered(b);
    var c := Read(b, SwReg, a.sw);
    var r := Report(SW, STEP_PROGRESS, Inc(b.generation), And(a.sw, 0x3ff));
    OneMore(b.log, Saw(SwReg, a.sw, b.core.epoch), SW);
    OneMore(c.log, Made(r, b.core.epoch, Accepts(b.core, r)), SW);
  }

  predicate SameSample(b: Board, b': Board) {
    b'.value == b.value && b'.command == b.command && b'.generation == b.generation && b'.start == b.start
  }

  /** The history goes on, with reports for this id only. */
  predicate Only(b: Board, b': Board, id: nat) {
    b.log <= b'.log && forall k :: |b.log| <= k < |b'.log| && b'.log[k].Made? ==> b'.log[k].report.id == id
  }

  lemma {:induction false} OthersSame(log: seq<Event>, more: seq<Event>, id: nat)
    requires log <= more && forall k :: |log| <= k < |more| && more[k].Made? ==> more[k].report.id != id
    ensures Of(more, id) == Of(log, id)
    decreases |more|
  {
    if |more| > |log| {
      var n := |more| - 1;
      OthersSame(log, more[..n], id);
      assert more == more[..n] + [more[n]];
      OneMore(more[..n], more[n], id);
    } else {
      assert more == log;
    }
  }

  lemma LedReportIs(value: bv32, generation: U32, r: bv32)
    ensures LedReport(value, generation, r).id == LED
  {
  }

  lemma HexReportIs(b: Board, a: Answers)
    ensures HexReport(b, a).id == HEX
  {
  }

  /** What one turn of the display does to the sample, to who is pending, and to the reports of the others. */
  lemma HexTurn(b: Board, a: Answers)
    requires b.core.Shape()
    ensures var b' := HexServed(b, a);
      && SameSample(b, b') && b'.ledPending == b.ledPending && Only(b, b', HEX)
      && (b'.hexPending <==> b.hexPending && !Late(b) && b.phase < 4)
      && (b'.hexPending ==> b'.phase == b.phase + 1)
  {
    hide Reported, Accepts, MissedDetail, HexReport, HexPhased;
    PhasedTurn(Initialised(b), a);
  }

  predicate Follows(b: Board, b': Board, id: nat) {
    && SameSample(b, b') && Only(b, b', id)
    && b'.ledPending == b.ledPending && b'.hexPending == b.hexPending && b'.phase == b.phase
  }

  lemma AccessFollows(b: Board, reg: Register, v: bv32, id: nat)
    ensures Follows(b, Write(b, reg, v), id) && Follows(b, Read(b, reg, v), id)
    ensures Write(b, reg, v).core == Read(b, reg, v).core == b.core
    ensures Write(b, reg, v).command == Read(b, reg, v).command == b.command
  {
  }

  lemma FollowsOn(b: Board, c: Board, d: Board, id: nat)
    requires Follows(b, c, id) && Follows(c, d, id)
    ensures Follows(b, d, id)
  {
  }

  lemma DataFollows(b: Board)
    ensures Follows(b, WithData(b), HEX)
  {
    hide Follows, Write, And;
    var low, high := And(b.command.low, 0x1fffff), And(b.command.high, 0x1fffff);
    AccessFollows(b, LowReg, low, HEX);
    AccessFollows(Write(b, LowReg, low), HighReg, high, HEX);
    FollowsOn(b, Write(b, LowReg, low), Write(Write(b, LowReg, low), HighReg, high), HEX);
    AccessFollows(b, ValueReg, And(b.command.value, 0xffffff), HEX);
  }

  lemma CheckFollows(b: Board, a: Answers)
    ensures Follows(b, Checked(b, a), HEX) && Checked(b, a).core == b.core
  {
    hide Follows, Read, And;
    var c := Read(b, CtrlReg, a.ctrl);
    var d := Read(c, LowReg, a.low);
    AccessFollows(b, CtrlReg, a.ctrl, HEX);
    AccessFollows(c, LowReg, a.low, HEX);
    AccessFollows(d, HighReg, a.high, HEX);
    AccessFollows(c, ValueReg, a.value, HEX);
    FollowsOn(b, c, d, HEX);
    FollowsOn(b, d, Read(d, HighReg, a.high), HEX);
    FollowsOn(b, c, Read(c, ValueReg, a.value), HEX);
  }

  lemma ToldFollows(b: Board, r: Report)
    requires b.core.Shape()
    ensures Follows(b, Told(b, r), r.id)
  {
    hide Reported, Accepts;
  }

  /** And one of the LEDs. */
  lemma LedTurn(b: Board, a: Answers)
    requires b.core.Shape()
    ensures var b' := LedServed(b, a);
      SameSample(b, b') && !b'.ledPending && b'.hexPending == b.hexPending && b'.phase == b.phase && Only(b, b', LED)
  {
    hide Told, Write, Read, And, MissedDetail, LedReport, Late, Follows;
    var v := And(b.value, 0x3ff);
    var c, d := Write(b, LedReg, v), Read(Write(b, LedReg, v), LedReg, a.led);
    var r := LedReport(b.value, b.generation, And(a.led, 0x3ff));
    var q := Report(LED, STEP_DEADLINE_MISS, b.generation, MissedDetail(b.value));
    AccessFollows(b, LedReg, v, LED);
    AccessFollows(c, LedReg, a.led, LED);
    FollowsOn(b, c, d, LED);
    LedReportIs(b.value, b.generation, And(a.led, 0x3ff));
    ToldFollows(d, r);
    FollowsOn(b, d, Told(d, r), LED);
    ToldFollows(b, q);
    FollowsMeans(b, Told(d, r), LED);
    FollowsMeans(b, Told(b, q), LED);
  }

  lemma FollowsMeans(b: Board, b': Board, id: nat)
    requires Follows(b, b', id)
    ensures SameSample(b, b') && Only(b, b', id)
    ensures b'.ledPending == b.ledPending && b'.hexPending == b.hexPending && b'.phase == b.phase
  {
  }

  lemma PhasedTurn(b: Board, a: Answers)
    requires b.core.Shape()
    ensures var b' := HexPhased(b, a);
      && SameSample(b, b') && b'.ledPending == b.ledPending && Only(b, b', HEX)
      && (b'.hexPending <==> b.hexPending && b.phase < 4) && (b'.hexPending ==> b'.phase == b.phase + 1)
  {
    hide HexAnswered, Disabled, Enabled, Moded, WithData;
    if b.phase == 1 {
      DataFollows(b);
    } else if b.phase >= 4 {
      AnsweredTurn(b, a);
    }
  }

  lemma AnsweredTurn(b: Board, a: Answers)
    requires b.core.Shape()
    ensures var b' := HexAnswered(b, a);
      SameSample(b, b') && b'.ledPending == b.ledPending && Only(b, b', HEX)
  {
    hide Told, HexReport, Checked;
    var c, r := Checked(b, a), HexReport(b, a);
    CheckFollows(b, a);
    HexReportIs(b, a);
    ToldFollows(c, r);
    FollowsOn(b, c, Told(c, r), HEX);
  }

  /** While a consumer still owes its answer, no turn changes the sample, its time, its generation or its command. */
  lemma HeldWhilePending(b: Board, t: Turn)
    requires b.core.Shape() && t.Shape() && (b.ledPending || b.hexPending || t.op != DoSw)
    ensures SameSample(b, Applied(b, t))
  {
    hide LedServed, HexServed;
    LedTurn(b, t.answers);
    HexTurn(b, t.answers);
  }

  /** How many of the turns are the display's. */
  function HexTurns(ts: seq<Turn>): nat {
    if ts == [] then 0 else HexTurns(ts[..|ts| - 1]) + if ts[|ts| - 1].op == DoHex then 1 else 0
  }

  /** Whoever is pending, the sample stays and the reports of the switches with it. */
  lemma AppliedHolds(b: Board, t: Turn)
    requires b.core.Shape() && t.Shape() && (b.ledPending || b.hexPending)
    ensures Of(Applied(b, t).log, SW) == Of(b.log, SW)
  {
    hide Of, LedServed, HexServed;
    LedTurn(b, t.answers);
    HexTurn(b, t.answers);
    if t.op == DoLed {
      OthersSame(b.log, LedServed(b, t.answers).log, SW);
    } else if t.op == DoHex {
      OthersSame(b.log, HexServed(b, t.answers).log, SW);
    }
  }

  lemma {:induction false} ReportsGrow(log: seq<Event>, more: seq<Event>, id: nat)
    requires log <= more
    ensures |Of(log, id)| <= |Of(more, id)|
    decreases |more|
  {
    if |more| > |log| {
      var n := |more| - 1;
      ReportsGrow(log, more[..n], id);
      assert more == more[..n] + [more[n]];
      OneMore(more[..n], more[n], id);
    } else {
      assert more == log;
    }
  }

  lemma LogGrows(b: Board, t: Turn)
    requires b.core.Shape() && t.Shape()
    ensures b.log <= Applied(b, t).log
  {
    hide LedServed, HexServed, Reported, Accepts, And, CommandFor;
    LedTurn(b, t.answers);
    HexTurn(b, t.answers);
  }

  lemma HexProgress(b: Board, t: Turn)
    requires Kept(b) && t.Shape()
    ensures b.core.Shape()
    ensures var b' := Applied(b, t);
      && |Of(b'.log, HEX)| >= |Of(b.log, HEX)|
      && (b.hexPending ==>
            && Of(b'.log, SW) == Of(b.log, SW)
            && (b'.hexPending <==> t.op != DoHex || (!Late(b) && b.phase < 4))
            && (!b'.hexPending ==> |Of(b'.log, HEX)| > |Of(b.log, HEX)|)
            && (b'.hexPending ==> b'.phase == b.phase + if t.op == DoHex then 1 else 0))
  {
    hide Legal, Recorded, Of, PhasesKept, Current, SwServed, LedServed, HexServed, Late;
    AppliedKept(b, t);
    LogGrows(b, t);
    var b' := Applied(b, t);
    ReportsGrow(b.log, b'.log, HEX);
    if b.hexPending {
      AppliedHolds(b, t);
      LedTurn(b, t.answers);
      HexTurn(b, t.answers);
      assert t.op == DoSw ==> b' == b by { NoSample(b, t.answers); }
    }
  }

  lemma NoSample(b: Board, a: Answers)
    requires b.core.Shape() && (b.ledPending || b.hexPending)
    ensures SwServed(b, a) == b
  {
    hide Told;
  }

  /** Five turns of the display after a sample, whatever else goes on, its answer for it has been made. */
  lemma {:induction false} AnswersCome(b: Board, ts: seq<Turn>)
    requires Kept(b) && b.core.Shape() && b.hexPending && b.phase == 0 && forall k :: 0 <= k < |ts| ==> ts[k].Shape()
    ensures var b' := Run(b, ts);
      || |Of(b'.log, HEX)| > |Of(b.log, HEX)|
      || (b'.hexPending && Of(b'.log, SW) == Of(b.log, SW) && b'.phase == HexTurns(ts) < 5)
  {
    hide Kept, Of, Applied, Current, PhasesKept;
    if ts != [] {
      var n := |ts| - 1;
      AnswersCome(b, ts[..n]);
      RunKept(b, ts[..n]);
      var c := Run(b, ts[..n]);
      KeptAnswered(b);
      KeptAnswered(c);
      HexProgress(c, ts[n]);
    }
  }
}
