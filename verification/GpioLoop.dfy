/** The physical loopback of the general-purpose pins: four levels are driven, and each must come back
    after it has had time to settle. */
module GpioLoop {
  import opened Words
  import opened Health
  import opened BoardLog

  const SETTLE: nat := 3

  /** stimulus */
  function Stimulus(i: nat): bv32 {
    if i == 1 || i == 2 then 1 else 0
  }

  /** The pin part of soc_health_board_io_t, and the history of what was done. */
  datatype Gpio = Gpio(
    core: Core, phase: nat, index: nat, expected: bv32, written: bv32, start: U32,
    attempt: U32, generation: U32, deadline: Deadline, log: seq<Event>)

  /** What the registers read as in one turn: the direction before the pins are released, the output latch,
      the direction before the driving pin is claimed, the direction and the latch as they then are, and the
      pins. */
  datatype Pins = Pins(released: bv32, latch: bv32, claimed: bv32, dir: bv32, latchAgain: bv32, pins: bv32)

  /** soc_health_board_io_init */
  function Idle(c: Core): Gpio {
    Gpio(c, 0, 0, 0, 0, 0, 0, 0, Deadline(0, 0, 0, false), [])
  }

  function OtherBits(latch: bv32): bv32 {
    latch & 0xfffe
  }

  function SenseBit(pins: bv32): bv32 {
    (pins >> 1) & 1
  }

  /** The direction with both pins as inputs. */
  function Inputs(dir: bv32): bv32 {
    dir & 0xfffc
  }

  function LowHalf(w: bv32): bv32 {
    w & 0xffff
  }

  /** The driving pin is an output and the sensing pin an input. */
  predicate Directed(dir: bv32) {
    dir & 3 == 1
  }

  // ---------------------------------------------------------------- the step

  function Told(g: Gpio, r: Report): (g': Gpio)
    requires g.core.Shape()
    ensures g'.core.Shape()
  {
    g.(core := Reported(g.core, r), log := g.log + [Made(r, g.core.epoch, Accepts(g.core, r))])
  }

  function Write(g: Gpio, reg: Register, v: bv32): Gpio {
    g.(log := g.log + [Wrote(reg, v, g.core.epoch)])
  }

  function Read(g: Gpio, reg: Register, v: bv32): Gpio {
    g.(log := g.log + [Saw(reg, v, g.core.epoch)])
  }

  function Failure(detail: bv32): Report {
    Report(GPIO, STEP_FAIL, 0, detail)
  }

  function LateDetail(index: nat, expected: bv32): bv32 {
    Or(Or(0x71000000, Bits(Low32(index)) << 8), expected)
  }

  /** Reading back the direction and, if that is right, the latch. */
  function Inspected(g: Gpio, p: Pins): Gpio {
    var h := Read(g, DirReg, p.dir);
    if Directed(p.dir) then Read(h, OutReg, p.latchAgain) else h
  }

  /** They are as they were left. */
  predicate Owned(written: bv32, p: Pins) {
    Directed(p.dir) && LowHalf(p.latchAgain) == written
  }

  /** Reading a register and writing it anew. */
  function Changed(g: Gpio, reg: Register, was: bv32, v: bv32): Gpio {
    Write(Read(g, reg, was), reg, v)
  }

  /** The pins are released, level 0 is latched, and the driving pin is claimed. */
  function Claimed(g: Gpio, p: Pins): Gpio {
    var h := Changed(g, DirReg, p.released, Inputs(p.released));
    var l := Changed(h, OutReg, p.latch, OtherBits(p.latch)).(written := OtherBits(p.latch));
    Changed(l, DirReg, p.claimed, LowHalf(Or(p.claimed, 1)))
  }

  function Begun(g: Gpio, p: Pins): (g': Gpio)
    requires g.core.Shape()
    ensures g'.core.Shape()
  {
    var h := Inspected(Claimed(g, p), p);
    if !Owned(h.written, p) then Told(h, Failure(0x72000000))
    else
      h.(index := 0, expected := 0, start := h.core.epoch, attempt := Inc(h.attempt), phase := 2,
         deadline := DeadlineBegun(h.deadline, h.core.epoch, BOARD_BUDGET, Inc(h.attempt)))
  }

  function Driven(g: Gpio, p: Pins): Gpio {
    var w := Or(OtherBits(p.latch), Stimulus(g.index));
    Changed(g, OutReg, p.latch, w)
    .(expected := Stimulus(g.index), written := w, start := g.core.epoch, phase := 2)
  }

  function Checked(g: Gpio, p: Pins): (g': Gpio)
    requires g.core.Shape()
    ensures g'.core.Shape()
  {
    if Sub(g.core.epoch, g.start) < SETTLE then g
    else
      var h := Inspected(g, p);
      if !Owned(g.written, p) then Told(h, Failure(0x72000000)).(phase := 0)
      else if SenseBit(p.pins) != g.expected then Read(h, InReg, p.pins)
      else Matched(Read(h, InReg, p.pins))
  }

  /** After a level has come back. */
  function Matched(g: Gpio): (g': Gpio)
    requires g.core.Shape()
    ensures g'.core.Shape()
  {
    if g.index + 1 != 4 then g.(index := g.index + 1, phase := 1)
    else
      Told(g, Report(GPIO, STEP_PROGRESS, Inc(g.generation), 0x103))
      .(index := 4, generation := Inc(g.generation), deadline := g.deadline.(armed := false), phase := 0)
  }

  function PhaseServed(g: Gpio, p: Pins): (g': Gpio)
    requires g.core.Shape()
    ensures g'.core.Shape()
  {
    if g.phase == 0 then Begun(g, p) else if g.phase == 1 then Driven(g, p) else Checked(g, p)
  }

  function MissReport(g: Gpio): Report {
    Report(GPIO, STEP_DEADLINE_MISS, g.deadline.token, Bits(g.deadline.budget))
  }

  /** soc_health_deadline_poll: a due deadline is disarmed and reported. */
  function Polled(g: Gpio): (r: (Gpio, bool))
    requires g.core.Shape()
    ensures r.0.core.Shape()
  {
    if !DeadlineDue(g.core.epoch, g.deadline) then (g, false)
    else (Told(g, MissReport(g)).(deadline := g.deadline.(armed := false)), Accepts(g.core, MissReport(g)))
  }

  /** gpio_service */
  function Served(g: Gpio, p: Pins): (g': Gpio)
    requires g.core.Shape()
    ensures g'.core.Shape()
  {
    if g.phase == 0 then PhaseServed(g, p)
    else
      var q := Polled(g);
      if q.1 then Told(q.0, Failure(LateDetail(g.index, g.expected))).(phase := 0) else PhaseServed(q.0, p)
  }

  /** A turn of the pins, or anything the rest of the program does to the health core. */
  datatype Turn = Turn(pins: Pins) | Elsewhere(core: Core)
  {
    predicate Shape() {
      Elsewhere? ==> core.Shape()
    }
  }

  function Applied(g: Gpio, t: Turn): (g': Gpio)
    requires g.core.Shape() && t.Shape()
    ensures g'.core.Shape()
  {
    match t
    case Turn(p) => Served(g, p)
    case Elsewhere(c) => g.(core := Merged(g.core, c, GPIO))
  }

  function Run(g: Gpio, ts: seq<Turn>): (g': Gpio)
    requires g.core.Shape() && forall k :: 0 <= k < |ts| ==> ts[k].Shape()
    ensures g'.core.Shape()
  {
    if ts == [] then g else Applied(Run(g, ts[..|ts| - 1]), ts[|ts| - 1])
  }

  // ---------------------------------------------------------------- what a lawful history is

  predicate IsDrive(e: Event) {
    e.Wrote? && e.reg == OutReg
  }

  /** The places in a history where a level was driven and where it was sensed. */
  datatype Round = Round(drive: nat, sense: nat)

  /** From a place on, nothing has been driven. */
  predicate Undriven(log: seq<Event>, from: nat, to: nat) {
    to <= |log| && forall j :: from <= j < to ==> !IsDrive(log[j])
  }

  predicate Drives(log: seq<Event>, d: nat, level: bv32) {
    d < |log| && IsDrive(log[d]) && And(log[d].v, 1) == level
  }

  /** The level was driven; at least three epochs later, with nothing driven in between and the direction and the
      latch read back as they were left, the pin read as that level. */
  predicate CameBack(log: seq<Event>, r: Round, level: bv32) {
    && Drives(log, r.drive, level) && r.drive + 2 < r.sense < |log| && Undriven(log, r.drive + 1, r.sense)
    && log[r.sense - 2].Saw? && log[r.sense - 2].reg == DirReg && Directed(log[r.sense - 2].v)
    && log[r.sense - 1].Saw? && log[r.sense - 1].reg == OutReg && LowHalf(log[r.sense - 1].v) == log[r.drive].v
    && log[r.sense].Saw? && log[r.sense].reg == InReg && SenseBit(log[r.sense].v) == level
    && Sub(log[r.sense].at, log[r.drive].at) >= SETTLE
  }

  /** The first levels of the stimulus came back one after the other. */
  predicate InTurn(log: seq<Event>, rs: seq<Round>) {
    && (forall i :: 0 <= i < |rs| ==> CameBack(log, rs[i], Stimulus(i)))
    && (forall i :: 0 < i < |rs| ==> rs[i - 1].sense < rs[i].drive)
  }

  /** All four, and the last just now. */
  ghost predicate Vouched(log: seq<Event>) {
    exists rs: seq<Round> :: |rs| == 4 && InTurn(log, rs) && rs[3].sense == |log| - 1
  }

  /** The number of completed loops reported. */
  function Beats(log: seq<Event>): nat {
    if log == [] then 0
    else
      var n := |log| - 1;
      Beats(log[..n]) + if log[n].Made? && log[n].report.step == STEP_PROGRESS then 1 else 0
  }

  /** The epoch of the last write to the direction register, which begins an attempt. */
  function BeganAt(log: seq<Event>): U32 {
    if log == [] then 0
    else
      var n := |log| - 1;
      if log[n].Wrote? && log[n].reg == DirReg then log[n].at else BeganAt(log[..n])
  }

  /** The last value driven. */
  function LastDrive(log: seq<Event>): bv32 {
    if log == [] then 0
    else
      var n := |log| - 1;
      if IsDrive(log[n]) then log[n].v else LastDrive(log[..n])
  }

  /** A new value differs from the one just read in no bit but those of the two pins: the direction in bits 0 and
      1, the latch in bit 0. */
  predicate OwnPinsOnly(reg: Register, was: bv32, v: bv32) {
    if reg == DirReg then And(v, 0xfffc) == And(was, 0xfffc) else And(v, 0xfffe) == And(was, 0xfffe)
  }

  /** A register is written right after it was read, and only as far as it is the pins' own. A report of the pins:
      a success only of four levels that came back, with the next token; a miss only when
      the budget has run out since the attempt began; a failure only after a miss or of what was just read back. */
  ghost predicate Lawful(log: seq<Event>, e: Event) {
    && (e.Wrote? ==>
          && log != [] && log[|log| - 1].Saw? && log[|log| - 1].reg == e.reg
          && (e.reg == DirReg || e.reg == OutReg) && OwnPinsOnly(e.reg, log[|log| - 1].v, e.v))
    && (e.Made? ==>
      && e.report.id == GPIO
      && if e.report.step == STEP_PROGRESS then
           Vouched(log) && e.report.token == Low32(Beats(log) + 1) && e.taken
         else if e.report.step == STEP_DEADLINE_MISS then Sub(e.at, BeganAt(log)) >= BOARD_BUDGET
         else
           && e.report.step == STEP_FAIL && log != []
           && var l := log[|log| - 1];
              || (l.Made? && l.report.step == STEP_DEADLINE_MISS && l.taken)
              || (l.Saw? && l.reg == DirReg && !Directed(l.v))
              || (l.Saw? && l.reg == OutReg && LowHalf(l.v) != LastDrive(log)))
  }

  ghost predicate Legal(log: seq<Event>) {
    forall k :: 0 <= k < |log| ==> Lawful(log[..k], log[k])
  }

  lemma Next(log: seq<Event>, e: Event)
    ensures Legal(log) && Lawful(log, e) ==> Legal(log + [e])
    ensures Beats(log + [e]) == Beats(log) + if e.Made? && e.report.step == STEP_PROGRESS then 1 else 0
    ensures BeganAt(log + [e]) == if e.Wrote? && e.reg == DirReg then e.at else BeganAt(log)
    ensures LastDrive(log + [e]) == if IsDrive(e) then e.v else LastDrive(log)
  {
    hide Lawful;
    var l := log + [e];
    assert l[..|log|] == log;
    if Legal(log) && Lawful(log, e) {
      forall k | 0 <= k < |l|
        ensures Lawful(l[..k], l[k])
      {
        assert k < |log| ==> l[..k] == log[..k];
      }
    }
  }

  /** What has come back stays so. */
  lemma StaysBack(log: seq<Event>, e: Event, rs: seq<Round>)
    requires InTurn(log, rs)
    ensures InTurn(log + [e], rs)
  {
    hide Directed, LowHalf, SenseBit, And, Stimulus, Sub;
    forall i | 0 <= i < |rs|
      ensures CameBack(log + [e], rs[i], Stimulus(i))
    {
      assert CameBack(log, rs[i], Stimulus(i));
    }
  }

  // ---------------------------------------------------------------- what every turn keeps

  /** So many levels have come back, all before place `to`. */
  ghost predicate Back(log: seq<Event>, n: nat, to: nat) {
    exists rs: seq<Round> :: |rs| == n && InTurn(log, rs) && (n > 0 ==> rs[n - 1].sense < to)
  }

  /** The next level has been driven at place d, and nothing since. */
  ghost predicate Driving(g: Gpio, d: nat) {
    && Drives(g.log, d, Stimulus(g.index)) && g.log[d].v == g.written && g.log[d].at == g.start
    && Undriven(g.log, d + 1, |g.log|) && Back(g.log, g.index, d)
  }

  ghost predicate Recorded(c: Core, log: seq<Event>)
    requires c.Shape()
  {
    && c.ip[GPIO].heartbeats == Low32(Beats(log))
    && c.progress[GPIO] == (if Beats(log) == 0 then Stream(0, false) else Stream(Low32(Beats(log)), true))
    && c.ip[GPIO].misses == Low32(TakenOf(log, GPIO, STEP_DEADLINE_MISS))
  }

  ghost predicate Lawfully(g: Gpio) {
    && g.core.Shape() && Legal(g.log) && Recorded(g.core, g.log)
    && g.generation == Low32(Beats(g.log)) && g.index <= 4
  }

  ghost predicate PhasesKept(g: Gpio) {
    && (g.phase > 0 ==> g.index < 4)
    && (g.phase > 0 && g.deadline.armed ==>
          g.deadline.start == BeganAt(g.log) && g.deadline.budget == BOARD_BUDGET)
    && (g.phase == 1 ==> Back(g.log, g.index, |g.log|))
    && (g.phase > 1 ==> g.expected == Stimulus(g.index) && exists d: nat :: Driving(g, d))
  }

  ghost predicate Kept(g: Gpio) {
    Lawfully(g) && PhasesKept(g)
  }

  lemma IdleKept(c: Core)
    requires Initial(c)
    ensures Kept(Idle(c))
  {
  }

  // ---------------------------------------------------------------- one event

  lemma Access(g: Gpio, e: Event)
    requires Lawfully(g) && !e.Made? && Lawful(g.log, e)
    ensures Lawfully(g.(log := g.log + [e]))
    ensures BeganAt(g.log + [e]) == if e.Wrote? && e.reg == DirReg then e.at else BeganAt(g.log)
    ensures LastDrive(g.log + [e]) == if IsDrive(e) then e.v else LastDrive(g.log)
  {
    hide Legal, TakenOf, Beats, BeganAt, LastDrive;
    Next(g.log, e);
    OneMore(g.log, e, GPIO);
  }

  lemma BackStays(log: seq<Event>, e: Event, n: nat, to: nat)
    requires Back(log, n, to)
    ensures Back(log + [e], n, to)
  {
    hide InTurn;
    var rs: seq<Round> :| |rs| == n && InTurn(log, rs) && (n > 0 ==> rs[n - 1].sense < to);
    StaysBack(log, e, rs);
  }

  lemma DrivingStays(g: Gpio, e: Event, d: nat)
    requires Driving(g, d) && !IsDrive(e)
    ensures Driving(g.(log := g.log + [e]), d)
  {
    hide Back, And, Stimulus;
    BackStays(g.log, e, g.index, d);
  }

  lemma NotProgress(c: Core, log: seq<Event>, r: Report, at: U32)
    requires c.Shape() && Recorded(c, log) && r.id == GPIO && (r.step == STEP_FAIL || r.step == STEP_DEADLINE_MISS)
    ensures Recorded(Reported(c, r), log + [Made(r, at, Accepts(c, r))])
  {
    hide TakenOf, Beats;
    var e := Made(r, at, Accepts(c, r));
    Next(log, e);
    OneMore(log, e, GPIO);
    IncOfLow(TakenOf(log, GPIO, STEP_DEADLINE_MISS));
  }

  lemma ToldLawfully(g: Gpio, r: Report)
    requires Lawfully(g) && r.id == GPIO && (r.step == STEP_FAIL || r.step == STEP_DEADLINE_MISS)
    requires Lawful(g.log, Made(r, g.core.epoch, Accepts(g.core, r)))
    ensures Lawfully(Told(g, r)) && BeganAt(Told(g, r).log) == BeganAt(g.log)
  {
    hide Legal, TakenOf, Beats, BeganAt, LastDrive, Reported, Accepts, Recorded, Lawful;
    Next(g.log, Made(r, g.core.epoch, Accepts(g.core, r)));
    NotProgress(g.core, g.log, r, g.core.epoch);
  }

  /** The next token is always taken, whatever the number of loops. */
  lemma ProgressTaken(c: Core, log: seq<Event>, r: Report, at: U32)
    requires c.Shape() && Recorded(c, log) && r.id == GPIO && r.step == STEP_PROGRESS
      && r.token == Low32(Beats(log) + 1)
    ensures Accepts(c, r) && Recorded(Reported(c, r), log + [Made(r, at, true)])
  {
    hide TakenOf, Beats;
    var e := Made(r, at, true);
    Next(log, e);
    OneMore(log, e, GPIO);
    IncOfLow(Beats(log));
  }

  lemma Moved(g: Gpio, h: Gpio)
    requires Lawfully(g) && h.core == g.core && h.log == g.log && h.generation == g.generation && h.index <= 4
    ensures Lawfully(h)
  {
  }

  // ---------------------------------------------------------------- an attempt begins

  lemma OtherBitsOff(x: bv32, l: bv32)
    requires l == 0 || l == 1
    ensures And(OtherBits(x), 1) == 0 && And(Or(OtherBits(x), l), 1) == l
  {
  }

  /** What is written keeps the bits of the other pins. */
  lemma MaskedTwice(x: bv32)
    ensures And(OtherBits(x), 0xfffe) == And(x, 0xfffe)
  {
  }

  lemma MaskedWithBit(x: bv32, l: bv32)
    requires l & 0xfffffffe == 0
    ensures And(Or(OtherBits(x), l), 0xfffe) == And(x, 0xfffe)
  {
  }

  lemma LevelIsBit(l: bv32)
    requires l == 0 || l == 1
    ensures l & 0xfffffffe == 0
  {
  }

  lemma OwnLatch(x: bv32, l: bv32)
    requires l == 0 || l == 1
    ensures OwnPinsOnly(OutReg, x, OtherBits(x)) && OwnPinsOnly(OutReg, x, Or(OtherBits(x), l))
  {
    hide And, Or, OtherBits;
    LevelIsBit(l);
    MaskedTwice(x);
    MaskedWithBit(x, l);
  }

  lemma OwnDirection(x: bv32)
    ensures And(Inputs(x), 0xfffc) == And(x, 0xfffc) == And(LowHalf(Or(x, 1)), 0xfffc)
  {
  }

  lemma SawLawful(log: seq<Event>, reg: Register, v: bv32, at: U32)
    ensures Lawful(log, Saw(reg, v, at))
  {
  }

  lemma ChangedKept(g: Gpio, reg: Register, was: bv32, v: bv32)
    requires Lawfully(g) && (reg == DirReg || reg == OutReg) && OwnPinsOnly(reg, was, v)
    ensures var h, n := Changed(g, reg, was, v), |g.log|;
      && Lawfully(h) && h == g.(log := h.log)
      && h.log == g.log + [Saw(reg, was, g.core.epoch), Wrote(reg, v, g.core.epoch)]
      && BeganAt(h.log) == (if reg == DirReg then g.core.epoch else BeganAt(g.log))
      && LastDrive(h.log) == if reg == OutReg then v else LastDrive(g.log)
  {
    hide Lawfully, BeganAt, LastDrive, OwnPinsOnly, Vouched, Beats;
    Access(g, Saw(reg, was, g.core.epoch));
    Access(Read(g, reg, was), Wrote(reg, v, g.core.epoch));
  }

  lemma LatchedKept(g: Gpio, p: Pins)
    requires Lawfully(g)
    ensures var h, d := Changed(g, OutReg, p.latch, OtherBits(p.latch)).(written := OtherBits(p.latch)), |g.log| + 1;
      && Lawfully(h) && h == g.(log := h.log, written := OtherBits(p.latch))
      && LastDrive(h.log) == h.written && |h.log| == |g.log| + 2
      && Drives(h.log, d, 0) && h.log[d] == Wrote(OutReg, h.written, g.core.epoch) && Undriven(h.log, d + 1, |h.log|)
  {
    hide Lawfully, BeganAt, LastDrive, OtherBits, LowHalf, Or, And, Changed, Drives, Undriven, Inputs;
    var k := Changed(g, OutReg, p.latch, OtherBits(p.latch));
    OwnLatch(p.latch, 0);
    ChangedKept(g, OutReg, p.latch, OtherBits(p.latch));
    LawfullyIndex(k);
    Moved(k, k.(written := OtherBits(p.latch)));
    OtherBitsOff(p.latch, 0);
    JustDriven(g.log, OtherBits(p.latch), g.core.epoch, 0, Saw(OutReg, p.latch, g.core.epoch));
  }

  lemma ClaimedKept(g: Gpio, p: Pins)
    requires Lawfully(g)
    ensures var h, d := Claimed(g, p), |g.log| + 3;
      && Lawfully(h) && h == g.(log := h.log, written := OtherBits(p.latch))
      && BeganAt(h.log) == g.core.epoch && LastDrive(h.log) == h.written
      && Drives(h.log, d, 0) && h.log[d].v == h.written && h.log[d].at == g.core.epoch
      && Undriven(h.log, d + 1, |h.log|)
  {
    hide Lawfully, BeganAt, LastDrive, OtherBits, LowHalf, Or, And, Changed, Drives, Undriven, Inputs;
    var h := Changed(g, DirReg, p.released, Inputs(p.released));
    var l := Changed(h, OutReg, p.latch, OtherBits(p.latch)).(written := OtherBits(p.latch));
    var m := Changed(l, DirReg, p.claimed, LowHalf(Or(p.claimed, 1)));
    OwnDirection(p.released);
    OwnDirection(p.claimed);
    ChangedKept(g, DirReg, p.released, Inputs(p.released));
    LatchedKept(h, p);
    ChangedKept(l, DirReg, p.claimed, LowHalf(Or(p.claimed, 1)));
    NotDriven(l.log, m.log);
    StillDriven(l.log, m.log, |h.log| + 1, 0);
  }

  lemma JustDriven(log: seq<Event>, v: bv32, at: U32, level: bv32, read: Event)
    requires And(v, 1) == level
    ensures var l, d := log + [read, Wrote(OutReg, v, at)], |log| + 1;
      Drives(l, d, level) && l[d] == Wrote(OutReg, v, at) && Undriven(l, d + 1, |l|)
  {
  }

  lemma NotDriven(log: seq<Event>, more: seq<Event>)
    requires |more| == |log| + 2 && log <= more && !IsDrive(more[|log|]) && !IsDrive(more[|log| + 1])
    ensures Undriven(more, |log|, |more|)
  {
  }

  lemma StillDriven(log: seq<Event>, more: seq<Event>, d: nat, level: bv32)
    requires Drives(log, d, level) && Undriven(log, d + 1, |log|) && log <= more && Undriven(more, |log|, |more|)
    ensures Drives(more, d, level) && more[d] == log[d] && Undriven(more, d + 1, |more|)
  {
    hide And;
  }

  lemma LawfullyIndex(g: Gpio)
    requires Lawfully(g)
    ensures g.index <= 4 && g.core.Shape()
  {
  }

  /** The latch and the direction are read back. */
  lemma InspectedKept(g: Gpio, p: Pins)
    requires Lawfully(g)
    ensures var h, n := Inspected(g, p), |g.log|;
      && Lawfully(h) && h == g.(log := h.log) && g.log <= h.log
      && BeganAt(h.log) == BeganAt(g.log) && LastDrive(h.log) == LastDrive(g.log)
      && (forall k :: n <= k < |h.log| ==> h.log[k].Saw?)
      && (if Directed(p.dir) then
            h.log == g.log + [Saw(DirReg, p.dir, g.core.epoch), Saw(OutReg, p.latchAgain, g.core.epoch)]
          else h.log == g.log + [Saw(DirReg, p.dir, g.core.epoch)])
  {
    hide Lawfully, BeganAt, LastDrive, Directed;
    var h := Read(g, DirReg, p.dir);
    Access(g, Saw(DirReg, p.dir, g.core.epoch));
    Access(h, Saw(OutReg, p.latchAgain, g.core.epoch));
  }

  /** What is not as it was left may be reported. */
  lemma DisownedLawful(g: Gpio, p: Pins, written: bv32, taken: bool)
    requires Lawfully(g) && LastDrive(g.log) == written && !Owned(written, p)
    ensures var h := Inspected(g, p);
      && Lawfully(h) && h.core == g.core && Lawful(h.log, Made(Failure(0x72000000), h.core.epoch, taken))
  {
    hide Lawfully, BeganAt, LastDrive, Directed, LowHalf, Vouched, Beats;
    InspectedKept(g, p);
  }

  lemma BegunKept(g: Gpio, p: Pins)
    requires Kept(g) && g.phase == 0
    ensures g.core.Shape() && Kept(Begun(g, p))
  {
    hide Legal, Recorded, Beats, BeganAt, LastDrive, Claimed, Inspected, Owned, Lawful, Reported, Accepts, Undriven,
      Drives;
    var c := Claimed(g, p);
    var h := Inspected(c, p);
    ClaimedKept(g, p);
    InspectedKept(c, p);
    if !Owned(h.written, p) {
      DisownedLawful(c, p, c.written, Accepts(h.core, Failure(0x72000000)));
      ToldLawfully(h, Failure(0x72000000));
    } else {
      var d := |g.log| + 3;
      SawOnly(c.log, h.log);
      StillDriven(c.log, h.log, d, 0);
      NoneBack(h.log, d);
      assert Driving(Begun(g, p), d);
    }
  }

  lemma SawOnly(log: seq<Event>, more: seq<Event>)
    requires log <= more && forall k :: |log| <= k < |more| ==> more[k].Saw?
    ensures Undriven(more, |log|, |more|)
  {
  }

  lemma NoneBack(log: seq<Event>, to: nat)
    ensures Back(log, 0, to)
  {
    assert InTurn(log, []);
  }

  // ---------------------------------------------------------------- a level is driven, and comes back

  lemma BackLater(log: seq<Event>, n: nat, to: nat, later: nat)
    requires Back(log, n, to) && to <= later
    ensures Back(log, n, later)
  {
    hide InTurn;
    var rs: seq<Round> :| |rs| == n && InTurn(log, rs) && (n > 0 ==> rs[n - 1].sense < to);
    assert |rs| == n && InTurn(log, rs) && (n > 0 ==> rs[n - 1].sense < later);
  }

  lemma DrivenKept(g: Gpio, p: Pins)
    requires Kept(g) && g.phase == 1
    ensures Kept(Driven(g, p))
  {
    hide Legal, Recorded, Beats, BeganAt, LastDrive, Changed, OtherBits, Or, And, Undriven, Drives, Back, Lawfully;
    var w := Or(OtherBits(p.latch), Stimulus(g.index));
    var h, d := Changed(g, OutReg, p.latch, w), |g.log| + 1;
    var e0, e1 := Saw(OutReg, p.latch, g.core.epoch), Wrote(OutReg, w, g.core.epoch);
    OwnLatch(p.latch, Stimulus(g.index));
    ChangedKept(g, OutReg, p.latch, w);
    OtherBitsOff(p.latch, Stimulus(g.index));
    JustDriven(g.log, w, g.core.epoch, Stimulus(g.index), e0);
    BackStays(g.log, e0, g.index, |g.log|);
    BackStays(g.log + [e0], e1, g.index, |g.log|);
    assert g.log + [e0] + [e1] == g.log + [e0, e1];
    BackLater(h.log, g.index, |g.log|, d);
    LawfullyIndex(h);
    Moved(h, Driven(g, p));
    assert Driving(Driven(g, p), d);
  }

  /** While nothing is driven, the last value driven is the one at d. */
  lemma {:induction false} LastDriveIs(log: seq<Event>, d: nat)
    requires d < |log| && IsDrive(log[d]) && Undriven(log, d + 1, |log|)
    ensures LastDrive(log) == log[d].v
    decreases |log|
  {
    var n := |log| - 1;
    if d < n {
      LastDriveIs(log[..n], d);
    }
  }

  /** The three readings that show a level coming back. */
  lemma CameBackNow(log: seq<Event>, d: nat, level: bv32, dir: bv32, latch: bv32, pins: bv32, at: U32)
    requires Drives(log, d, level) && Undriven(log, d + 1, |log|) && Sub(at, log[d].at) >= SETTLE
    requires Directed(dir) && LowHalf(latch) == log[d].v && SenseBit(pins) == level
    ensures CameBack(log + [Saw(DirReg, dir, at), Saw(OutReg, latch, at), Saw(InReg, pins, at)],
                     Round(d, |log| + 2), level)
  {
    hide And, Directed, LowHalf, SenseBit, Sub;
  }

  lemma BackOnceMore(log: seq<Event>, rs: seq<Round>, r: Round)
    requires InTurn(log, rs) && CameBack(log, r, Stimulus(|rs|)) && (rs != [] ==> rs[|rs| - 1].sense < r.drive)
    ensures InTurn(log, rs + [r])
  {
    hide CameBack, Stimulus;
  }

  lemma SensedBack(g: Gpio, p: Pins, d: nat)
    requires Driving(g, d) && Owned(g.written, p) && Sub(g.core.epoch, g.start) >= SETTLE
    requires SenseBit(p.pins) == Stimulus(g.index)
    ensures var log := Read(Inspected(g, p), InReg, p.pins).log;
      exists rs: seq<Round> :: |rs| == g.index + 1 && InTurn(log, rs) && rs[g.index].sense == |log| - 1
  {
    hide And, Directed, LowHalf, SenseBit, Sub, CameBack, Drives, Undriven, InTurn, Stimulus;
    var e0, e1 := Saw(DirReg, p.dir, g.core.epoch), Saw(OutReg, p.latchAgain, g.core.epoch);
    var e2 := Saw(InReg, p.pins, g.core.epoch);
    var rs: seq<Round> :| |rs| == g.index && InTurn(g.log, rs) && (g.index > 0 ==> rs[g.index - 1].sense < d);
    StaysBack(g.log, e0, rs);
    StaysBack(g.log + [e0], e1, rs);
    StaysBack(g.log + [e0] + [e1], e2, rs);
    var log := g.log + [e0, e1, e2];
    assert g.log + [e0] + [e1] + [e2] == log == Read(Inspected(g, p), InReg, p.pins).log;
    var r := Round(d, |g.log| + 2);
    CameBackNow(g.log, d, Stimulus(g.index), p.dir, p.latchAgain, p.pins, g.core.epoch);
    BackOnceMore(log, rs, r);
    assert |rs + [r]| == g.index + 1 && InTurn(log, rs + [r]) && (rs + [r])[g.index].sense == |log| - 1;
  }

  /** Reading changes nothing but the history. */
  lemma ReadsKept(g: Gpio, p: Pins)
    requires Kept(g) && g.phase > 1
    ensures var h := Inspected(g, p); Lawfully(Read(h, InReg, p.pins)) && Kept(Read(h, InReg, p.pins))
  {
    hide Legal, Recorded, Beats, BeganAt, LastDrive, Inspected, Drives, Undriven, Back, Lawfully, Stimulus, Directed;
    var h := Inspected(g, p);
    InspectedKept(g, p);
    Access(h, Saw(InReg, p.pins, g.core.epoch));
    var d: nat :| Driving(g, d);
    var e0, e1 := Saw(DirReg, p.dir, g.core.epoch), Saw(OutReg, p.latchAgain, g.core.epoch);
    DrivingStays(g, e0, d);
    DrivingStays(g.(log := g.log + [e0]), e1, d);
    assert g.log + [e0] + [e1] == g.log + [e0, e1];
    DrivingStays(h, Saw(InReg, p.pins, g.core.epoch), d);
    assert Driving(Read(h, InReg, p.pins), d);
  }

  lemma ToldProgress(g: Gpio)
    requires Lawfully(g) && Vouched(g.log)
    ensures var r := Report(GPIO, STEP_PROGRESS, Inc(g.generation), 0x103);
      Lawfully(Told(g, r).(index := 4, generation := Inc(g.generation)))
  {
    hide Legal, TakenOf, Beats, BeganAt, LastDrive, Reported, Accepts, Recorded, Vouched;
    var r := Report(GPIO, STEP_PROGRESS, Inc(g.generation), 0x103);
    IncOfLow(Beats(g.log));
    ProgressTaken(g.core, g.log, r, g.core.epoch);
    Next(g.log, Made(r, g.core.epoch, true));
  }

  lemma MatchedKept(g: Gpio)
    requires Lawfully(g) && g.index < 4
    requires g.deadline.armed ==> g.deadline.start == BeganAt(g.log) && g.deadline.budget == BOARD_BUDGET
    requires exists rs: seq<Round> ::
      |rs| == g.index + 1 && InTurn(g.log, rs) && rs[g.index].sense == |g.log| - 1
    ensures g.core.Shape() && Kept(Matched(g))
  {
    hide Legal, Recorded, Beats, BeganAt, LastDrive, Lawfully, Reported, Accepts, InTurn, Inc;
    LawfullyIndex(g);
    var rs: seq<Round> :| |rs| == g.index + 1 && InTurn(g.log, rs) && rs[g.index].sense == |g.log| - 1;
    if g.index + 1 == 4 {
      assert Vouched(g.log);
      ToldProgress(g);
      var r := Report(GPIO, STEP_PROGRESS, Inc(g.generation), 0x103);
      Moved(Told(g, r).(index := 4, generation := Inc(g.generation)), Matched(g));
    } else {
      Moved(g, Matched(g));
      assert Back(g.log, g.index + 1, |g.log|);
    }
  }

  lemma CheckedKept(g: Gpio, p: Pins)
    requires Kept(g) && g.phase > 1
    ensures g.core.Shape() && Kept(Checked(g, p))
  {
    hide Legal, Recorded, Beats, BeganAt, LastDrive, Inspected, Lawfully, Reported, Accepts, Owned, SenseBit, Stimulus;
    hide Matched, Lawful, Undriven, Drives, Back;
    LawfullyIndex(g);
    var h := Inspected(g, p);
    InspectedKept(g, p);
    var d: nat :| Driving(g, d);
    if Sub(g.core.epoch, g.start) >= SETTLE {
      if !Owned(g.written, p) {
        DrivingMeans(g, d);
        DisownedLawful(g, p, g.written, Accepts(h.core, Failure(0x72000000)));
        ToldLawfully(h, Failure(0x72000000));
        LawfullyIndex(Told(h, Failure(0x72000000)));
        Moved(Told(h, Failure(0x72000000)), Checked(g, p));
      } else {
        ReadsKept(g, p);
        if SenseBit(p.pins) == g.expected {
          SensedBack(g, p, d);
          SawLawful(h.log, InReg, p.pins, g.core.epoch);
          Access(h, Saw(InReg, p.pins, g.core.epoch));
          MatchedKept(Read(h, InReg, p.pins));
        }
      }
    }
  }

  lemma DrivingMeans(g: Gpio, d: nat)
    requires Driving(g, d)
    ensures LastDrive(g.log) == g.written
  {
    hide LastDrive, And, Back;
    LastDriveIs(g.log, d);
  }

  // ---------------------------------------------------------------- whole turns

  lemma PhaseKept(g: Gpio, p: Pins)
    requires Kept(g)
    ensures g.core.Shape() && Kept(PhaseServed(g, p))
  {
    hide Begun, Driven, Checked, Lawfully, PhasesKept;
    KeptShape(g);
    if g.phase == 0 {
      BegunKept(g, p);
    } else if g.phase == 1 {
      DrivenKept(g, p);
    } else {
      CheckedKept(g, p);
    }
  }

  lemma KeptShape(g: Gpio)
    requires Kept(g)
    ensures g.core.Shape() && Lawfully(g) && PhasesKept(g)
  {
    hide PhasesKept;
  }

  /** A report changes nothing that the phases rest on. */
  lemma ToldPhases(g: Gpio, r: Report)
    requires g.core.Shape() && PhasesKept(g) && BeganAt(Told(g, r).log) == BeganAt(g.log)
    ensures PhasesKept(Told(g, r))
  {
    hide BeganAt, Reported, Accepts, Back, Drives, Undriven, Stimulus;
    var e := Made(r, g.core.epoch, Accepts(g.core, r));
    if g.phase == 1 {
      BackStays(g.log, e, g.index, |g.log|);
      BackLater(g.log + [e], g.index, |g.log|, |g.log| + 1);
    } else if g.phase > 1 {
      var d: nat :| Driving(g, d);
      DrivingStays(g, e, d);
      assert Driving(Told(g, r), d);
    }
  }

  lemma PolledKept(g: Gpio)
    requires Kept(g) && g.phase > 0
    ensures g.core.Shape() && Kept(Polled(g).0) && Polled(g).0.phase == g.phase
    ensures Polled(g).1 ==>
      forall at, taken :: Lawful(Polled(g).0.log, Made(Failure(LateDetail(g.index, g.expected)), at, taken))
  {
    hide Legal, Recorded, Beats, BeganAt, LastDrive, Lawfully, Reported, Accepts, LateDetail, Vouched, Driving,
      Stimulus, Back;
    LawfullyIndex(g);
    if DeadlineDue(g.core.epoch, g.deadline) {
      var r := MissReport(g);
      var h := Told(g, r);
      ToldLawfully(g, r);
      ToldPhases(g, r);
      LawfullyIndex(h);
      var q := h.(deadline := g.deadline.(armed := false));
      Moved(h, q);
      DisarmedPhases(h);
    }
  }

  lemma DisarmedPhases(g: Gpio)
    requires PhasesKept(g)
    ensures PhasesKept(g.(deadline := g.deadline.(armed := false)))
  {
    hide BeganAt, Back, Drives, Undriven, Stimulus;
    if g.phase > 1 {
      var d: nat :| Driving(g, d);
      assert Driving(g.(deadline := g.deadline.(armed := false)), d);
    }
  }

  lemma LateKept(g: Gpio, r: Report)
    requires Kept(g) && r.id == GPIO && r.step == STEP_FAIL
    requires forall at, taken :: Lawful(g.log, Made(r, at, taken))
    ensures g.core.Shape() && Kept(Told(g, r).(phase := 0))
  {
    hide Lawfully, BeganAt, Reported, Accepts, Lawful, Back, Driving;
    KeptShape(g);
    ToldLawfully(g, r);
    LawfullyIndex(Told(g, r));
    Moved(Told(g, r), Told(g, r).(phase := 0));
  }

  lemma ServedKept(g: Gpio, p: Pins)
    requires Kept(g)
    ensures g.core.Shape() && Kept(Served(g, p))
  {
    hide Lawfully, PhasesKept, PhaseServed, Polled, Reported, Accepts, LateDetail, Lawful;
    KeptShape(g);
    PhaseKept(g, p);
    if g.phase > 0 {
      var q := Polled(g);
      PolledKept(g);
      KeptShape(q.0);
      PhaseKept(q.0, p);
      if q.1 {
        LateKept(q.0, Failure(LateDetail(g.index, g.expected)));
      }
    }
  }

  lemma ElsewhereKept(g: Gpio, c: Core)
    requires Kept(g) && c.Shape()
    ensures g.core.Shape() && Kept(g.(core := Merged(g.core, c, GPIO)))
  {
    hide Legal, Beats, BeganAt, TakenOf, Back, Drives, Undriven, Stimulus;
    if g.phase > 1 {
      var d: nat :| Driving(g, d);
      assert Driving(g.(core := Merged(g.core, c, GPIO)), d);
    }
  }

  lemma {:induction false} RunKept(g: Gpio, ts: seq<Turn>)
    requires Kept(g) && g.core.Shape() && forall k :: 0 <= k < |ts| ==> ts[k].Shape()
    ensures Kept(Run(g, ts))
  {
    hide Served, Kept;
    if ts != [] {
      var n := |ts| - 1;
      RunKept(g, ts[..n]);
      if ts[n].Turn? {
        ServedKept(Run(g, ts[..n]), ts[n].pins);
      } else {
        ElsewhereKept(Run(g, ts[..n]), ts[n].core);
      }
    }
  }

  /** What holds of the history and of the record. */
  ghost predicate Promised(c: Core, log: seq<Event>)
    requires c.Shape()
  {
    && Legal(log)
    && c.ip[GPIO].heartbeats == Low32(Beats(log))
    && c.ip[GPIO].misses == Low32(TakenOf(log, GPIO, STEP_DEADLINE_MISS))
  }

  /** Whatever the registers answer and whatever else goes on, every report of the pins is lawful: each success
      comes after the levels 0, 1, 1, 0 were driven in this order, each of them, at least three epochs later and
      with nothing driven in between, read back at the pin with direction and latch as they were left; and the
      heartbeats of the record count exactly these successes, and its misses the misses. */
  lemma HeartbeatsVouch(c: Core, ts: seq<Turn>)
    requires Initial(c) && forall k :: 0 <= k < |ts| ==> ts[k].Shape()
    ensures var g := Run(Idle(c), ts); Promised(g.core, g.log)
  {
    hide Run, Kept, Legal;
    IdleKept(c);
    RunKept(Idle(c), ts);
    KeptPromised(Run(Idle(c), ts));
  }

  lemma KeptPromised(g: Gpio)
    requires Kept(g)
    ensures g.core.Shape() && Promised(g.core, g.log)
  {
    hide Legal, PhasesKept;
  }

  // ---------------------------------------------------------------- in the registers alone

  /** Bit 0 was latched as this level; at least three epochs later, with no write to the latch in between, the
      direction had pin 0 as the only output of the two, the latch was as written, and bit 1 of the pins was that
      level. */
  predicate Echoed(log: seq<Event>, r: Round, high: bool) {
    && r.drive + 2 < r.sense < |log|
    && log[r.drive].Wrote? && log[r.drive].reg == OutReg && (log[r.drive].v & 1 != 0 <==> high)
    && (forall j :: r.drive < j < r.sense ==> !(log[j].Wrote? && log[j].reg == OutReg))
    && log[r.sense - 2].Saw? && log[r.sense - 2].reg == DirReg && log[r.sense - 2].v & 3 == 1
    && log[r.sense - 1].Saw? && log[r.sense - 1].reg == OutReg && log[r.sense - 1].v & 0xffff == log[r.drive].v
    && log[r.sense].Saw? && log[r.sense].reg == InReg && (log[r.sense].v & 2 != 0 <==> high)
    && Sub(log[r.sense].at, log[r.drive].at) >= 3
  }

  predicate LowHighHighLow(log: seq<Event>, rs: seq<Round>) {
    && |rs| == 4
    && Echoed(log, rs[0], false) && Echoed(log, rs[1], true) && Echoed(log, rs[2], true) && Echoed(log, rs[3], false)
    && rs[0].sense < rs[1].drive && rs[1].sense < rs[2].drive && rs[2].sense < rs[3].drive
    && rs[3].sense == |log| - 1
  }

  lemma LevelBits(v: bv32, level: bv32)
    requires level == 0 || level == 1
    ensures And(v, 1) == level <==> (v & 1 != 0 <==> level == 1)
    ensures SenseBit(v) == level <==> (v & 2 != 0 <==> level == 1)
  {
  }

  lemma BackIsEchoed(log: seq<Event>, r: Round, level: bv32)
    requires CameBack(log, r, level) && (level == 0 || level == 1)
    ensures Echoed(log, r, level == 1)
  {
    hide And, SenseBit, Sub;
    LevelBits(log[r.drive].v, level);
    LevelBits(log[r.sense].v, level);
  }

  /** Every success comes right after low, high, high and low have come back one after the other. */
  lemma BeatInRegisters(log: seq<Event>, k: nat)
    requires Legal(log) && k < |log| && log[k].Made? && log[k].report.step == STEP_PROGRESS
    ensures exists rs: seq<Round> :: LowHighHighLow(log[..k], rs)
  {
    hide CameBack, Echoed;
    var before := log[..k];
    assert Lawful(before, log[k]);
    var rs: seq<Round> :| |rs| == 4 && InTurn(before, rs) && rs[3].sense == |before| - 1;
    assert CameBack(before, rs[0], Stimulus(0)) && CameBack(before, rs[1], Stimulus(1));
    assert CameBack(before, rs[2], Stimulus(2)) && CameBack(before, rs[3], Stimulus(3));
    BackIsEchoed(before, rs[0], 0);
    BackIsEchoed(before, rs[1], 1);
    BackIsEchoed(before, rs[2], 1);
    BackIsEchoed(before, rs[3], 0);
    assert LowHighHighLow(before, rs);
  }

  /** Every write to the direction or the latch changes no bit of another pin. */
  predicate OthersSurvive(log: seq<Event>, k: nat)
    requires k < |log| && log[k].Wrote?
  {
    && k > 0 && log[k - 1].Saw? && log[k - 1].reg == log[k].reg && (log[k].reg == DirReg || log[k].reg == OutReg)
    && OwnPinsOnly(log[k].reg, log[k - 1].v, log[k].v)
  }

  lemma OtherPinsSurvive(log: seq<Event>, k: nat)
    requires Legal(log) && k < |log| && log[k].Wrote?
    ensures OthersSurvive(log, k)
  {
    hide Vouched, Beats, BeganAt, OwnPinsOnly, LastDrive;
    assert Lawful(log[..k], log[k]);
  }

  /** In every run: what stands behind the heartbeats, and what the writes leave alone. */
  lemma PinsInEveryRun(c: Core, ts: seq<Turn>, k: nat)
    requires Initial(c) && forall j :: 0 <= j < |ts| ==> ts[j].Shape()
    ensures var log := Run(Idle(c), ts).log;
      k < |log| ==>
        && (log[k].Made? && log[k].report.step == STEP_PROGRESS ==>
              exists rs: seq<Round> :: LowHighHighLow(log[..k], rs))
        && (log[k].Wrote? ==> OthersSurvive(log, k))
  {
    hide Run, Legal, LowHighHighLow, OthersSurvive;
    HeartbeatsVouch(c, ts);
    var log := Run(Idle(c), ts).log;
    if k < |log| && log[k].Made? && log[k].report.step == STEP_PROGRESS {
      BeatInRegisters(log, k);
    }
    if k < |log| && log[k].Wrote? {
      OtherPinsSurvive(log, k);
    }
  }
}
