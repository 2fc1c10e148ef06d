/** What the services of the loopback, the pins and the board do to the health core: each only makes reports,
    and only for its own id. */
module ProviderReports {
  import opened Words
  import opened Health
  import opened Observing
  import opened VgaTransaction
  import opened MainLoop
  import HealthRuns
  import VgaEffects
  import B = BoardIo
  import G = GpioLoop
  import U = UartLoop

  /** The record and the tokens of an id are as they were. */
  predicate Untouched(c: Core, c': Core, id: nat)
    requires c.Shape() && c'.Shape() && id < IP_COUNT
  {
    c'.ip[id] == c.ip[id] && c'.progress[id] == c.progress[id] && c'.missed[id] == c.missed[id]
  }

  lemma MergedUntouched(c: Core, c': Core, id: nat)
    requires c.Shape() && c'.Shape() && id < IP_COUNT && Untouched(c, c', id)
    ensures Merged(c, c', id) == c'
  {
    assert c'.ip[id := c'.ip[id]] == c'.ip && c'.progress[id := c'.progress[id]] == c'.progress;
    assert c'.missed[id := c'.missed[id]] == c'.missed;
  }

  predicate All(rs: seq<OtherReport>, id: nat) {
    forall k :: 0 <= k < |rs| ==> rs[k].id == id
  }

  /** The core changes only by reports for this id. */
  ghost predicate Reports(c: Core, c': Core, id: nat)
    requires c.Shape()
  {
    exists rs: seq<OtherReport> :: All(rs, id) && c' == ReportedAll(c, rs)
  }

  lemma NoReport(c: Core, id: nat)
    requires c.Shape()
    ensures Reports(c, c, id)
  {
    var none: seq<OtherReport> := [];
    assert All(none, id) && c == ReportedAll(c, none);
  }

  lemma OneMore(c: Core, d: Core, id: nat, r: Report)
    requires c.Shape() && d.Shape() && Reports(c, d, id) && r.id == id && id != VGA
    ensures Reports(c, Reported(d, r), id)
  {
    hide Reported;
    var rs: seq<OtherReport> :| All(rs, id) && d == ReportedAll(c, rs);
    var more: seq<OtherReport> := rs + [r];
    assert more[..|rs|] == rs;
    assert All(more, id) && Reported(d, r) == ReportedAll(c, more);
  }

  lemma Polls(c: Core, id: nat, d: Deadline)
    requires c.Shape() && id != VGA
    ensures Reports(c, DeadlinePolled(c, id, d).core, id)
  {
    hide Reported, Accepts;
    NoReport(c, id);
    OneMore(c, c, id, Report(id, STEP_DEADLINE_MISS, d.token, Bits(d.budget)));
  }

  lemma {:induction false} OthersUntouched(c: Core, rs: seq<OtherReport>, id: nat)
    requires c.Shape() && id < IP_COUNT && forall k :: 0 <= k < |rs| ==> rs[k].id != id
    ensures Untouched(c, ReportedAll(c, rs), id)
  {
    if rs != [] {
      var n := |rs| - 1;
      OthersUntouched(c, rs[..n], id);
      OtherUntouched(ReportedAll(c, rs[..n]), rs[n], id);
    }
  }

  lemma OtherUntouched(c: Core, r: Report, id: nat)
    requires c.Shape() && id < IP_COUNT && r.id != id
    ensures Untouched(c, Reported(c, r), id)
  {
    hide Accepts;
  }

  // ---------------------------------------------------------------- the services

  lemma SwReports(b: B.Board, a: B.Answers)
    requires b.core.Shape()
    ensures Reports(b.core, B.SwServed(b, a).core, SW)
  {
    hide Reported, Accepts, B.CommandFor;
    NoReport(b.core, SW);
    OneMore(b.core, b.core, SW, Report(SW, STEP_PROGRESS, Inc(b.generation), And(a.sw, 0x3ff)));
  }

  lemma LedReports(b: B.Board, a: B.Answers)
    requires b.core.Shape()
    ensures Reports(b.core, B.LedServed(b, a).core, LED)
  {
    hide Reported, Accepts;
    NoReport(b.core, LED);
    OneMore(b.core, b.core, LED, Report(LED, STEP_DEADLINE_MISS, b.generation, B.MissedDetail(b.value)));
    OneMore(b.core, b.core, LED, B.LedReport(b.value, b.generation, And(a.led, 0x3ff)));
  }

  lemma HexReports(b: B.Board, a: B.Answers)
    requires b.core.Shape()
    ensures Reports(b.core, B.HexServed(b, a).core, HEX)
  {
    hide Reported, Accepts, B.HexPhased, Reports;
    var c := B.Initialised(b);
    NoReport(b.core, HEX);
    OneMore(b.core, b.core, HEX, Report(HEX, STEP_DEADLINE_MISS, c.generation, B.MissedDetail(c.value)));
    HexPhaseReports(c, a);
  }

  lemma DataWrites(b: B.Board)
    ensures B.WithData(b).core == b.core
  {
    hide And;
  }

  lemma CheckReads(b: B.Board, a: B.Answers)
    ensures B.Checked(b, a).core == b.core
  {
  }

  lemma HexPhaseReports(b: B.Board, a: B.Answers)
    requires b.core.Shape()
    ensures Reports(b.core, B.HexPhased(b, a).core, HEX)
  {
    hide Reported, Accepts, B.HexReport, B.Disabled, B.Enabled, B.Moded, B.WithData, B.HexAnswered, Reports;
    NoReport(b.core, HEX);
    if b.phase == 1 {
      DataWrites(b);
    } else if b.phase >= 4 {
      HexAnswerReports(b, a);
    }
  }

  lemma HexAnswerReports(b: B.Board, a: B.Answers)
    requires b.core.Shape()
    ensures Reports(b.core, B.HexAnswered(b, a).core, HEX)
  {
    hide Reported, Accepts, B.HexReport, B.Checked, Reports;
    NoReport(b.core, HEX);
    CheckReads(b, a);
    B.HexReportIs(b, a);
    OneMore(b.core, b.core, HEX, B.HexReport(b, a));
  }

  lemma GpioReports(g: G.Gpio, p: G.Pins)
    requires g.core.Shape()
    ensures Reports(g.core, G.Served(g, p).core, GPIO)
  {
    hide Reported, Accepts, G.LateDetail, G.PhaseServed, Reports;
    NoReport(g.core, GPIO);
    OneMore(g.core, g.core, GPIO, G.MissReport(g));
    var q := G.Polled(g).0;
    OneMore(g.core, q.core, GPIO, G.Failure(G.LateDetail(g.index, g.expected)));
    GpioPhaseReports(g.core, g, p);
    GpioPhaseReports(g.core, q, p);
  }

  lemma AccessesOnly(g: G.Gpio, p: G.Pins)
    ensures G.Claimed(g, p).core == g.core && G.Inspected(g, p) == g.(log := G.Inspected(g, p).log)
  {
  }

  lemma GpioPhaseReports(c: Core, g: G.Gpio, p: G.Pins)
    requires c.Shape() && g.core.Shape() && Reports(c, g.core, GPIO)
    ensures Reports(c, G.PhaseServed(g, p).core, GPIO)
  {
    hide Reported, Accepts, Reports, G.Claimed, G.Inspected, G.Owned, G.SenseBit;
    AccessesOnly(g, p);
    AccessesOnly(G.Claimed(g, p), p);
    OneMore(c, g.core, GPIO, G.Failure(0x72000000));
    OneMore(c, g.core, GPIO, Report(GPIO, STEP_PROGRESS, Inc(g.generation), 0x103));
  }

  lemma LoopReports(l: U.Loop, a: U.Lines)
    requires l.core.Shape()
    ensures Reports(l.core, U.Served(l, a).loop.core, UART_LOOP)
  {
    hide Reported, Accepts, U.Received, Reports;
    var m := if l.deadline.armed then l else U.Armed(l);
    NoReport(l.core, UART_LOOP);
    Polls(l.core, UART_LOOP, m.deadline);
    var p := U.Polled(m).0;
    OneMore(l.core, p.core, UART_LOOP, Report(UART_LOOP, STEP_FAIL, 0, 0x2002));
    ReceivedReports(l.core, U.Transmitted(p, a.ready), a.bytes, U.RX_QUOTA);
  }

  lemma {:induction false} ReceivedReports(c: Core, l: U.Loop, bytes: seq<bv8>, quota: nat)
    requires c.Shape() && l.core.Shape() && Reports(c, l.core, UART_LOOP)
    ensures Reports(c, U.Received(l, bytes, quota).loop.core, UART_LOOP)
    decreases quota
  {
    hide Reported, Accepts, U.TokenByte, U.MismatchDetail, Reports;
    if quota > 0 && bytes != [] {
      OneMore(c, l.core, UART_LOOP, Report(UART_LOOP, STEP_FAIL, 0, U.MismatchDetail(l.rx, bytes[0])));
      OneMore(c, l.core, UART_LOOP, Report(UART_LOOP, STEP_FAIL, 0, 0x2003));
      OneMore(c, l.core, UART_LOOP, Report(UART_LOOP, STEP_PROGRESS, l.number, Bits(l.number)));
      var m := l.(rx := l.rx + 1, frame := l.frame + [bytes[0]]);
      if m.rx != U.FRAME {
        ReceivedReports(c, m, bytes[1..], quota - 1);
      }
    }
  }

  // ---------------------------------------------------------------- the rest of the program

  /** The ids whose services are part of the program; the screen's own transaction aside. */
  predicate Served(id: nat) {
    id == UART_LOOP || id == GPIO || id == SW || id == LED || id == HEX
  }

  /** A report of the timer, the acceleration sensor, the converter or the joystick. */
  type FreeReport = r: OtherReport | !Served(r.id) witness Report(0, 0, 0, 0)

  /** The served records are as they were. */
  ghost predicate Aside(c: Core, c': Core)
    requires c.Shape() && c'.Shape()
  {
    forall id: nat :: Served(id) ==> Untouched(c, c', id)
  }

  lemma ReportAside(c: Core, r: Report)
    requires c.Shape() && !Served(r.id)
    ensures Aside(c, Reported(c, r))
  {
    hide Reported;
    forall id: nat | Served(id)
      ensures Untouched(c, Reported(c, r), id)
    {
      OtherUntouched(c, r, id);
    }
  }

  lemma ReportsAside(c: Core, rs: seq<FreeReport>)
    requires c.Shape()
    ensures Aside(c, ReportedAll(c, rs))
  {
    hide ReportedAll;
    forall id: nat | Served(id)
      ensures Untouched(c, ReportedAll(c, rs), id)
    {
      OthersUntouched(c, rs, id);
    }
  }

  lemma EpochAside(c: Core)
    requires c.Shape()
    ensures Aside(c, EpochBegun(c))
  {
    hide Reported;
    var d := c.(epoch := Inc(c.epoch));
    ReportAside(d, Report(SYSTEM_SERVICE, STEP_PROGRESS, d.epoch, 0));
  }

  lemma FreedAside(d: Display, completed: bool)
    requires d.Shape()
    ensures Aside(d.core, Freed(d, completed).core)
  {
  }

  lemma FailedAside(d: Display, detail: bv32)
    requires d.Shape()
    ensures Aside(d.core, Failed(d, detail).core)
  {
    hide Reported;
    ReportAside(d.core, Report(VGA, STEP_FAIL, 0, detail));
  }

  lemma AsideAgain(c: Core, d: Core, e: Core)
    requires c.Shape() && d.Shape() && e.Shape() && Aside(c, d) && Aside(d, e)
    ensures Aside(c, e)
  {
  }

  lemma AbandonedAside(d: Display, detail: bv32)
    requires d.Shape()
    ensures Aside(d.core, Abandoned(d, detail).core)
  {
    hide Aside, Failed, Freed;
    FailedAside(d, detail);
    FreedAside(Failed(d, detail), false);
    AsideAgain(d.core, Failed(d, detail).core, Abandoned(d, detail).core);
  }

  lemma PrepareAside(d: Display)
    requires d.Shape()
    ensures Aside(d.core, PrepareServed(d).core)
  {
    hide ChunkWritten, Cleared;
    VgaEffects.ChunkSettles(d);
  }

  lemma DoneAside(d: Display, status: bv32)
    requires d.Shape()
    ensures Aside(d.core, DoneServed(d, status).core)
  {
    hide Aside, Reported, Freed, DeadlineBegun;
    var r := Report(VGA, STEP_PROGRESS, Inc(d.t.generation), status);
    HealthRuns.ReportedKeepsStore(d.core, r);
    var e := d.(core := Reported(d.core, r), t := d.t.(generation := r.token));
    ReportAside(d.core, r);
    FreedAside(e, true);
    AsideAgain(d.core, e.core, Freed(e, true).core);
  }

  lemma SwapAside(d: Display, r: Readings)
    requires d.Shape()
    ensures Aside(d.core, SwapServed(d, r).core)
  {
    hide Abandoned, AbortBit, BusyBit, ReadyBit;
    AbandonedAside(d, Or(0x60000000, r.recheck));
    AbandonedAside(d, Or(0x62000000, r.recheck));
  }

  lemma PhaseAside(d: Display, r: Readings)
    requires d.Shape()
    ensures Aside(d.core, PhaseServed(d, r).core)
  {
    hide Abandoned, SwapServed, DoneServed, PrepareServed, BusyBit, VsyncBit, DoneBit;
    PrepareAside(d);
    SwapAside(d, r);
    DoneAside(d, r.status);
    AbandonedAside(d, 0x6001);
  }

  lemma PolledAside(d: Display)
    requires d.Shape()
    ensures Aside(d.core, PolledVga(d).0.core)
  {
    hide Reported, Accepts;
    ReportAside(d.core, Report(VGA, STEP_DEADLINE_MISS, d.t.deadline.token, Bits(d.t.deadline.budget)));
  }

  lemma ScreenAside(d: Display, r: Readings)
    requires d.Shape()
    ensures Aside(d.core, VgaServed(d, r).core)
  {
    hide Aside, PhaseServed, Abandoned, Freed, PolledVga, AbortBit, ReadyBit, DeadlineBegun;
    var e := if d.t.deadline.armed then d else Rearmed(d);
    var p := PolledVga(e).0;
    AbandonedAside(e, Or(0x60000000, r.status));
    PolledAside(e);
    FreedAside(p, false);
    AbandonedAside(p, Or(0x61000000, r.status));
    PhaseAside(p, r);
    AsideAgain(d.core, p.core, Freed(p, false).core);
    AsideAgain(d.core, p.core, Abandoned(p, Or(0x61000000, r.status)).core);
    AsideAgain(d.core, p.core, PhaseServed(p, r).core);
  }

  lemma SerialAside(w: World, ready: bool)
    requires w.display.Shape() && UartFit(w.display)
    ensures var w' := SerialTurn(w, ready); w'.display.core.Shape() && Aside(w.display.core, w'.display.core)
  {
    hide Filled, Observing.Expired;
  }

  lemma PublicationAside(w: World)
    requires w.display.Shape()
    ensures var w' := PublicationTurn(w); w'.display.core.Shape() && Aside(w.display.core, w'.display.core)
  {
    hide Taken;
  }

  // ---------------------------------------------------------------- all three together

  /** What is promised of the board, the pins and the loopback is kept. */
  ghost predicate Answering(b: B.Board, g: G.Gpio, l: U.Loop) {
    B.Kept(b) && G.Kept(g) && U.Kept(l)
  }

  lemma LoopKept(l: U.Loop, c: Core)
    requires U.Kept(l) && c.Shape()
    ensures U.Kept(l.(core := Merged(l.core, c, UART_LOOP)))
  {
    hide U.Frame, U.Tally;
  }

  /** Whoever is served or not, the others' promises stay. */
  lemma Carried(c: Core, c': Core, id: nat, b: B.Board, g: G.Gpio, l: U.Loop)
    requires Answering(b, g, l) && c.Shape() && c == b.core == g.core == l.core
    requires c'.Shape() && forall other: nat :: Served(other) && other != id ==> Untouched(c, c', other)
    ensures id != UART_LOOP ==> U.Kept(l.(core := c'))
    ensures id != GPIO ==> G.Kept(g.(core := c'))
    ensures id != SW && id != LED && id != HEX ==> B.Kept(b.(core := c'))
  {
    hide U.Kept, G.Kept, B.Kept, Untouched, Merged;
    if id != UART_LOOP {
      MergedUntouched(c, c', UART_LOOP);
      LoopKept(l, c');
    }
    if id != GPIO {
      MergedUntouched(c, c', GPIO);
      G.ElsewhereKept(g, c');
    }
    if id != SW && id != LED && id != HEX {
      MergedUntouched(c, c', SW);
      MergedUntouched(c, c', LED);
      MergedUntouched(c, c', HEX);
      B.ElsewhereKept(b, c');
    }
  }

  lemma ReportsOthers(c: Core, c': Core, id: nat)
    requires c.Shape() && c'.Shape() && Reports(c, c', id)
    ensures forall other: nat :: Served(other) && other != id ==> Untouched(c, c', other)
  {
    hide ReportedAll;
    var rs: seq<OtherReport> :| All(rs, id) && c' == ReportedAll(c, rs);
    forall other: nat | Served(other) && other != id
      ensures Untouched(c, c', other)
    {
      OthersUntouched(c, rs, other);
    }
  }
}
