/** Liveness of the main loop: with hardware that answers, and while the budgets last, a published report
    reaches the screen. */
module MainLiveness {
  import opened Words
  import opened Health
  import opened HealthText
  import opened Observing
  import opened VgaTransaction
  import opened VgaLiveness
  import opened MainLoop
  import opened MainTiming
  import opened VgaTiming
  import Dispatcher
  import HealthRuns

  // ---------------------------------------------------------------- the screen

  /** Neither budget runs out up to epoch end; a disarmed deadline is armed afresh. */
  predicate Lasts(d: Display, end: nat) {
    && end < d.obs.start + OBSERVER_BUDGET
    && (d.t.deadline.armed ==> d.t.deadline.budget == PROVIDER_BUDGET && end < d.t.deadline.start + PROVIDER_BUDGET)
  }

  /** The lease of s is held, with so many turns left before it is on the screen, and shown so far. */
  predicate OnCourse(d: Display, s: Snapshot, left: int, shown: seq<Snapshot>, end: nat) {
    && d.Shape() && d.obs.vgaSlot < 2 && d.core.slot[d.obs.vgaSlot].snapshot == s
    && TurnsLeft(d) == left && d.displayed == shown && Lasts(d, end)
  }

  /** The fields that the rest of a rendering depends on. */
  lemma SameCourse(d: Display, e: Display, s: Snapshot, left: int, shown: seq<Snapshot>, end: nat)
    requires OnCourse(d, s, left, shown, end) && e.Shape() && e.t == d.t && e.displayed == d.displayed
    requires SameScreen(d.obs, e.obs) && e.core.slot[d.obs.vgaSlot].snapshot == s
    ensures OnCourse(e, s, left, shown, end)
  {
    hide CallsFrom, Lines;
  }

  lemma EpochOnCourse(d: Display, s: Snapshot, left: int, shown: seq<Snapshot>, end: nat)
    requires OnCourse(d, s, left, shown, end)
    ensures OnCourse(EpochTurn(d), s, left, shown, end)
  {
    hide EpochBegun, OnCourse;
    CourseShape(d, s, left, shown, end);
    EpochKeeps(d.core);
    SameCourse(d, EpochTurn(d), s, left, shown, end);
  }

  lemma CourseShape(d: Display, s: Snapshot, left: int, shown: seq<Snapshot>, end: nat)
    requires OnCourse(d, s, left, shown, end)
    ensures d.Shape() && d.obs.vgaSlot < 2 && d.core.slot[d.obs.vgaSlot].snapshot == s && d.displayed == shown
    ensures TurnsLeft(d) == left
  {
  }

  lemma OthersOnCourse(d: Display, reports: seq<OtherReport>, s: Snapshot, left: int, shown: seq<Snapshot>, end: nat)
    requires OnCourse(d, s, left, shown, end)
    ensures OnCourse(d.(core := ReportedAll(d.core, reports)), s, left, shown, end)
  {
    hide ReportedAll, OnCourse;
    CourseShape(d, s, left, shown, end);
    ReportedAllKeeps(d.core, reports);
    SameCourse(d, d.(core := ReportedAll(d.core, reports)), s, left, shown, end);
  }

  lemma SerialOnCourse(w: World, ready: bool, s: Snapshot, left: int, shown: seq<Snapshot>, end: nat)
    requires w.display.Shape() && UartFit(w.display) && Agree(w.display.core, w.display.obs)
    requires OnCourse(w.display, s, left, shown, end)
    ensures OnCourse(SerialTurn(w, ready).display, s, left, shown, end)
  {
    hide UartServed, OnCourse, Observing.Expired, Agree;
    CourseShape(w.display, s, left, shown, end);
    UartServedKeeps(w.display.core, w.display.obs, ready);
    SameCourse(w.display, SerialTurn(w, ready).display, s, left, shown, end);
  }

  lemma PublicationOnCourse(w: World, s: Snapshot, left: int, shown: seq<Snapshot>, end: nat)
    requires w.display.Shape() && Agree(w.display.core, w.display.obs) && OnCourse(w.display, s, left, shown, end)
    ensures OnCourse(PublicationTurn(w).display, s, left, shown, end)
  {
    hide OnCourse;
    CourseShape(w.display, s, left, shown, end);
    SameCourse(w.display, PublicationTurn(w).display, s, left, shown, end);
  }

  /** The screen's own turn, at epoch v. */
  lemma ScreenOnCourse(d: Display, r: Readings, s: Snapshot, left: int, shown: seq<Snapshot>, end: nat, v: nat)
    requires Sound(d) && OnCourse(d, s, left, shown, end) && Steady(d.t.phase, r)
    requires d.core.epoch == v < 0x8000_0000 && d.obs.start <= v <= end
    requires d.t.deadline.armed ==> d.t.deadline.start <= v
    ensures d.Shape()
    ensures var e := VgaServed(d, r);
      if Answers(d.t.phase, r.status) && left == 1 then e.displayed == shown + [s]
      else OnCourse(e, s, if Answers(d.t.phase, r.status) then left - 1 else left, shown, end)
  {
    hide Sound, VgaServed, TurnsLeft, Answers, Steady;
    TurnsCountDown(d, r);
  }

  /** In this pass it is the screen's turn, and what its phase waits for has come. */
  predicate Advances(w: World, i: Input)
    requires w.disp.Valid()
  {
    Dispatcher.Chosen(w.disp) == VGA && Answers(w.display.t.phase, i.screen.status)
  }

  predicate SteadyPass(w: World, i: Input)
    requires w.disp.Valid()
  {
    Dispatcher.Chosen(w.disp) == VGA ==> Steady(w.display.t.phase, i.screen)
  }

  lemma ProviderOnCourse(w: World, i: Input, s: Snapshot, left: int, shown: seq<Snapshot>, end: nat, v: nat)
    requires w.disp.Valid() && Sound(w.display) && OnCourse(w.display, s, left, shown, end) && SteadyPass(w, i)
    requires w.display.core.epoch == v < 0x8000_0000 && w.display.obs.start <= v <= end
    requires w.display.t.deadline.armed ==> w.display.t.deadline.start <= v
    ensures w.display.Shape()
    ensures var e := ProviderTurn(w.display, Dispatcher.Chosen(w.disp), i);
      if Advances(w, i) && left == 1 then e.displayed == shown + [s]
      else OnCourse(e, s, if Advances(w, i) then left - 1 else left, shown, end)
  {
    hide Sound, VgaServed, ReportedAll, OnCourse, Steady, Answers, Dispatcher.Chosen;
    CourseShape(w.display, s, left, shown, end);
    if Dispatcher.Chosen(w.disp) == VGA {
      ScreenOnCourse(w.display, i.screen, s, left, shown, end, v);
    } else {
      OthersOnCourse(w.display, i.reports, s, left, shown, end);
    }
  }

  /** The last three turns of a pass do not touch what has been shown. */
  lemma RestKeepsShown(w: World, ready: bool)
    requires w.display.Shape() && UartFit(w.display)
    ensures SerialTurn(w, ready).display.displayed == w.display.displayed
    ensures SerialTurn(w, ready).display.Shape() ==>
      PublicationTurn(SerialTurn(w, ready)).display.displayed == w.display.displayed
  {
    hide UartServed, Observing.Expired, Published, Taken, FreeSlot;
  }

  /** One pass. */
  lemma PassOnCourse(w: World, i: Input, t: nat, s: Snapshot, left: int, end: nat)
    requires Kept(w) && w.display.Shape() && w.disp.Valid() && OnTime(w, t) && t < end < 0x8000_0000
    requires OnCourse(w.display, s, left, w.display.displayed, end) && SteadyPass(w, i)
    ensures var x, shown := MainStep(w, i), w.display.displayed;
      if Advances(w, i) && left == 1 then x.display.displayed == shown + [s]
      else OnCourse(x.display, s, if Advances(w, i) then left - 1 else left, shown, end)
  {
    hide Kept, OnCourse, EpochTurn, ProviderTurn, SerialTurn, PublicationTurn, MainStep, UartFit, Sound, Timed;
    hide Dispatcher.Chosen, Dispatcher.Advanced, Dispatcher.After, Dispatcher.LastVgaTurn, Answers, Steady;
    var id, shown, v := Dispatcher.Chosen(w.disp), w.display.displayed, t + 1;
    PassParts(w, i);
    CourseShape(w.display, s, left, shown, end);
    var w1 := w.(display := EpochTurn(w.display));
    var w2 := w1.(display := ProviderTurn(w1.display, id, i), disp := Dispatcher.Advanced(w.disp));
    var w3 := SerialTurn(w2, i.uartReady);
    EpochOnCourse(w.display, s, left, shown, end);
    EpochStarts(w, t);
    ProviderOnCourse(w1, i, s, left, shown, end, v);
    RestKeepsShown(w2, i.uartReady);
    if !(Advances(w, i) && left == 1) {
      var rest := if Advances(w, i) then left - 1 else left;
      SerialOnCourse(w2, i.uartReady, s, rest, shown, end);
      PublicationOnCourse(w3, s, rest, shown, end);
    }
  }

  lemma EpochStarts(w: World, t: nat)
    requires w.display.Shape() && OnTime(w, t) && w.display.obs.vgaSlot < 2
    ensures var d := EpochTurn(w.display);
      && d.core.epoch == t + 1 && d.obs.start <= t && d.t == w.display.t
      && (d.t.deadline.armed ==> d.t.deadline.start <= t)
  {
    hide EpochBegun;
    EpochKeeps(w.display.core);
  }

  // ---------------------------------------------------------------- whole runs

  /** How many passes brought the screen what it was waiting for. */
  function Gained(w: World, inputs: seq<Input>): (n: nat)
    requires Kept(w)
    ensures n <= |inputs|
  {
    if inputs == [] then 0
    else
      var m := |inputs| - 1;
      KeptShape(Run(w, inputs[..m]));
      Gained(w, inputs[..m]) + if Advances(Run(w, inputs[..m]), inputs[m]) then 1 else 0
  }

  /** Until another report is on the screen, the hardware does not fail. */
  ghost predicate SteadyRun(w: World, inputs: seq<Input>)
    requires Kept(w)
  {
    forall m :: 0 <= m < |inputs| ==> SteadyAfter(w, inputs, m)
  }

  predicate SteadyAfter(w: World, inputs: seq<Input>, m: nat)
    requires Kept(w) && m < |inputs|
  {
    var x := Run(w, inputs[..m]);
    KeptShape(x);
    x.display.displayed == w.display.displayed ==> SteadyPass(x, inputs[m])
  }

  /** Once a report is shown, it stays shown. */
  lemma ShownStays(w: World, i: Input)
    requires Kept(w)
    ensures w.display.displayed <= MainStep(w, i).display.displayed
  {
    hide Kept, EpochBegun, ProviderTurn, SerialTurn, PublicationTurn, MainStep, UartFit;
    hide Dispatcher.Chosen, Dispatcher.Advanced;
    KeptShape(w);
    PassParts(w, i);
    var w1 := w.(display := EpochTurn(w.display));
    var id := Dispatcher.Chosen(w.disp);
    var w2 := w1.(display := ProviderTurn(w1.display, id, i), disp := Dispatcher.Advanced(w.disp));
    ProviderShows(w1.display, id, i);
    RestKeepsShown(w2, i.uartReady);
  }

  lemma ProviderShows(d: Display, id: nat, i: Input)
    requires d.Shape()
    ensures d.displayed <= ProviderTurn(d, id, i).displayed
  {
    hide ArmedServed, Rearmed, ReportedAll;
    if id == VGA {
      var m := if d.t.deadline.armed then d else Rearmed(d);
      RearmedSame(d);
      ArmedShows(m, i.screen);
    }
  }

  lemma RearmedSame(d: Display)
    ensures Rearmed(d).displayed == d.displayed && (d.Shape() ==> Rearmed(d).Shape())
  {
  }

  lemma ArmedShows(d: Display, r: Readings)
    requires d.Shape()
    ensures d.displayed <= ArmedServed(d, r).displayed
  {
    hide PhaseServed, Abandoned, Freed, Reported, Accepts, AbortBit, ReadyBit, Rearmed;
    var p := PolledVga(d).0;
    AbandonedShows(d, Or(0x60000000, r.status));
    AbandonedShows(p, Or(0x61000000, r.status));
    RearmedSame(Abandoned(d, Or(0x60000000, r.status)));
    FreedShows(p, false);
    PhaseShows(p, r);
  }

  lemma FreedShows(d: Display, completed: bool)
    requires d.Shape()
    ensures d.displayed <= Freed(d, completed).displayed
  {
    hide VgaReleased;
  }

  lemma PhaseShows(d: Display, r: Readings)
    requires d.Shape()
    ensures d.displayed <= PhaseServed(d, r).displayed
  {
    hide Freed, Abandoned, Reported, VgaPrepared, AbortBit, ReadyBit, BusyBit, VsyncBit, DoneBit, Rearmed;
    AbandonedShows(d, Or(0x60000000, r.recheck));
    AbandonedShows(d, Or(0x62000000, r.recheck));
    AbandonedShows(d, 0x6001);
    if d.t.phase == DONE {
      var g := Inc(d.t.generation);
      HealthRuns.ReportedKeepsStore(d.core, Report(VGA, STEP_PROGRESS, g, r.status));
      var e := d.(core := Reported(d.core, Report(VGA, STEP_PROGRESS, g, r.status)), t := d.t.(generation := g));
      FreedShows(e, true);
      RearmedSame(Freed(e, true));
    }
  }

  /** From any state of a run, with s under lease and budgets that last, while the hardware does not fail:
      s is on the screen as soon as the screen has been brought what it waits for as often as the state
      says it must be; until then the lease goes on, one turn closer each time. */
  lemma {:induction false} ReachesScreen(w: World, inputs: seq<Input>, t: nat, s: Snapshot, end: nat)
    requires Kept(w) && w.display.Shape() && OnTime(w, t) && t + |inputs| <= end < 0x8000_0000
    requires w.display.obs.vgaSlot < 2 && w.display.core.slot[w.display.obs.vgaSlot].snapshot == s
    requires Lasts(w.display, end) && SteadyRun(w, inputs)
    ensures var x, shown, n := Run(w, inputs), w.display.displayed, TurnsLeft(w.display) - Gained(w, inputs);
      && x.display.Shape() && OnTime(x, t + |inputs|)
      && if n <= 0 then shown + [s] <= x.display.displayed else OnCourse(x.display, s, n, shown, end)
  {
    hide Kept, OnTime, OnCourse, MainStep, SteadyPass, Advances, TurnsLeft;
    if inputs == [] {
      StartsOnCourse(w, s, end);
    } else {
      var m := |inputs| - 1;
      var before := inputs[..m];
      SteadyBefore(w, inputs);
      ReachesScreen(w, before, t, s, end);
      var x := Run(w, before);
      KeptShape(x);
      StepOnTime(x, inputs[m], t + m);
      ShownStays(x, inputs[m]);
      var n := TurnsLeft(w.display) - Gained(w, before);
      if n > 0 {
        CourseShape(x.display, s, n, w.display.displayed, end);
        assert SteadyAfter(w, inputs, m);
        PassOnCourse(x, inputs[m], t + m, s, n, end);
      }
    }
  }

  lemma SteadyBefore(w: World, inputs: seq<Input>)
    requires Kept(w) && inputs != [] && SteadyRun(w, inputs)
    ensures SteadyRun(w, inputs[..|inputs| - 1])
  {
    hide Kept, Run, SteadyPass;
    var before := inputs[..|inputs| - 1];
    forall m | 0 <= m < |before|
      ensures SteadyAfter(w, before, m)
    {
      assert before[..m] == inputs[..m];
      assert SteadyAfter(w, inputs, m);
    }
  }

  lemma StartsOnCourse(w: World, s: Snapshot, end: nat)
    requires Kept(w) && w.display.Shape() && w.display.obs.vgaSlot < 2 && Lasts(w.display, end)
    requires w.display.core.slot[w.display.obs.vgaSlot].snapshot == s
    ensures TurnsLeft(w.display) > 0
    ensures OnCourse(w.display, s, TurnsLeft(w.display), w.display.displayed, end)
  {
    hide Lines, CallsLeft;
    KeptShape(w);
  }

  /** In every run, for a report whose rendering has not begun: once the screen has been brought what it waits
      for 1375 times, while nothing fails and the budgets last, that report is on the screen. */
  lemma FreshReportShown(c: Core, fb: Framebuffer, before: seq<Input>, inputs: seq<Input>, end: nat)
    requires Initial(c) && |before| + |inputs| <= end < 0x8000_0000
    ensures Kept(Start(c, fb))
    ensures var w := Run(Start(c, fb), before);
      var d := w.display;
      && d.Shape()
      && (d.obs.vgaSlot < 2 && d.obs.clearWord == d.obs.vgaLine == d.obs.vgaColumn == 0
          && Lasts(d, end) && SteadyRun(w, inputs) && Gained(w, inputs) >= 1375 ==>
            d.displayed + [d.core.slot[d.obs.vgaSlot].snapshot] <= Run(w, inputs).display.displayed)
  {
    hide Kept, Run, Start, OnTime, SteadyRun, Gained, TurnsLeft, Lasts, OnCourse, Sound;
    InitialKept(c, fb);
    RunOnTime(c, fb, before);
    var w := Run(Start(c, fb), before);
    var d := w.display;
    if d.obs.vgaSlot < 2 && d.obs.clearWord == d.obs.vgaLine == d.obs.vgaColumn == 0
       && Lasts(d, end) && SteadyRun(w, inputs) && Gained(w, inputs) >= 1375 {
      KeptSound(w);
      NotArmed(d);
      TurnsBounded(d);
      ReachesScreen(w, inputs, |before|, d.core.slot[d.obs.vgaSlot].snapshot, end);
    }
  }

  lemma NotArmed(d: Display)
    requires Sound(d) && d.obs.clearWord == 0
    ensures d.t.phase <= PREPARE
  {
  }
}
