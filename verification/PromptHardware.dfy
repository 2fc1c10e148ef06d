/** With hardware that does not fail and does not dawdle, nothing is missed: every published report reaches the
    screen and goes out over the serial line, in order. */
module PromptHardware {
  import opened Words
  import opened Health
  import opened HealthText
  import opened Observing
  import opened VgaTransaction
  import opened VgaEffects
  import opened VgaLiveness
  import opened MainLoop
  import opened MainTiming
  import opened MainLiveness
  import opened SerialLiveness
  import Dispatcher

  /** What 1375 turns of the screen take. */
  const SCREEN_PACE: nat := 13750

  /** How many of its turns the screen can be kept waiting for one report. */
  const PATIENCE: nat := 24838

  /** How many passes the transmitter can be busy during one report. */
  const SERIAL_PATIENCE: nat := 261155

  /** After the screen's turn at epoch v, with so many turns waited since the last completed report.  Under a
      lease, what is left of it is counted from the last turn before it began and from the deadline's start;
      without one the deadline is no older than the waits and two turns. */
  predicate ScreenPace(d: Display, v: nat, waits: nat)
    requires d.Shape()
  {
    && (d.t.deadline.armed ==> d.t.deadline.budget == PROVIDER_BUDGET)
    && if d.obs.vgaSlot < 2 then
         && v + 10 * TurnsLeft(d) <= Dispatcher.LastVgaTurn(d.obs.start) + SCREEN_PACE + 10 * waits
         && (d.t.deadline.armed ==> v + 10 * TurnsLeft(d) <= d.t.deadline.start + SCREEN_PACE + 10 + 10 * waits)
       else
         && d.t.phase <= PREPARE && (d.t.phase == PREPARE ==> d.t.deadline.armed)
         && (d.t.deadline.armed ==> v <= d.t.deadline.start + 10 * waits + if d.t.phase == READY then 0 else 10)
  }

  /** The waits after a turn of the screen. */
  function Waited(d: Display, r: Readings, waits: nat): nat {
    if Answers(d.t.phase, r.status) then waits else waits + 1
  }

  // ---------------------------------------------------------------- the screen's turn

  lemma IdleTurn(d: Display, r: Readings, v: nat, now: nat, waits: nat)
    requires d.Shape() && d.obs.vgaSlot == NO_SLOT && ScreenPace(d, v, waits) && Steady(d.t.phase, r)
      && waits <= PATIENCE
    requires d.core.epoch == now < 0x8000_0000 && v < now <= v + 10
    requires d.t.deadline.armed ==> d.t.deadline.start <= v
    ensures var e := VgaServed(d, r);
      e.obs == d.obs && e.displayed == d.displayed && ScreenPace(e, now, Waited(d, r, waits))
  {
    hide AbortBit, ReadyBit, BusyBit, VsyncBit, DoneBit, Reported, Accepts, VgaPrepared, Abandoned, Freed, SwapServed,
      DoneServed;
    NothingToPrepare(d.core, d.obs, d.fb);
    var m := if d.t.deadline.armed then d else Rearmed(d);
    PolledQuiet(m);
  }

  lemma NothingToPrepare(c: Core, o: Obs, fb: Framebuffer)
    requires c.Shape() && o.Shape() && o.vgaSlot == NO_SLOT
    ensures VgaPrepared(c, o, fb) == Prepared(c, o, fb, -1)
  {
  }

  lemma LeasedTurn(d: Display, r: Readings, v: nat, now: nat, waits: nat)
    requires Sound(d) && d.Shape() && d.obs.vgaSlot < 2 && ScreenPace(d, v, waits) && Steady(d.t.phase, r)
      && waits <= PATIENCE
    requires d.core.epoch == now < 0x8000_0000 && v < now <= v + 10 && d.obs.start <= now
    requires d.t.deadline.armed ==> d.t.deadline.start <= v
    ensures var e := VgaServed(d, r);
      || (GoesOn(d, e) && ScreenPace(e, now, Waited(d, r, waits)))
      || (Completes(d, e) && ScreenPace(e, now, 0))
  {
    hide Sound, VgaServed, TurnsLeft, Steady, Answers, Dispatcher.LastVgaTurn;
    SomeLeft(d);
    TurnsCountDown(d, r);
  }

  lemma SomeLeft(d: Display)
    requires Sound(d) && d.Shape() && d.obs.vgaSlot < 2
    ensures TurnsLeft(d) >= 1
  {
    hide CallsLeft, Lines;
  }

  // ---------------------------------------------------------------- the four turns of a pass

  /** Every published report has been shown, in order, but for the one under lease. */
  ghost predicate AllShown(d: Display, published: seq<Snapshot>) {
    Held(d) <= |published| && d.displayed == published[..|published| - Held(d)]
  }

  /** Every published report has gone out, in order, but for the one under lease; of that, a character for
      every pass since but for the pauses. */
  ghost predicate AllPrinted(w: World, t: nat, pauses: nat) {
    var o := w.display.obs;
    && |w.printed| + HeldUart(o) == |w.published|
    && (forall k :: 0 <= k < |w.printed| ==> w.printed[k].snapshot == w.published[k])
    && (o.uartSlot < 2 ==> o.start <= t && |w.sent| + pauses == t - o.start)
  }

  ghost predicate Prompt(w: World, t: nat, v: nat, waits: nat, pauses: nat) {
    && w.display.Shape() && ScreenPace(w.display, v, waits)
    && AllShown(w.display, w.published) && AllPrinted(w, t, pauses)
  }

  lemma PaceSame(d: Display, e: Display, v: nat, waits: nat)
    requires d.Shape() && e.Shape() && ScreenPace(d, v, waits) && e.t == d.t && SameScreen(d.obs, e.obs)
    requires d.obs.vgaSlot < 2 ==> e.core.slot[d.obs.vgaSlot].snapshot == d.core.slot[d.obs.vgaSlot].snapshot
    ensures ScreenPace(e, v, waits)
  {
    hide CallsFrom, Lines, Dispatcher.LastVgaTurn;
  }

  lemma EpochPrompt(w: World, t: nat, v: nat, waits: nat, pauses: nat)
    requires Prompt(w, t, v, waits, pauses)
    ensures w.display.Shape() && Prompt(w.(display := EpochTurn(w.display)), t, v, waits, pauses)
  {
    hide EpochBegun, ScreenPace;
    EpochKeeps(w.display.core);
    PaceSame(w.display, EpochTurn(w.display), v, waits);
  }

  /** The waits after a pass in which the provider with this id had its turn. */
  function WaitsAfter(d: Display, id: nat, i: Input, waits: nat): nat
    requires d.Shape()
  {
    if ProviderTurn(d, id, i).displayed != d.displayed then 0
    else if id == VGA then Waited(d, i.screen, waits)
    else waits
  }

  lemma ScreenPrompt(w: World, i: Input, t: nat, v: nat, waits: nat, pauses: nat)
    requires Kept(w) && Prompt(w, t, v, waits, pauses) && waits <= PATIENCE
    requires w.display.core.epoch == t + 1 < 0x8000_0000 && v <= t < v + 10 && Steady(w.display.t.phase, i.screen)
    requires w.display.obs.vgaSlot < 2 ==> w.display.obs.start <= t
    requires w.display.t.deadline.armed ==> w.display.t.deadline.start <= v
    ensures w.display.Shape()
    ensures Prompt(w.(display := VgaServed(w.display, i.screen)), t, t + 1, WaitsAfter(w.display, VGA, i, waits),
      pauses)
  {
    hide Kept, Sound, VgaServed, ScreenPace, Steady, Waited, AllShown, AllPrinted, OnlyScreen, Accounted, ShownFrom;
    var d, e := w.display, VgaServed(w.display, i.screen);
    KeptShape(w);
    KeptSound(w);
    VgaServedSettled(d, i.screen, 0);
    PrintedAfter(w, e, t, pauses);
    if d.obs.vgaSlot < 2 {
      LeasedTurn(d, i.screen, v, t + 1, waits);
      LastPublished(w);
      ShownAfter(w, e);
      assert Completes(d, e) ==> e.displayed != d.displayed;
    } else {
      IdleTurn(d, i.screen, v, t + 1, waits);
      ShownIdle(w, e);
    }
  }

  lemma ShownAfter(w: World, e: Display)
    requires w.display.Shape() && w.display.obs.vgaSlot < 2 && AllShown(w.display, w.published)
    requires Last(w.display.core.slot[w.display.obs.vgaSlot].snapshot, w.published)
    requires GoesOn(w.display, e) || Completes(w.display, e)
    ensures AllShown(e, w.published)
  {
    var p := w.published;
    assert p[..|p| - 1] + [p[|p| - 1]] == p == p[..|p|];
  }

  lemma ShownIdle(w: World, e: Display)
    requires AllShown(w.display, w.published) && e.obs == w.display.obs && e.displayed == w.display.displayed
    ensures AllShown(e, w.published)
  {
  }

  lemma PrintedAfter(w: World, e: Display, t: nat, pauses: nat)
    requires w.display.Shape() && e.Shape() && OnlyScreen(w.display, e) && AllPrinted(w, t, pauses)
    ensures AllPrinted(w.(display := e), t, pauses)
  {
    hide UartPart;
    UartPartSlot(w.display.obs, e.obs);
    UartPartStart(w.display.obs, e.obs);
  }

  lemma UartPartStart(o: Obs, p: Obs)
    requires UartPart(o) == UartPart(p)
    ensures o.start == p.start
  {
  }

  lemma LastPublished(w: World)
    requires Kept(w)
    ensures w.display.Shape()
    ensures var d := w.display;
      && (d.obs.vgaSlot < 2 ==> Last(d.core.slot[d.obs.vgaSlot].snapshot, w.published))
      && (d.obs.uartSlot < 2 ==> Last(d.core.slot[d.obs.uartSlot].snapshot, w.published))
  {
    hide Sound, SerialKept, BooksKept;
  }

  lemma ProviderPrompt(w: World, i: Input, t: nat, waits: nat, pauses: nat)
    requires Kept(w) && Prompt(w, t, Dispatcher.LastVgaTurn(t), waits, pauses) && waits <= PATIENCE
    requires w.display.core.epoch == t + 1 < 0x8000_0000
    requires w.display.obs.vgaSlot < 2 ==> w.display.obs.start <= t
    requires w.display.t.deadline.armed ==> w.display.t.deadline.start <= Dispatcher.LastVgaTurn(t)
    requires Dispatcher.Turn(t + 1) == VGA ==> Steady(w.display.t.phase, i.screen)
    ensures w.display.Shape()
    ensures var id := Dispatcher.Turn(t + 1);
      Prompt(w.(display := ProviderTurn(w.display, id, i)), t, Dispatcher.LastVgaTurn(t + 1),
             WaitsAfter(w.display, id, i, waits), pauses)
  {
    hide Kept, VgaServed, ScreenPace, Steady, ReportedAll, Dispatcher.LastVgaTurn;
    Dispatcher.LastVgaTurnIs(t + 1);
    if Dispatcher.Turn(t + 1) == VGA {
      ScreenPrompt(w, i, t, Dispatcher.LastVgaTurn(t), waits, pauses);
    } else {
      ReportedAllKeeps(w.display.core, i.reports);
      PaceSame(w.display, ProviderTurn(w.display, Dispatcher.Turn(t + 1), i), Dispatcher.LastVgaTurn(t), waits);
    }
  }

  lemma {:induction false} PiecesBounded(s: Snapshot, k: nat)
    requires |s.ip| == IP_COUNT
    ensures |Pieces(s, k)| <= 47 * k
  {
    hide Piece;
    if k > 0 {
      PiecesBounded(s, k - 1);
    }
  }

  lemma ReportBounded(s: Snapshot)
    requires |s.ip| == IP_COUNT
    ensures |ReportText(s)| <= 987
  {
    PiecesBounded(s, PIECES);
  }

  lemma SerialPrompt(w: World, ready: bool, t: nat, v: nat, waits: nat, pauses: nat)
    requires Kept(w) && Prompt(w, t, v, waits, pauses) && pauses <= SERIAL_PATIENCE
    requires w.display.Shape() && UartFit(w.display) && w.display.core.epoch == t + 1 < 0x8000_0000
    ensures Prompt(SerialTurn(w, ready), t + 1, v, waits, if ready then pauses else pauses + 1)
  {
    hide Kept, ScreenPace, UartServed, Observing.Expired, ReportText, Agree;
    var d, x := w.display, SerialTurn(w, ready);
    KeptAgrees(w);
    SerialTurnKept(w, ready);
    KeptShape(x);
    UartServedKeeps(d.core, d.obs, ready);
    PaceSame(d, x.display, v, waits);
    if d.obs.uartSlot < 2 {
      var s := d.core.slot[d.obs.uartSlot].snapshot;
      SendsReport(w, s, |w.sent|, w.printed, d.obs.start);
      ReportBounded(s);
      NotExpired(w, s, |w.sent|, w.printed, d.obs.start, t + 1);
      SerialSending(w, ready, s, |w.sent|, w.printed, d.obs.start);
      LastPublished(w);
    }
  }

  lemma PublicationPrompt(w: World, t: nat, waits: nat, pauses: nat)
    requires Kept(w) && Prompt(w, t, Dispatcher.LastVgaTurn(t), waits, pauses)
    requires w.display.Shape() && w.display.core.epoch == t < 0x8000_0000
    ensures var x := PublicationTurn(w);
      Prompt(x, t, Dispatcher.LastVgaTurn(t), waits, if x.published != w.published then 0 else pauses)
  {
    hide Kept, Agree, Published, Taken, FreeSlot, Dispatcher.LastVgaTurn, ScreenPace;
    var d, x := w.display, PublicationTurn(w);
    KeptAgrees(w);
    PublicationTurnKept(w);
    KeptShape(x);
    PendingSlots(d.core, d.obs);
    if d.obs.pending.None() {
      PublishedAgrees(d.core, d.obs);
      if Sub(d.core.epoch, w.lastPublication) >= REPORT_PERIOD {
        BegunPace(d, x.display, t, waits);
      }
    } else {
      PaceSame(d, x.display, Dispatcher.LastVgaTurn(t), waits);
    }
  }

  lemma BegunPace(d: Display, e: Display, t: nat, waits: nat)
    requires d.Shape() && e.Shape() && ScreenPace(d, Dispatcher.LastVgaTurn(t), waits) && d.obs.vgaSlot >= 2
      && e.t == d.t
    requires e.obs.vgaSlot < 2 && e.obs.start == t && e.obs.clearWord == e.obs.vgaLine == e.obs.vgaColumn == 0
    ensures ScreenPace(e, Dispatcher.LastVgaTurn(t), waits)
  {
    hide Dispatcher.LastVgaTurn, TurnsLeft;
    TurnsBounded(e);
  }

  // ---------------------------------------------------------------- whole runs

  /** How many of its turns, since it last completed a report, have not brought the screen what it waited for. */
  function Waits(w: World, inputs: seq<Input>): (n: nat)
    requires Kept(w)
  {
    if inputs == [] then 0
    else
      var m := |inputs| - 1;
      var x, y := Run(w, inputs[..m]), Run(w, inputs);
      KeptShape(x);
      if y.display.displayed != x.display.displayed then 0
      else if Dispatcher.Chosen(x.disp) == VGA then Waited(x.display, inputs[m].screen, Waits(w, inputs[..m]))
      else Waits(w, inputs[..m])
  }

  /** In how many passes since the last publication the transmitter was busy. */
  function Pauses(w: World, inputs: seq<Input>): (n: nat)
    requires Kept(w)
  {
    if inputs == [] then 0
    else
      var m := |inputs| - 1;
      if Run(w, inputs).published != Run(w, inputs[..m]).published then 0
      else Pauses(w, inputs[..m]) + if inputs[m].uartReady then 0 else 1
  }

  /** The hardware does not fail, and neither keeps waiting for too long. */
  predicate PromptAfter(w: World, inputs: seq<Input>, m: nat)
    requires Kept(w) && m < |inputs|
  {
    KeptShape(Run(w, inputs[..m]));
    && SteadyPass(Run(w, inputs[..m]), inputs[m])
    && Waits(w, inputs[..m]) <= PATIENCE && Pauses(w, inputs[..m]) <= SERIAL_PATIENCE
  }

  ghost predicate PromptRun(w: World, inputs: seq<Input>)
    requires Kept(w)
  {
    forall m :: 0 <= m < |inputs| ==> PromptAfter(w, inputs, m)
  }

  lemma PassPrompt(w: World, i: Input, t: nat, waits: nat, pauses: nat)
    requires Kept(w) && w.display.Shape() && w.disp.Valid() && OnTime(w, t) && t + 1 < 0x8000_0000
    requires Prompt(w, t, Dispatcher.LastVgaTurn(t), waits, pauses) && waits <= PATIENCE && pauses <= SERIAL_PATIENCE
    requires SteadyPass(w, i)
    ensures var x := MainStep(w, i);
      && Prompt(x, t + 1, Dispatcher.LastVgaTurn(t + 1),
                if x.display.displayed != w.display.displayed then 0
                else if Dispatcher.Chosen(w.disp) == VGA then Waited(w.display, i.screen, waits) else waits,
                if x.published != w.published then 0 else if i.uartReady then pauses else pauses + 1)
  {
    hide Kept, EpochTurn, ProviderTurn, SerialTurn, PublicationTurn, MainStep, UartFit, Sound, Agree, Prompt;
    hide Dispatcher.After, Dispatcher.Chosen, Dispatcher.Advanced, Dispatcher.LastVgaTurn, Steady, Answers;
    KeptShape(w);
    PassParts(w, i);
    PassStarts(w, t);
    var id := Dispatcher.Chosen(w.disp);
    var w1 := w.(display := EpochTurn(w.display));
    EpochTurnKept(w);
    EpochPrompt(w, t, Dispatcher.LastVgaTurn(t), waits, pauses);
    ProviderPrompt(w1, i, t, waits, pauses);
    ProviderTurnKept(w1, id, i);
    var w2 := w1.(display := ProviderTurn(w1.display, id, i));
    AdvancedKept(w2);
    var w3 := w2.(disp := Dispatcher.Advanced(w.disp));
    var k := WaitsAfter(w1.display, id, i, waits);
    PromptDisp(w2, w3, t, Dispatcher.LastVgaTurn(t + 1), k, pauses);
    ProviderEpoch(w1, id, i);
    SerialPrompt(w3, i.uartReady, t, Dispatcher.LastVgaTurn(t + 1), k, pauses);
    SerialTurnKept(w3, i.uartReady);
    SerialRest(w3, i.uartReady);
    RestKeepsShown(w3, i.uartReady);
    PublicationPrompt(SerialTurn(w3, i.uartReady), t + 1, k, if i.uartReady then pauses else pauses + 1);
  }

  lemma PromptDisp(w: World, x: World, t: nat, v: nat, waits: nat, pauses: nat)
    requires Prompt(w, t, v, waits, pauses) && x == w.(disp := x.disp)
    ensures Prompt(x, t, v, waits, pauses)
  {
    hide ScreenPace;
  }

  lemma ProviderEpoch(w: World, id: nat, i: Input)
    requires Kept(w) && w.display.Shape()
    ensures ProviderTurn(w.display, id, i).core.epoch == w.display.core.epoch
  {
    hide Kept, Rendering, VgaServed, ReportedAll, UartPart, Accounted, ShownFrom;
    KeptShape(w);
    if id == VGA {
      VgaServedSettled(w.display, i.screen, 0);
    } else {
      ReportedAllKeeps(w.display.core, i.reports);
    }
  }

  lemma SerialRest(w: World, ready: bool)
    requires Kept(w) && w.display.Shape() && UartFit(w.display)
    ensures var x := SerialTurn(w, ready); x.display.core.epoch == w.display.core.epoch && x.published == w.published
  {
    hide Kept, Agree, UartServed, Observing.Expired;
    KeptAgrees(w);
    UartServedKeeps(w.display.core, w.display.obs, ready);
  }

  lemma PassStarts(w: World, t: nat)
    requires w.display.Shape() && OnTime(w, t)
    ensures Dispatcher.Chosen(w.disp) == Dispatcher.Turn(t + 1)
    ensures var d := EpochTurn(w.display);
      && d.core.epoch == Inc(t) && d.obs == w.display.obs && d.t == w.display.t && d.displayed == w.display.displayed
      && (d.obs.vgaSlot < 2 ==> d.obs.start <= t)
      && (d.t.deadline.armed ==> d.t.deadline.start <= Dispatcher.LastVgaTurn(t))
  {
    hide EpochBegun, Dispatcher.Chosen, Dispatcher.LastVgaTurn;
    EpochKeeps(w.display.core);
  }

  lemma {:induction false} RunPrompt(c: Core, fb: Framebuffer, inputs: seq<Input>)
    requires Initial(c) && Kept(Start(c, fb)) && |inputs| < 0x8000_0000 && PromptRun(Start(c, fb), inputs)
    ensures var w, t := Start(c, fb), |inputs|;
      Prompt(Run(w, inputs), t, Dispatcher.LastVgaTurn(t), Waits(w, inputs), Pauses(w, inputs))
  {
    hide Kept, OnTime, MainStep, Start, Prompt, SteadyPass, Dispatcher.LastVgaTurn, Waited;
    var w := Start(c, fb);
    if inputs == [] {
      StartPrompt(c, fb);
    } else {
      var n := |inputs| - 1;
      var before := inputs[..n];
      PromptBefore(w, inputs);
      RunPrompt(c, fb, before);
      RunOnTime(c, fb, before);
      assert PromptAfter(w, inputs, n);
      KeptShape(Run(w, before));
      PassPrompt(Run(w, before), inputs[n], n, Waits(w, before), Pauses(w, before));
    }
  }

  lemma PromptBefore(w: World, inputs: seq<Input>)
    requires Kept(w) && inputs != [] && PromptRun(w, inputs)
    ensures PromptRun(w, inputs[..|inputs| - 1])
  {
    hide Kept, Run, SteadyPass, Waits, Pauses;
    var before := inputs[..|inputs| - 1];
    forall m | 0 <= m < |before|
      ensures PromptAfter(w, before, m)
    {
      assert before[..m] == inputs[..m];
      assert PromptAfter(w, inputs, m);
    }
  }

  lemma StartPrompt(c: Core, fb: Framebuffer)
    requires Initial(c)
    ensures Prompt(Start(c, fb), 0, Dispatcher.LastVgaTurn(0), 0, 0)
  {
  }

  lemma NoneMissed(w: World, t: nat, pauses: nat)
    requires Kept(w) && AllShown(w.display, w.published) && AllPrinted(w, t, pauses)
    ensures w.display.core.misses == PerObserver(0, 0)
    ensures forall k :: 0 <= k < |w.printed| ==>
      var s := w.published[k]; |s.ip| == IP_COUNT && w.printed[k] == Printed(s, ReportText(s))
  {
    hide Sound, Sent, ReportText;
  }

  lemma LeaseLengths(w: World, t: nat, waits: nat, pauses: nat)
    requires Kept(w) && OnTime(w, t) && Prompt(w, t, Dispatcher.LastVgaTurn(t), waits, pauses)
    ensures w.display.obs.vgaSlot < 2 ==> t - w.display.obs.start <= SCREEN_PACE + 10 * waits
    ensures w.display.obs.uartSlot < 2 ==> t - w.display.obs.start <= 987 + pauses
  {
    hide Kept, TurnsLeft, ReportText;
    var d := w.display;
    if d.obs.vgaSlot < 2 {
      KeptSound(w);
      SomeLeft(d);
    }
    if d.obs.uartSlot < 2 {
      var s := d.core.slot[d.obs.uartSlot].snapshot;
      SendsReport(w, s, |w.sent|, w.printed, d.obs.start);
      ReportBounded(s);
    }
  }

  /** From power-up, in every run shorter than 2^31 epochs in which the display domain does not fail, keeps
      the screen waiting in at most 24838 of its turns for a report, and the transmitter is busy in at most
      261155 passes of a report: every published report but the one under lease has been shown, and has gone
      out whole over the serial line, both in the order of publication; no observer has missed one; a screen
      lease lasts 13750 epochs at most and ten more for every wait, a serial one 987 at most and one more for
      every pause. */
  lemma NothingMissed(c: Core, fb: Framebuffer, inputs: seq<Input>)
    requires Initial(c) && |inputs| < 0x8000_0000
    ensures Kept(Start(c, fb))
    ensures PromptRun(Start(c, fb), inputs) ==>
      var w, t := Run(Start(c, fb), inputs), |inputs|;
      var d, n := w.display, |w.published|;
      && Held(d) <= n && d.displayed == w.published[..n - Held(d)]
      && |w.printed| + HeldUart(d.obs) == n
      && (forall k :: 0 <= k < |w.printed| ==>
            var s := w.published[k]; |s.ip| == IP_COUNT && w.printed[k] == Printed(s, ReportText(s)))
      && d.core.misses == PerObserver(0, 0)
      && (d.obs.vgaSlot < 2 ==> t - d.obs.start <= SCREEN_PACE + 10 * Waits(Start(c, fb), inputs))
      && (d.obs.uartSlot < 2 ==> t - d.obs.start <= 987 + Pauses(Start(c, fb), inputs))
  {
    hide Run, Start, Kept, ScreenPace, OnTime, ReportText, Waits, Pauses;
    InitialKept(c, fb);
    var w0 := Start(c, fb);
    if PromptRun(w0, inputs) {
      RunPrompt(c, fb, inputs);
      RunOnTime(c, fb, inputs);
      NoneMissed(Run(w0, inputs), |inputs|, Pauses(w0, inputs));
      LeaseLengths(Run(w0, inputs), |inputs|, Waits(w0, inputs), Pauses(w0, inputs));
    }
  }
}
