/** When the main loop publishes: exactly when the period has passed and neither observer holds a report. */
module MainPublication {
  import opened Words
  import opened Health
  import opened Observing
  import opened VgaTransaction
  import opened VgaEffects
  import opened MainLoop
  import opened MainBus
  import MainTiming
  import HealthRuns
  import Dispatcher

  /** The state in which a pass decides about publishing. */
  function BeforePublication(w: World, i: Input): (y: World)
    requires Kept(w)
    ensures Kept(y)
  {
    var x := BeforeSerial(w, i);
    KeptShape(x);
    SerialTurnKept(x, i.uartReady);
    SerialTurn(x, i.uartReady)
  }

  predicate Due(y: World) {
    Sub(y.display.core.epoch, y.lastPublication) >= 32
  }

  predicate NoneHeld(y: World) {
    y.display.obs.vgaSlot >= 2 && y.display.obs.uartSlot >= 2
  }

  /** Both observers hold this snapshot, and it is the latest publication. */
  ghost predicate HandsOut(x: World, s: Snapshot)
    requires x.display.Shape()
  {
    var o := x.display.obs;
    && o.vgaSlot == o.uartSlot < 2 && x.display.core.slot[o.vgaSlot] == Slot(s, Readers(true, true))
    && x.lastPublication == s.epoch
  }

  /** One publication turn: it publishes exactly when due and nothing is held, and counts the backlog exactly when
      due and something is. */
  lemma TurnPublishes(y: World)
    requires Kept(y)
    ensures y.display.Shape()
    ensures var w := PublicationTurn(y);
      && w.display.Shape()
      && (if Due(y) && NoneHeld(y) then
            w.published == y.published + [Taken(y.display.core)] && HandsOut(w, Taken(y.display.core))
          else
            && w.published == y.published && w.lastPublication == y.lastPublication
            && w.display == y.display.(core := w.display.core))
      && w.display.core.backlog ==
           if Due(y) && !NoneHeld(y) then Inc(y.display.core.backlog) else y.display.core.backlog
  {
    hide Kept, Agree, Taken, Inc;
    KeptShape(y);
    KeptAgrees(y);
    MainTiming.PendingSlots(y.display.core, y.display.obs);
    PublicationTurnKept(y);
    KeptShape(PublicationTurn(y));
    if Due(y) && NoneHeld(y) {
      PublishedAgrees(y.display.core, y.display.obs);
      SlotTaken(y.display.core);
    }
  }

  lemma SlotTaken(c: Core)
    requires c.Shape() && FreeSlot(c) < 2
    ensures Published(c).slot[FreeSlot(c)] == Slot(Taken(c), Readers(true, true))
    ensures Published(c).backlog == c.backlog && Taken(c).epoch == c.epoch
  {
    hide StateMask, Signature;
  }

  /** The other turns of a pass leave publications and backlog alone. */
  lemma PassLeaves(w: World, i: Input)
    requires Kept(w)
    ensures w.display.Shape()
    ensures var y := BeforePublication(w, i);
      && y.display.Shape() && MainStep(w, i) == PublicationTurn(y)
      && y.published == w.published && y.lastPublication == w.lastPublication
      && y.display.core.backlog == w.display.core.backlog
  {
    hide Kept, EpochTurn, ProviderTurn, SerialTurn, PublicationTurn, MainStep, UartFit, BeforeSerial, OnlyScreen;
    hide Dispatcher.Chosen, Dispatcher.Advanced;
    KeptShape(w);
    PassHalves(w, i);
    var x := BeforeSerial(w, i);
    ProviderLeaves(w, i);
    SerialLeaves(x, i.uartReady);
  }

  lemma SerialLeaves(x: World, ready: bool)
    requires x.display.Shape() && UartFit(x.display)
    ensures var y := SerialTurn(x, ready);
      && y.published == x.published && y.lastPublication == x.lastPublication
      && y.display.core.backlog == x.display.core.backlog
  {
    hide Filled, Expired;
  }

  lemma {:induction false} ReportsLeave(c: Core, rs: seq<OtherReport>)
    requires c.Shape()
    ensures ReportedAll(c, rs).backlog == c.backlog
  {
    if rs != [] {
      var n := |rs| - 1;
      ReportsLeave(c, rs[..n]);
      HealthRuns.ReportedKeepsStore(ReportedAll(c, rs[..n]), rs[n]);
    }
  }

  lemma ProviderLeaves(w: World, i: Input)
    requires Kept(w)
    ensures w.display.Shape()
    ensures var x := BeforeSerial(w, i);
      && x.published == w.published && x.lastPublication == w.lastPublication
      && x.display.core.backlog == w.display.core.backlog
  {
    hide Kept, VgaServed, ReportedAll, EpochBegun, Dispatcher.Chosen, Dispatcher.Advanced;
    KeptShape(w);
    EpochTurnKept(w);
    var w1 := w.(display := EpochTurn(w.display));
    KeptShape(w1);
    EpochLeaves(w.display.core);
    BeforeSerialIs(w, i);
    if Dispatcher.Chosen(w.disp) == VGA {
      ScreenLeaves(w1.display, i.screen);
    } else {
      ReportsLeave(w1.display.core, i.reports);
    }
  }

  lemma EpochLeaves(c: Core)
    requires c.Shape()
    ensures EpochBegun(c).backlog == c.backlog
  {
    hide Reported;
    var e := Inc(c.epoch);
    HealthRuns.ReportedKeepsStore(c.(epoch := e), Report(SYSTEM_SERVICE, STEP_PROGRESS, e, 0));
  }

  lemma ScreenLeaves(d: Display, r: Readings)
    requires d.Shape() && Rendering(d)
    ensures VgaServed(d, r).core.backlog == d.core.backlog
  {
    hide VgaServed, Rendering;
    VgaServedSettled(d, r, 0);
  }

  lemma BeforeSerialIs(w: World, i: Input)
    requires Kept(w) && w.display.Shape() && EpochTurn(w.display).Shape() && w.disp.Valid()
    ensures BeforeSerial(w, i) ==
      w.(display := ProviderTurn(EpochTurn(w.display), Dispatcher.Chosen(w.disp), i),
         disp := Dispatcher.Advanced(w.disp))
  {
    hide Kept, EpochTurn, ProviderTurn, Dispatcher.Chosen, Dispatcher.Advanced;
  }

  // ---------------------------------------------------------------- whole runs

  /** The passes that were due for a publication but found a report still held. */
  function Missed(w: World, inputs: seq<Input>): nat
    requires Kept(w)
  {
    if inputs == [] then 0
    else
      var n := |inputs| - 1;
      var y := BeforePublication(Run(w, inputs[..n]), inputs[n]);
      Missed(w, inputs[..n]) + if Due(y) && !NoneHeld(y) then 1 else 0
  }

  /** Publications are at least the period apart, the first one at least that after power-up, and the backlog
      counts the passes that would have published but for a report still held. */
  ghost predicate Spaced(w: World, backlog: nat) {
    && (forall k :: 0 < k < |w.published| ==> Sub(w.published[k].epoch, w.published[k - 1].epoch) >= 32)
    && (w.published != [] ==> w.published[0].epoch >= 32)
    && w.lastPublication == (if w.published == [] then 0 else w.published[|w.published| - 1].epoch)
    && w.display.core.backlog == Low32(backlog)
  }

  lemma SpacedStep(w: World, i: Input, n: nat)
    requires Kept(w) && Spaced(w, n)
    ensures var y := BeforePublication(w, i);
      Spaced(MainStep(w, i), n + if Due(y) && !NoneHeld(y) then 1 else 0)
  {
    hide Kept, MainStep, PublicationTurn, BeforePublication, Taken, Low32, Inc;
    PassLeaves(w, i);
    var y := BeforePublication(w, i);
    TurnPublishes(y);
    IncOfLow(n);
    TakenEpoch(y.display.core);
  }

  lemma TakenEpoch(c: Core)
    requires c.Shape()
    ensures Taken(c).epoch == c.epoch
  {
    hide StateMask, Signature;
  }

  lemma {:induction false} RunSpaced(w: World, inputs: seq<Input>)
    requires Kept(w) && Spaced(w, 0)
    ensures Spaced(Run(w, inputs), Missed(w, inputs))
  {
    hide Kept, MainStep, BeforePublication, Spaced, Due, NoneHeld;
    if inputs != [] {
      var n := |inputs| - 1;
      RunSpaced(w, inputs[..n]);
      SpacedStep(Run(w, inputs[..n]), inputs[n], Missed(w, inputs[..n]));
    }
  }

  lemma SpacedInEveryRun(c: Core, fb: Framebuffer, inputs: seq<Input>)
    requires Initial(c)
    ensures Kept(Start(c, fb))
    ensures Spaced(Run(Start(c, fb), inputs), Missed(Start(c, fb), inputs))
  {
    hide Kept, Run, Missed;
    InitialKept(c, fb);
    RunSpaced(Start(c, fb), inputs);
  }
}
