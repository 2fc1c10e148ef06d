/** How long a lease can last, and how far apart publications can be: in every run of the main loop
    shorter than 2^31 epochs. */
module MainTiming {
  import opened Words
  import opened Health
  import opened Observing
  import opened VgaTransaction
  import opened VgaEffects
  import opened VgaTiming
  import opened MainLoop
  import Dispatcher

  /** The longest a screen lease is seen held: its deadline's budget, and less than two rounds. */
  const SCREEN_LEASE: nat := PROVIDER_BUDGET + 18

  predicate LeaseAges(d: Display, last: U32, t: nat) {
    && (d.obs.uartSlot < 2 ==> d.obs.start <= t < d.obs.start + OBSERVER_BUDGET)
    && (d.obs.vgaSlot < 2 ==> d.obs.start <= t <= d.obs.start + SCREEN_LEASE)
    && (d.obs.uartSlot < 2 || d.obs.vgaSlot < 2 ==> d.obs.start == last)
  }

  /** After t passes of the loop. */
  ghost predicate OnTime(w: World, t: nat)
    requires w.display.Shape()
  {
    && w.display.core.epoch == t < 0x8000_0000
    && w.disp == Dispatcher.After(t)
    && Timed(w.display, Dispatcher.LastVgaTurn(t))
    && LeaseAges(w.display, w.lastPublication, t)
    && w.lastPublication <= t <= w.lastPublication + SCREEN_LEASE
  }

  lemma TimedSame(d: Display, e: Display, v: nat)
    requires d.core.Shape() && e.core.Shape() && Timed(d, v) && e.t == d.t
    requires e.core.missed[VGA] == d.core.missed[VGA] && e.obs.start == d.obs.start
    requires e.obs.vgaSlot < 2 ==> d.obs.vgaSlot < 2
    ensures Timed(e, v)
  {
  }

  /** The screen's times bound its lease at every epoch up to the next turn. */
  lemma TimedBoundsLease(d: Display, t: nat)
    requires d.core.Shape() && Timed(d, Dispatcher.LastVgaTurn(t)) && d.obs.vgaSlot < 2
    ensures t <= d.obs.start + SCREEN_LEASE
  {
  }

  lemma EpochTimed(d: Display, v: nat)
    requires d.Shape() && Timed(d, v)
    ensures EpochTurn(d).Shape() && Timed(EpochTurn(d), v)
    ensures EpochTurn(d).core.epoch == Inc(d.core.epoch) && EpochTurn(d).obs == d.obs
  {
    hide EpochBegun, Timed;
    EpochKeeps(d.core);
    TimedSame(d, EpochTurn(d), v);
  }

  lemma ProviderTimed(w: World, i: Input, t: nat)
    requires Kept(w) && w.display.Shape() && t >= 1 && w.display.core.epoch == t < 0x8000_0000
    requires w.disp == Dispatcher.After(t - 1) && Timed(w.display, Dispatcher.LastVgaTurn(t - 1))
    ensures var e := ProviderTurn(w.display, Dispatcher.Chosen(w.disp), i);
      && e.Shape() && Timed(e, Dispatcher.LastVgaTurn(t)) && e.core.epoch == t
      && e.obs.uartSlot == w.display.obs.uartSlot && e.obs.start == w.display.obs.start
      && e.obs.vgaSlot in {w.display.obs.vgaSlot, NO_SLOT}
  {
    hide Kept, VgaServed, ReportedAll, Timed, Accounted, Dispatcher.LastVgaTurn, Rendering;
    KeptShape(w);
    Dispatcher.LastVgaTurnIs(t);
    assert Dispatcher.Chosen(w.disp) == Dispatcher.Turn(t);
    var d := w.display;
    if Dispatcher.Turn(t) == VGA {
      VgaServedTimed(d, Dispatcher.LastVgaTurn(t - 1), t, i.screen);
      VgaServedSettled(d, i.screen, 0);
    } else {
      ReportedAllKeeps(d.core, i.reports);
      TimedSame(d, ProviderTurn(d, Dispatcher.Turn(t), i), Dispatcher.LastVgaTurn(t));
    }
  }

  lemma SerialTimed(w: World, ready: bool, t: nat, v: nat)
    requires Kept(w) && w.display.Shape() && UartFit(w.display) && w.display.core.epoch == t < 0x8000_0000
      && Timed(w.display, v)
    requires w.display.obs.uartSlot < 2 ==> w.display.obs.start <= t
    ensures var e := SerialTurn(w, ready).display;
      && e.Shape() && Timed(e, v) && e.core.epoch == t && e.obs.start == w.display.obs.start
      && e.obs.vgaSlot == w.display.obs.vgaSlot && e.obs.uartSlot in {w.display.obs.uartSlot, NO_SLOT}
      && (e.obs.uartSlot < 2 ==> t < e.obs.start + OBSERVER_BUDGET)
  {
    hide Kept, UartServed, Timed, Agree;
    KeptAgrees(w);
    var d := w.display;
    UartServedKeeps(d.core, d.obs, ready);
    var e := SerialTurn(w, ready).display;
    TimedSame(d, e, v);
  }

  lemma PublicationTimed(w: World, t: nat, v: nat)
    requires Kept(w) && w.display.Shape() && w.display.core.epoch == t < 0x8000_0000 && Timed(w.display, v) && v <= t
    requires LeaseAges(w.display, w.lastPublication, t)
      && w.lastPublication <= t <= w.lastPublication + SCREEN_LEASE + 1
    ensures var x := PublicationTurn(w);
      && x.display.Shape() && Timed(x.display, v) && x.display.core.epoch == t
      && LeaseAges(x.display, x.lastPublication, t) && x.lastPublication <= t <= x.lastPublication + SCREEN_LEASE
  {
    hide Kept, Agree, Published, FreeSlot, Taken, Timed;
    KeptShape(w);
    KeptAgrees(w);
    var d := w.display;
    PendingSlots(d.core, d.obs);
    if Sub(d.core.epoch, w.lastPublication) >= REPORT_PERIOD && d.obs.pending.None() {
      PublishedAgrees(d.core, d.obs);
      PublishedKeeps(d.core);
      var e := PublicationTurn(w).display;
      assert e.Shape() by {
        hide *;
        PublicationTurnKept(w);
        KeptShape(PublicationTurn(w));
      }
      TimedBegun(d, e, v);
    } else {
      TimedSame(d, PublicationTurn(w).display, v);
    }
  }

  /** A new lease starts no earlier than the last turn of the screen. */
  lemma TimedBegun(d: Display, e: Display, v: nat)
    requires d.core.Shape() && e.core.Shape() && Timed(d, v) && e.t == d.t
    requires e.core.missed == d.core.missed && e.obs.start >= v
    ensures Timed(e, v)
  {
    hide TokensKept;
    TokensSame(d.core, e.core, d.t);
  }

  lemma PendingSlots(c: Core, o: Obs)
    requires Agree(c, o)
    ensures o.pending.None() <==> !(o.uartSlot < 2 || o.vgaSlot < 2)
    ensures o.uartSlot <= NO_SLOT && o.vgaSlot <= NO_SLOT
  {
  }

  lemma TokensSame(c: Core, c': Core, t: Transaction)
    requires c.Shape() && c'.Shape() && c'.missed == c.missed && TokensKept(c, t)
    ensures TokensKept(c', t)
  {
  }

  /** One pass keeps the times. */
  lemma StepOnTime(w: World, i: Input, t: nat)
    requires Kept(w) && w.display.Shape() && OnTime(w, t) && t + 1 < 0x8000_0000
    ensures MainStep(w, i).display.Shape() && OnTime(MainStep(w, i), t + 1)
  {
    hide Kept, Timed, EpochTurn, ProviderTurn, SerialTurn, PublicationTurn, Dispatcher.LastVgaTurn, LeaseAges;
    KeptShape(w);
    var n := t + 1;
    EpochTimed(w.display, Dispatcher.LastVgaTurn(t));
    EpochTurnKept(w);
    var w1 := w.(display := EpochTurn(w.display));
    ProviderTimed(w1, i, n);
    ProviderTurnKept(w1, Dispatcher.Chosen(w.disp), i);
    var w2 := w1.(display := ProviderTurn(w1.display, Dispatcher.Chosen(w.disp), i));
    AdvancedKept(w2);
    var w3 := w2.(disp := Dispatcher.Advanced(w.disp));
    SerialTurnKept(w3, i.uartReady);
    var v := Dispatcher.LastVgaTurn(n);
    AgesStart(w.display, w.lastPublication, t);
    SerialTimed(w3, i.uartReady, n, v);
    var w4 := SerialTurn(w3, i.uartReady);
    SerialKeepsRest(w3, i.uartReady);
    AgesAfterTurns(w.display, w4.display, w.lastPublication, n);
    PublicationTimed(w4, n, v);
    PublicationKeepsRest(w4);
    assert MainStep(w, i) == PublicationTurn(w4);
  }

  lemma AgesStart(d: Display, last: U32, t: nat)
    requires LeaseAges(d, last, t)
    ensures d.obs.uartSlot < 2 ==> d.obs.start <= t
  {
  }

  lemma AgesAfterTurns(d: Display, e: Display, last: U32, n: nat)
    requires n >= 1 && LeaseAges(d, last, n - 1) && e.core.Shape() && Timed(e, Dispatcher.LastVgaTurn(n))
    requires e.obs.start == d.obs.start && (e.obs.vgaSlot < 2 ==> d.obs.vgaSlot < 2)
    requires e.obs.uartSlot < 2 ==> d.obs.uartSlot < 2 && n < e.obs.start + OBSERVER_BUDGET
    ensures LeaseAges(e, last, n)
  {
    hide Timed;
    if e.obs.vgaSlot < 2 {
      TimedBoundsLease(e, n);
    }
  }

  lemma SerialKeepsRest(w: World, ready: bool)
    requires w.display.Shape() && UartFit(w.display)
    ensures SerialTurn(w, ready).disp == w.disp && SerialTurn(w, ready).lastPublication == w.lastPublication
  {
  }

  lemma PublicationKeepsRest(w: World)
    requires w.display.Shape()
    ensures PublicationTurn(w).disp == w.disp
  {
  }

  lemma StartOnTime(c: Core, fb: Framebuffer)
    requires Initial(c)
    ensures Start(c, fb).display.Shape() && OnTime(Start(c, fb), 0)
  {
  }

  lemma {:induction false} RunOnTimeFrom(w: World, inputs: seq<Input>, t: nat)
    requires Kept(w) && w.display.Shape() && OnTime(w, t) && t + |inputs| < 0x8000_0000
    ensures var x := Run(w, inputs); x.display.Shape() && OnTime(x, t + |inputs|)
  {
    hide Kept, OnTime, MainStep;
    if inputs != [] {
      var n := |inputs| - 1;
      RunOnTimeFrom(w, inputs[..n], t);
      StepOnTime(Run(w, inputs[..n]), inputs[n], t + n);
    }
  }

  lemma RunOnTime(c: Core, fb: Framebuffer, inputs: seq<Input>)
    requires Initial(c) && Kept(Start(c, fb)) && |inputs| < 0x8000_0000
    ensures var w := Run(Start(c, fb), inputs); w.display.Shape() && OnTime(w, |inputs|)
  {
    hide Kept, OnTime, Start, Run;
    StartOnTime(c, fb);
    RunOnTimeFrom(Start(c, fb), inputs, 0);
  }

  /** After t passes: a serial lease is no older than the observers' budget, a screen lease than the provider's
      budget and two rounds of the dispatcher, and the latest publication than that. */
  predicate LeasesInTime(w: World, t: nat) {
    var o := w.display.obs;
    && w.display.core.epoch == t && w.disp == Dispatcher.After(t)
    && (o.uartSlot < 2 ==> t - o.start < OBSERVER_BUDGET)
    && (o.vgaSlot < 2 ==> t - o.start < PROVIDER_BUDGET + 20)
    && t - w.lastPublication < PROVIDER_BUDGET + 20
  }

  /** In every run shorter than 2^31 epochs, whatever the hardware answers, leases end in time, and so the next
      publication is never further away than that. */
  lemma LeasesEnd(c: Core, fb: Framebuffer, inputs: seq<Input>)
    requires Initial(c) && |inputs| < 0x8000_0000
    ensures Kept(Start(c, fb)) && LeasesInTime(Run(Start(c, fb), inputs), |inputs|)
  {
    hide Kept, Run, Start, Timed;
    InitialKept(c, fb);
    RunOnTime(c, fb, inputs);
  }

  // ---------------------------------------------------------------- the deadline under one lease

  /** One pass that leaves the screen's lease leaves its deadline as it was, or arms it if it is the screen's turn
      and it was not armed. */
  lemma PassDeadline(w: World, i: Input, t: nat)
    requires Kept(w) && w.display.Shape() && OnTime(w, t) && t + 1 < 0x8000_0000
    ensures var x, d := MainStep(w, i), EpochTurn(w.display);
      x.display.obs.vgaSlot < 2 && x.published == w.published ==>
        var u := if Dispatcher.Turn(t + 1) == VGA then Standing(d) else w.display.t;
        x.display.t.deadline == u.deadline && x.display.t.attempt == u.attempt
  {
    hide Kept, Timed, EpochTurn, ProviderTurn, SerialTurn, PublicationTurn, MainStep, UartFit, Sound, Agree, Standing;
    hide Dispatcher.Chosen, Dispatcher.Advanced, Dispatcher.After, Dispatcher.LastVgaTurn, LeaseAges;
    KeptShape(w);
    PassParts(w, i);
    var id := Dispatcher.Chosen(w.disp);
    assert id == Dispatcher.Turn(t + 1) by { TurnIsChosen(w, t); }
    EpochTimed(w.display, Dispatcher.LastVgaTurn(t));
    EpochTurnKept(w);
    var w1 := w.(display := EpochTurn(w.display));
    KeptShape(w1);
    ProviderDeadline(w1.display, id, i, t);
    var w2 := w1.(display := ProviderTurn(w1.display, id, i), disp := Dispatcher.Advanced(w.disp));
    RestLeavesDeadline(w2, i.uartReady);
  }

  lemma TurnIsChosen(w: World, t: nat)
    requires w.display.Shape() && OnTime(w, t) && w.disp.Valid()
    ensures Dispatcher.Chosen(w.disp) == Dispatcher.Turn(t + 1)
  {
    hide Dispatcher.Chosen;
  }

  lemma ProviderDeadline(d: Display, id: nat, i: Input, t: nat)
    requires Rendering(d) && d.Shape() && Timed(d, Dispatcher.LastVgaTurn(t)) && d.core.epoch == t + 1 < 0x8000_0000
    requires id == Dispatcher.Turn(t + 1)
    ensures var e, u := ProviderTurn(d, id, i), if id == VGA then Standing(d) else d.t;
      e.obs.vgaSlot < 2 ==> e.t.deadline == u.deadline && e.t.attempt == u.attempt
  {
    hide Rendering, VgaServed, ReportedAll, Standing, Timed, Dispatcher.LastVgaTurn;
    Dispatcher.LastVgaTurnIs(t + 1);
    if id == VGA {
      NoRearmUnderLease(d, Dispatcher.LastVgaTurn(t), t + 1, i.screen);
    }
  }

  lemma RestLeavesDeadline(w: World, ready: bool)
    requires w.display.Shape() && UartFit(w.display) && Agree(w.display.core, w.display.obs)
    requires SerialTurn(w, ready).display.Shape()
    ensures var x := PublicationTurn(SerialTurn(w, ready));
      x.display.t == w.display.t && (x.published == w.published ==> x.display.obs.vgaSlot == w.display.obs.vgaSlot)
  {
    hide UartServed, Observing.Expired, Published, Taken, FreeSlot, Agree;
    UartServedKeeps(w.display.core, w.display.obs, ready);
  }

  /** The lease held at the start of the run is held after every pass of it. */
  ghost predicate SameLease(w: World, inputs: seq<Input>)
    requires Kept(w)
  {
    forall m :: 0 <= m <= |inputs| ==> HeldStill(w, Run(w, inputs[..m]))
  }

  predicate HeldStill(w: World, x: World) {
    x.display.obs.vgaSlot < 2 && x.published == w.published
  }

  /** The first turn of the screen in the n passes after t. */
  predicate FirstTurn(v: nat, t: nat, n: nat) {
    t < v <= t + n && Dispatcher.Turn(v) == VGA && forall u :: t < u < v ==> Dispatcher.Turn(u) != VGA
  }

  lemma NothingArmed(u: Transaction, t: nat)
    ensures ArmedSince(u, u, t, 0)
  {
  }

  lemma StandingIs(w: World, t: nat)
    requires w.display.Shape() && OnTime(w, t) && t + 1 < 0x8000_0000
    ensures var d, s := EpochTurn(w.display), Standing(EpochTurn(w.display));
      && d.t == w.display.t
      && (if d.t.deadline.armed then s == d.t
          else s.attempt == Inc(d.t.attempt) && s.deadline == Deadline(t + 1, PROVIDER_BUDGET, Inc(d.t.attempt), true))
  {
    hide EpochBegun;
    EpochKeeps(w.display.core);
  }

  /** One more pass after a lease that began with the deadline disarmed. */
  lemma ArmedStep(u: Transaction, y: Transaction, x: Transaction, t: nat, n: nat)
    requires t + n + 1 < 0x8000_0000 && !u.deadline.armed && ArmedSince(u, y, t, n)
    requires if Dispatcher.Turn(t + n + 1) == VGA && !y.deadline.armed then
               x.attempt == Inc(y.attempt) && x.deadline == Deadline(t + n + 1, PROVIDER_BUDGET, Inc(y.attempt), true)
             else x.deadline == y.deadline && x.attempt == y.attempt
    ensures ArmedSince(u, x, t, n + 1)
  {
    hide Dispatcher.Turn;
    if forall v :: t < v <= t + n ==> Dispatcher.Turn(v) != VGA {
      if Dispatcher.Turn(t + n + 1) == VGA {
        assert FirstTurn(t + n + 1, t, n + 1);
      }
    } else {
      var v: nat :| FirstTurn(v, t, n) && v < 0x8000_0000
        && y.deadline == Deadline(v, PROVIDER_BUDGET, Inc(u.attempt), true);
      assert FirstTurn(v, t, n + 1);
    }
  }

  /** From a disarmed transaction: nothing up to the screen's first turn, and the deadline of that turn from then on. */
  ghost predicate ArmedSince(u: Transaction, x: Transaction, t: nat, n: nat) {
    if forall v :: t < v <= t + n ==> Dispatcher.Turn(v) != VGA then x.deadline == u.deadline && x.attempt == u.attempt
    else
      && x.attempt == Inc(u.attempt)
      && exists v: nat ::
           FirstTurn(v, t, n) && v < 0x8000_0000 && x.deadline == Deadline(v, PROVIDER_BUDGET, Inc(u.attempt), true)
  }

  /** Under one lease, in every run, the deadline is armed at most once, and then in the first turn of the screen:
      an armed one stays as it is, a disarmed one stays so up to that turn, and from then on is the one that was
      armed in it, with the next attempt number. */
  lemma {:induction false} ArmedOnce(w: World, inputs: seq<Input>, t: nat)
    requires Kept(w) && w.display.Shape() && OnTime(w, t) && t + |inputs| < 0x8000_0000 && SameLease(w, inputs)
    ensures var x, u := Run(w, inputs).display.t, w.display.t;
      if u.deadline.armed then x.deadline == u.deadline && x.attempt == u.attempt else ArmedSince(u, x, t, |inputs|)
  {
    hide Kept, OnTime, MainStep, Dispatcher.Turn, ArmedSince, Standing;
    assert inputs[..|inputs|] == inputs;
    if inputs == [] {
      NothingArmed(w.display.t, t);
    } else {
      var n := |inputs| - 1;
      var before := inputs[..n];
      assert forall m :: 0 <= m <= n ==> before[..m] == inputs[..m];
      ArmedOnce(w, before, t);
      RunOnTimeFrom(w, before, t);
      var y := Run(w, before);
      KeptShape(y);
      PassDeadline(y, inputs[n], t + n);
      StandingIs(y, t + n);
      assert HeldStill(w, y) && HeldStill(w, Run(w, inputs));
      if !w.display.t.deadline.armed {
        ArmedStep(w.display.t, y.display.t, Run(w, inputs).display.t, t, n);
      }
    }
  }
}
