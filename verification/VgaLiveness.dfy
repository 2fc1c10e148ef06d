/** With hardware that answers, a leased report reaches the screen in a bounded number of turns. */
module VgaLiveness {
  import opened Words
  import opened Health
  import opened HealthText
  import opened Observing
  import opened VgaTransaction
  import HealthRuns

  /** What the phase waits for has come: an idle domain, a vertical sync, the end of the swap. */
  predicate Answers(phase: nat, status: bv32) {
    && (phase != ARM ==> !BusyBit(status))
    && (phase == FRESH ==> VsyncBit(status))
    && (phase == DONE ==> DoneBit(status))
  }

  /** The domain is ready and nothing was aborted; where a swap is to be commanded, it still is so. */
  predicate Steady(phase: nat, r: Readings) {
    && ReadyBit(r.status) && !AbortBit(r.status)
    && (phase == FRESH && Answers(phase, r.status) ==>
          !AbortBit(r.recheck) && ReadyBit(r.atSwap) && !BusyBit(r.atSwap))
  }

  /** Neither budget has run out. */
  predicate InBudget(d: Display) {
    !Expired(d.core, d.obs) && !DeadlineDue(d.core.epoch, d.t.deadline)
  }

  /** How many more turns the report needs. */
  function TurnsLeft(d: Display): int
    requires d.Shape() && d.obs.vgaSlot < 2
  {
    var calls := CallsLeft(Lines(d.core.slot[d.obs.vgaSlot].snapshot), d.obs);
    if d.t.phase == READY then (if calls > 0 then calls else 1) + 4
    else if d.t.phase == PREPARE then (if calls > 0 then calls else 1) + 3
    else DONE + 1 - d.t.phase
  }

  /** The lease goes on, and nothing is completed. */
  predicate GoesOn(d: Display, e: Display) {
    e.obs.vgaSlot == d.obs.vgaSlot && e.displayed == d.displayed && e.core == d.core && e.obs.start == d.obs.start
  }

  /** The lease ends as completed, and the deadline is armed afresh. */
  predicate Completes(d: Display, e: Display)
    requires d.Shape() && d.obs.vgaSlot < 2
  {
    && e.displayed == d.displayed + [d.core.slot[d.obs.vgaSlot].snapshot] && e.obs.vgaSlot == NO_SLOT
    && e.t.phase == READY && e.t.deadline.armed
    && e.t.deadline.start == d.core.epoch && e.t.deadline.budget == PROVIDER_BUDGET
  }

  lemma PrepareTurn(d: Display)
    requires Sound(d) && d.Shape() && d.obs.vgaSlot < 2 && !Expired(d.core, d.obs) && d.t.phase == PREPARE
    ensures var e := PrepareServed(d);
      e.Shape() && GoesOn(d, e) && TurnsLeft(e) == TurnsLeft(d) - 1 > 0 && e.t.deadline == d.t.deadline
  {
    hide Agree, Drawn, VgaPrepared, Histories, Counted, Shows, CallsLeft, Expired, Line;
    PrepareStep(d.core, d.obs, d.fb);
    DrawnBounds(Lines(d.core.slot[d.obs.vgaSlot].snapshot), d.obs, d.fb);
  }

  lemma PhaseTurn(d: Display, r: Readings)
    requires Sound(d) && d.Shape() && d.obs.vgaSlot < 2 && !Expired(d.core, d.obs) && Steady(d.t.phase, r)
    ensures var e := PhaseServed(d, r);
      if !Answers(d.t.phase, r.status) then e == d
      else if TurnsLeft(d) == 1 then Completes(d, e)
      else GoesOn(d, e) && TurnsLeft(e) == TurnsLeft(d) - 1 > 0 && e.t.deadline == d.t.deadline
  {
    hide Agree, Drawn, PrepareServed, DoneServed, Abandoned, AbortBit, ReadyBit, BusyBit, VsyncBit, DoneBit;
    hide CallsLeft, Expired, Histories, Counted, Line;
    if d.t.phase == PREPARE {
      PrepareTurn(d);
    } else if d.t.phase == DONE {
      DoneTurn(d, r.status);
    }
  }

  lemma DoneTurn(d: Display, status: bv32)
    requires Sound(d) && d.Shape() && d.t.phase == DONE
    ensures Completes(d, DoneServed(d, status))
  {
    hide Agree, Drawn, ShownWell, InShown, Reported, VgaReleased;
    var c := Reported(d.core, Report(VGA, STEP_PROGRESS, Inc(d.t.generation), status));
    HealthRuns.ReportedKeepsStore(d.core, Report(VGA, STEP_PROGRESS, Inc(d.t.generation), status));
    StoreAgrees(d.core, c, d.obs);
    VgaReleasedAgrees(c, d.obs, true);
  }

  lemma PolledQuiet(d: Display)
    requires d.Shape() && !DeadlineDue(d.core.epoch, d.t.deadline)
    ensures PolledVga(d) == (d, false)
  {
    hide Reported, Accepts;
  }

  lemma ArmedQuiet(d: Display)
    requires d.Shape() && Sound(d)
    ensures var e := Rearmed(d);
      && e.Shape() && Sound(e) && !DeadlineDue(e.core.epoch, e.t.deadline) && GoesOn(d, e)
      && e.obs == d.obs && e.t.phase == d.t.phase && e.t.deadline.armed && e.t.deadline.start == d.core.epoch
  {
    hide Sound;
    RearmedSound(d);
  }

  /** The deadline as a turn that ends neither the lease nor the deadline leaves it. */
  function DeadlineInTurn(d: Display): Deadline {
    if d.t.deadline.armed then d.t.deadline else Rearmed(d).t.deadline
  }

  /** While nothing fails and the budgets last, every turn that brings what its phase waits for brings a
      leased report one turn closer to the screen, and the last one completes its lease; a turn that does
      not changes nothing. */
  lemma TurnsCountDown(d: Display, r: Readings)
    requires Sound(d) && d.Shape() && d.obs.vgaSlot < 2 && InBudget(d) && Steady(d.t.phase, r)
    ensures var e := VgaServed(d, r);
      if !Answers(d.t.phase, r.status) then
        GoesOn(d, e) && TurnsLeft(e) == TurnsLeft(d) && e.t.deadline == DeadlineInTurn(d)
      else if TurnsLeft(d) == 1 then Completes(d, e)
      else GoesOn(d, e) && TurnsLeft(e) == TurnsLeft(d) - 1 > 0 && e.t.deadline == DeadlineInTurn(d)
  {
    hide Sound, PhaseServed, PolledVga, Abandoned, Freed, AbortBit, ReadyBit, BusyBit, VsyncBit, DoneBit;
    hide CallsLeft, Expired, DeadlineDue, Rearmed, Lines;
    var m := if d.t.deadline.armed then d else Rearmed(d);
    ArmedQuiet(d);
    PolledQuiet(m);
    PhaseTurn(m, r);
  }

  /** A new lease needs at most 1375 turns. */
  lemma TurnsBounded(d: Display)
    requires d.Shape() && d.obs.vgaSlot < 2 && d.t.phase <= PREPARE
    requires d.obs.clearWord == d.obs.vgaLine == d.obs.vgaColumn == 0
    ensures 0 < TurnsLeft(d) <= 1375
  {
    hide Lines, CallsLeft;
    CallsBounded(d.core.slot[d.obs.vgaSlot].snapshot, d.obs);
  }
}
