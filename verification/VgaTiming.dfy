/** Time bounds of the screen transaction: its deadline always fires when due, is never armed again
    under a lease, and so ends every lease. */
module VgaTiming {
  import opened Words
  import opened Health
  import opened Observing
  import opened VgaTransaction
  import HealthRuns
  import HealthText
  import Screen

  /** The tokens of the deadline: the armed one is the latest attempt and none of the missed ones. */
  predicate TokensKept(c: Core, t: Transaction)
    requires c.Shape()
  {
    && (c.missed[VGA].seen ==> c.missed[VGA].token <= t.attempt)
    && (t.deadline.armed ==>
          && t.deadline.token == t.attempt > 0 && t.deadline.budget == PROVIDER_BUDGET
          && (c.missed[VGA].seen ==> c.missed[VGA].token < t.attempt))
  }

  /** After the turn at epoch v and before the next one: the deadline was not yet due at v, and under
      a lease it was armed no later than one round after the lease began. */
  predicate Timed(d: Display, v: nat)
    requires d.core.Shape()
  {
    && d.t.attempt <= v && TokensKept(d.core, d.t)
    && (d.t.deadline.armed ==> d.t.deadline.start <= v < d.t.deadline.start + PROVIDER_BUDGET)
    && (d.obs.vgaSlot < 2 && d.t.deadline.armed ==> d.t.deadline.start <= d.obs.start + 10)
    && (d.obs.vgaSlot < 2 && !d.t.deadline.armed ==> d.obs.start >= v)
  }

  /** During the turn at epoch v, from the moment the deadline is known to be armed. */
  predicate InTurn(d: Display, v: nat)
    requires d.core.Shape()
  {
    && d.core.epoch == v < 0x8000_0000
    && d.t.attempt <= v && TokensKept(d.core, d.t) && d.t.deadline.armed
    && d.t.deadline.start <= v
    && (d.obs.vgaSlot < 2 ==> d.t.deadline.start <= d.obs.start + 10)
  }

  lemma BeginTurn(d: Display, v0: nat, v: nat)
    requires d.core.Shape() && Timed(d, v0) && v0 + 2 <= v <= v0 + 10
    requires d.core.epoch == v < 0x8000_0000
    ensures InTurn(if d.t.deadline.armed then d else Rearmed(d), v)
    ensures (if d.t.deadline.armed then d else Rearmed(d)).t.attempt < v
  {
  }

  /** Failures and progress do not touch the missed tokens. */
  lemma ReportKeepsMissed(c: Core, r: Report)
    requires c.Shape() && (r.id != VGA || r.step != STEP_DEADLINE_MISS)
    ensures Reported(c, r).missed[VGA] == c.missed[VGA] && Reported(c, r).epoch == c.epoch
  {
  }

  /** The deadline fires in a turn exactly when it is due: its report is always accepted. */
  lemma PolledFires(d: Display, v: nat)
    requires d.Shape() && InTurn(d, v)
    ensures var p := PolledVga(d);
      && (p.1 <==> v >= d.t.deadline.start + PROVIDER_BUDGET)
      && p.0.obs == d.obs && p.0.t == d.t.(deadline := p.0.t.deadline) && p.0.core.epoch == v
      && (p.1 ==> TokensKept(p.0.core, p.0.t) && !p.0.t.deadline.armed)
      && (!p.1 ==> p.0 == d)
  {
  }

  lemma FreedTimed(d: Display, v: nat, completed: bool)
    requires Rendering(d) && d.t.attempt <= v && TokensKept(d.core, d.t)
    requires d.t.deadline.armed ==> d.t.deadline.start <= v < d.t.deadline.start + PROVIDER_BUDGET
    ensures Timed(Freed(d, completed), v)
  {
    hide Agree, Drawn, VgaReleased;
    VgaReleasedAgrees(d.core, d.obs, completed);
    RenderingShape(d);
    assert Freed(d, completed).core.missed == d.core.missed;
  }

  lemma FailedInTurn(d: Display, v: nat, detail: bv32)
    requires d.Shape() && Rendering(d) && InTurn(d, v)
    ensures Rendering(Failed(d, detail)) && InTurn(Failed(d, detail), v)
  {
    hide Drawn, Reported;
    HealthRuns.ReportedKeepsStore(d.core, Report(VGA, STEP_FAIL, 0, detail));
    ReportKeepsMissed(d.core, Report(VGA, STEP_FAIL, 0, detail));
  }

  lemma AbandonedTimed(d: Display, v: nat, detail: bv32)
    requires d.Shape() && Rendering(d) && InTurn(d, v) && v < d.t.deadline.start + PROVIDER_BUDGET
    ensures Timed(Abandoned(d, detail), v)
  {
    hide Rendering, Freed, InTurn, Reported;
    RenderingShape(d);
    FailedInTurn(d, v, detail);
    assert InTurn(d, v) && InTurn(Failed(d, detail), v);
    InTurnMeans(d, v);
    InTurnMeans(Failed(d, detail), v);
    FreedTimed(Failed(d, detail), v, false);
  }

  lemma InTurnMeans(d: Display, v: nat)
    requires d.core.Shape() && InTurn(d, v)
    ensures d.core.epoch == v < 0x8000_0000 && d.t.attempt <= v && TokensKept(d.core, d.t) && d.t.deadline.start <= v
    ensures d.t.deadline.armed
  {
  }

  /** Arming right after a release. */
  lemma RearmedTimed(d: Display, v: nat)
    requires d.core.Shape() && d.core.epoch == v < 0x8000_0000 && d.t.attempt < v
    requires TokensKept(d.core, d.t) && d.obs.vgaSlot == NO_SLOT
    ensures Timed(Rearmed(d), v)
  {
  }

  lemma AbortTimed(d: Display, v: nat, detail: bv32)
    requires Rendering(d) && InTurn(d, v) && d.t.attempt < v
    ensures Timed(Rearmed(Abandoned(d, detail)), v)
  {
    hide Rendering, InTurn, Reported, VgaReleased, Timed, Rearmed;
    RenderingShape(d);
    FailedInTurn(d, v, detail);
    var e := Failed(d, detail);
    InTurnMeans(e, v);
    FreedKeeps(e, false);
    RearmedTimed(Abandoned(d, detail), v);
  }

  lemma FreedKeeps(d: Display, completed: bool)
    requires Rendering(d)
    ensures var e := Freed(d, completed);
      && e.core.missed == d.core.missed && e.core.epoch == d.core.epoch && e.obs.vgaSlot == NO_SLOT
      && e.t == d.t.(phase := READY)
      && (TokensKept(d.core, d.t) ==> TokensKept(e.core, e.t))
  {
    hide Agree, Drawn, VgaReleased;
    VgaReleasedAgrees(d.core, d.obs, completed);
  }

  lemma DoneTimed(d: Display, v: nat, status: bv32)
    requires Rendering(d) && InTurn(d, v) && d.t.attempt < v
    ensures Timed(DoneServed(d, status), v)
  {
    hide Drawn, Reported, VgaReleased, Timed, Rearmed, Freed, Agree;
    RenderingShape(d);
    var r := Report(VGA, STEP_PROGRESS, Inc(d.t.generation), status);
    HealthRuns.ReportedKeepsStore(d.core, r);
    ReportKeepsMissed(d.core, r);
    StoreAgrees(d.core, Reported(d.core, r), d.obs);
    var e := d.(core := Reported(d.core, r), t := d.t.(generation := r.token));
    FreedKeeps(e, true);
    RearmedTimed(Freed(e, true), v);
  }

  lemma PreparedTimed(d: Display, v: nat)
    requires Rendering(d) && InTurn(d, v) && v < d.t.deadline.start + PROVIDER_BUDGET && d.t.phase == PREPARE
    ensures Timed(PrepareServed(d), v)
  {
    hide Agree, Drawn, VgaPrepared, VgaReleased, Shows, CallsLeft, HealthText.Lines;
    RenderingShape(d);
    if d.obs.vgaSlot < 2 {
      PrepareStep(d.core, d.obs, d.fb);
      VgaReleasedAgrees(d.core, d.obs, false);
    } else {
      NothingPrepared(d.core, d.obs, d.fb);
    }
  }

  lemma SwapTimed(d: Display, v: nat, r: Readings)
    requires Rendering(d) && InTurn(d, v) && v < d.t.deadline.start + PROVIDER_BUDGET
    ensures Timed(SwapServed(d, r), v)
  {
    hide Rendering, Abandoned, AbortBit, ReadyBit, BusyBit;
    RenderingShape(d);
    AbandonedTimed(d, v, Or(0x60000000, r.recheck));
    AbandonedTimed(d, v, Or(0x62000000, r.recheck));
  }

  lemma PhaseTimed(d: Display, v: nat, r: Readings)
    requires Rendering(d) && InTurn(d, v) && v < d.t.deadline.start + PROVIDER_BUDGET && d.t.attempt < v
    ensures Timed(PhaseServed(d, r), v)
  {
    hide Agree, Drawn, PrepareServed, SwapServed, DoneServed, Abandoned, BusyBit, VsyncBit, DoneBit;
    RenderingShape(d);
    if d.t.phase == PREPARE {
      PreparedTimed(d, v);
    } else if d.t.phase == FRESH {
      SwapTimed(d, v, r);
    } else if d.t.phase == DONE {
      DoneTimed(d, v, r.status);
    }
  }

  lemma ArmedTimed(d: Display, v: nat, r: Readings)
    requires Rendering(d) && InTurn(d, v) && d.t.attempt < v
    ensures Timed(ArmedServed(d, r), v)
  {
    hide Rendering, PhaseServed, Abandoned, AbortBit, ReadyBit, Freed, PolledVga, Rearmed, InTurn, TokensKept, Timed;
    RenderingShape(d);
    InTurnMeans(d, v);
    AbortTimed(d, v, Or(0x60000000, r.status));
    PolledFires(d, v);
    var p := PolledVga(d);
    if p.1 {
      PolledRendering(d);
      FreedTimed(p.0, v, false);
    } else {
      AbandonedTimed(d, v, Or(0x61000000, r.status));
      PhaseTimed(d, v, r);
      StillTimed(d, v);
    }
  }

  lemma PolledRendering(d: Display)
    requires Rendering(d)
    ensures Rendering(PolledVga(d).0)
  {
    hide Drawn, Reported, Accepts;
    HealthRuns.ReportedKeepsStore(d.core, Report(VGA, STEP_DEADLINE_MISS, d.t.deadline.token,
      Bits(d.t.deadline.budget)));
  }

  lemma StillTimed(d: Display, v: nat)
    requires d.core.Shape() && InTurn(d, v) && v < d.t.deadline.start + PROVIDER_BUDGET
    ensures Timed(d, v)
  {
  }

  /** One turn, at most ten epochs after the last one, keeps the times. */
  lemma VgaServedTimed(d: Display, v0: nat, v: nat, r: Readings)
    requires Rendering(d) && Timed(d, v0) && v0 + 2 <= v <= v0 + 10
    requires d.core.epoch == v < 0x8000_0000
    ensures Timed(VgaServed(d, r), v)
  {
    hide Drawn, Agree, ArmedServed, Timed, InTurn;
    RenderingShape(d);
    BeginTurn(d, v0, v);
    ArmedTimed(if d.t.deadline.armed then d else Rearmed(d), v, r);
  }

  // ---------------------------------------------------------------- never armed again under a lease

  lemma PrepareKeepsDeadline(d: Display)
    requires d.Shape()
    ensures PrepareServed(d).obs.vgaSlot < 2 ==>
      PrepareServed(d).t.deadline == d.t.deadline && PrepareServed(d).t.attempt == d.t.attempt
  {
    hide ChunkWritten, Cleared, Released;
    ChunkKeepsAll(d);
  }

  lemma ChunkKeepsAll(d: Display)
    ensures forall line :: ChunkWritten(d.core, d.obs, d.fb, line).result >= 0
  {
    hide Put, Screen.Chunk;
  }

  lemma PhaseKeepsDeadline(d: Display, r: Readings)
    requires d.Shape()
    ensures var e := PhaseServed(d, r); e.obs.vgaSlot < 2 ==> e.t.deadline == d.t.deadline && e.t.attempt == d.t.attempt
  {
    hide PrepareServed, Freed, BusyBit, VsyncBit, DoneBit, AbortBit, ReadyBit;
    PrepareKeepsDeadline(d);
  }

  /** The deadline and the attempt as a turn that leaves the lease leaves them: armed in this turn if they were
      not, and otherwise as they were. */
  function Standing(d: Display): Transaction {
    if d.t.deadline.armed then d.t else Rearmed(d).t
  }

  lemma ArmedNotAgain(d: Display, v: nat, r: Readings)
    requires Rendering(d) && d.Shape() && InTurn(d, v)
    ensures var e := ArmedServed(d, r);
      e.obs.vgaSlot < 2 ==> e.t.deadline == d.t.deadline && e.t.attempt == d.t.attempt
  {
    hide PhaseServed, PolledVga, Freed, Abandoned, AbortBit, ReadyBit, InTurn, Rendering;
    PolledFires(d, v);
    PhaseKeepsDeadline(d, r);
  }

  /** A turn that leaves the lease arms the deadline if it was not armed, and not again if it was. */
  lemma NoRearmUnderLease(d: Display, v0: nat, v: nat, r: Readings)
    requires Rendering(d) && Timed(d, v0) && v0 + 2 <= v <= v0 + 10 && d.core.epoch == v < 0x8000_0000
    ensures d.Shape()
    ensures var e := VgaServed(d, r);
      e.obs.vgaSlot < 2 ==> e.t.deadline == Standing(d).deadline && e.t.attempt == Standing(d).attempt
  {
    hide Drawn, Agree, ArmedServed, Timed, InTurn;
    RenderingShape(d);
    BeginTurn(d, v0, v);
    ArmedNotAgain(if d.t.deadline.armed then d else Rearmed(d), v, r);
  }
}
