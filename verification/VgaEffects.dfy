/** What a turn of the screen transaction leaves alone, and how it settles the lease. */
module VgaEffects {
  import opened Words
  import opened Health
  import opened HealthText
  import opened Observing
  import opened VgaTransaction
  import HealthRuns
  import Screen

  /** The fields of the observers that the screen does not use. */
  function UartPart(o: Obs): Obs {
    o.(vgaSlot := NO_SLOT, pending := Readers(false, false), clearWord := 0, vgaLine := 0, vgaColumn := 0)
  }

  /** The serial observer, the snapshots, the epoch and the publication state are untouched; a lease is
      at most given up. */
  predicate OnlyScreen(d: Display, e: Display)
    requires d.Shape() && e.Shape()
  {
    && UartPart(e.obs) == UartPart(d.obs)
    && e.obs.vgaSlot in {d.obs.vgaSlot, NO_SLOT}
    && (forall i :: 0 <= i < 2 ==> e.core.slot[i].snapshot == d.core.slot[i].snapshot)
    && e.core.epoch == d.core.epoch && e.core.publicationId == d.core.publicationId && e.core.backlog == d.core.backlog
    && e.core.misses.uart == d.core.misses.uart
  }

  function Held(d: Display): nat {
    if d.obs.vgaSlot < 2 then 1 else 0
  }

  /** Of n leases each has been completed, missed, or is still held. */
  predicate Accounted(d: Display, n: nat)
    requires d.core.Shape()
  {
    |d.displayed| + Held(d) <= n && d.core.misses.vga == Low32(n - |d.displayed| - Held(d))
  }

  /** No new swap, or one of the snapshot under lease. */
  predicate ShownFrom(d: Display, e: Display)
    requires d.Shape()
  {
    e.shown == d.shown || (d.Current().Some? && e.shown == d.shown + [Shown(d.Current(), d.fb)])
  }

  predicate Settled(d: Display, e: Display, n: nat) {
    && d.Shape() && e.Shape() && OnlyScreen(d, e)
    && (Accounted(d, n) ==> Accounted(e, n))
    && ShownFrom(d, e)
  }

  lemma RearmedSettled(d: Display, n: nat)
    requires d.Shape()
    ensures Rearmed(d).Shape() && Settled(d, Rearmed(d), n)
  {
  }

  lemma FailedSettled(d: Display, detail: bv32, n: nat)
    requires d.Shape()
    ensures Settled(d, Failed(d, detail), n) && Failed(d, detail).Current() == d.Current()
    ensures Failed(d, detail).shown == d.shown && Failed(d, detail).fb == d.fb
  {
    hide Reported;
    HealthRuns.ReportedKeepsStore(d.core, Report(VGA, STEP_FAIL, 0, detail));
  }

  lemma MissedOne(n: nat, k: nat)
    requires k < n
    ensures Inc(Low32(n - k - 1)) == Low32(n - k)
  {
    IncOfLow(n - k - 1);
  }

  lemma FreedSettled(d: Display, completed: bool, n: nat)
    requires d.Shape() && Agree(d.core, d.obs)
    ensures Settled(d, Freed(d, completed), n) && Freed(d, completed).shown == d.shown
  {
    hide Low32;
    if Accounted(d, n) && d.obs.vgaSlot < 2 {
      MissedOne(n, |d.displayed|);
    }
  }

  lemma Chain(d: Display, e: Display, f: Display, n: nat)
    requires Settled(d, e, n) && Settled(e, f, n)
    requires e.shown == d.shown && (f.shown == e.shown || (e.Current() == d.Current() && e.fb == d.fb))
    ensures Settled(d, f, n)
  {
    hide Accounted;
  }

  lemma AbandonedSettled(d: Display, detail: bv32, n: nat)
    requires d.Shape() && Agree(d.core, d.obs)
    ensures Settled(d, Abandoned(d, detail), n) && Abandoned(d, detail).shown == d.shown
  {
    hide Reported, Settled, Freed;
    FailedSettled(d, detail, n);
    HealthRuns.ReportedKeepsStore(d.core, Report(VGA, STEP_FAIL, 0, detail));
    StoreAgrees(d.core, Failed(d, detail).core, d.obs);
    FreedSettled(Failed(d, detail), false, n);
    Chain(d, Failed(d, detail), Abandoned(d, detail), n);
  }

  lemma PreparedSettled(d: Display, n: nat)
    requires d.Shape() && Agree(d.core, d.obs)
    ensures Settled(d, PrepareServed(d), n) && PrepareServed(d).shown == d.shown
  {
    hide Agree, Line, Low32, ChunkWritten, Cleared;
    ChunkSettles(d);
    FreedSettled(d, false, n);
  }

  /** Writing a chunk only moves the cursor. */
  lemma ChunkSettles(d: Display)
    ensures forall line :: var p := ChunkWritten(d.core, d.obs, d.fb, line);
      p.core == d.core && UartPart(p.obs) == UartPart(d.obs) && p.obs.vgaSlot == d.obs.vgaSlot && p.result >= 0
  {
    hide Put, Screen.Chunk;
  }

  lemma DoneSettled(d: Display, status: bv32, n: nat)
    requires d.Shape() && Agree(d.core, d.obs)
    ensures Settled(d, DoneServed(d, status), n) && DoneServed(d, status).shown == d.shown
  {
    hide Reported, Freed, Agree, Accounted, DeadlineBegun;
    var r := Report(VGA, STEP_PROGRESS, Inc(d.t.generation), status);
    HealthRuns.ReportedKeepsStore(d.core, r);
    StoreAgrees(d.core, Reported(d.core, r), d.obs);
    var e := d.(core := Reported(d.core, r), t := d.t.(generation := r.token));
    CoreSettled(d, e, n);
    FreedSettled(e, true, n);
    Chain(d, e, Freed(e, true), n);
    RearmedSettled(Freed(e, true), n);
    Chain(d, Freed(e, true), DoneServed(d, status), n);
  }

  lemma CoreSettled(d: Display, e: Display, n: nat)
    requires d.Shape() && e == d.(core := e.core, t := e.t) && e.core.Shape() && e.core.slot == d.core.slot
    requires e.core.misses == d.core.misses && e.core.epoch == d.core.epoch && e.core.backlog == d.core.backlog
      && e.core.publicationId == d.core.publicationId
    ensures Settled(d, e, n)
  {
  }

  lemma SwapSettled(d: Display, r: Readings, n: nat)
    requires d.Shape() && Agree(d.core, d.obs) && d.obs.vgaSlot < 2
    ensures Settled(d, SwapServed(d, r), n)
  {
    hide Agree, Abandoned, AbortBit, BusyBit, ReadyBit;
    AbandonedSettled(d, Or(0x60000000, r.recheck), n);
    AbandonedSettled(d, Or(0x62000000, r.recheck), n);
  }

  lemma PhaseSettled(d: Display, r: Readings, n: nat)
    requires d.Shape() && Rendering(d)
    ensures Settled(d, PhaseServed(d, r), n)
  {
    hide Agree, Abandoned, SwapServed, DoneServed, PrepareServed, Drawn, BusyBit, VsyncBit, DoneBit;
    if d.t.phase == PREPARE {
      PreparedSettled(d, n);
    } else if d.t.phase == FRESH {
      SwapSettled(d, r, n);
    } else if d.t.phase == DONE {
      DoneSettled(d, r.status, n);
    }
  }

  lemma PolledSettled(d: Display, n: nat)
    requires d.Shape() && Rendering(d)
    ensures var e := PolledVga(d).0;
      Settled(d, e, n) && Rendering(e) && e.shown == d.shown && e.Current() == d.Current() && e.fb == d.fb
  {
    hide Reported, Accepts, Drawn;
    HealthRuns.ReportedKeepsStore(d.core, Report(VGA, STEP_DEADLINE_MISS, d.t.deadline.token,
      Bits(d.t.deadline.budget)));
    CoreSettled(d, PolledVga(d).0, n);
  }

  lemma ArmedSettled(d: Display, r: Readings, n: nat)
    requires d.Shape() && Rendering(d)
    ensures Settled(d, ArmedServed(d, r), n)
  {
    hide Drawn, PhaseServed, Abandoned, Freed, PolledVga, AbortBit, ReadyBit, Rearmed, Settled;
    if AbortBit(r.status) {
      var e := Abandoned(d, Or(0x60000000, r.status));
      AbandonedSettled(d, Or(0x60000000, r.status), n);
      RearmedSettled(e, n);
      assert Rearmed(e).shown == e.shown by {
        RearmedShows(e);
      }
      Chain(d, e, Rearmed(e), n);
    } else {
      var p := PolledVga(d).0;
      PolledSettled(d, n);
      FreedSettled(p, false, n);
      AbandonedSettled(p, Or(0x61000000, r.status), n);
      PhaseSettled(p, r, n);
      CoreSettled(p, p, n);
      Chain(d, p, ArmedServed(d, r), n);
    }
  }

  lemma RearmedShows(d: Display)
    ensures Rearmed(d) == d.(t := Rearmed(d).t) && Rearmed(d).t.phase == d.t.phase
  {
  }

  lemma VgaServedSettled(d: Display, r: Readings, n: nat)
    requires d.Shape() && Rendering(d)
    ensures Settled(d, VgaServed(d, r), n)
  {
    hide Settled, Rearmed, ArmedServed, Drawn, Agree;
    RearmedShows(d);
    RearmedSettled(d, n);
    ArmedSettled(if d.t.deadline.armed then d else Rearmed(d), r, n);
    if !d.t.deadline.armed {
      Chain(d, Rearmed(d), VgaServed(d, r), n);
    }
  }
}
