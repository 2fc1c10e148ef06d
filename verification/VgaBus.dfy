/** What the screen's provider does on the bus, access by access, and what therefore stands behind each of its
    heartbeats and releases. */
module VgaBus {
  import opened Words
  import opened Health
  import opened HealthText
  import opened Observing
  import opened VgaTransaction
  import opened VgaEffects
  import HealthRuns

  /** A status read and its answer; a write that clears events; the write that commands a swap; a call of the
      renderer; the report of a heartbeat; and a release of a lease with its result. */
  datatype Event = Read(status: bv32) | Clear(mask: bv32) | Swap | Draw | Beat | Release(held: bool)

  const SYNC_AND_DONE: bv32 := 3
  const DONE_AND_ABORT: bv32 := 10
  const ALL_EVENTS: bv32 := 11

  // ---------------------------------------------------------------- the accesses of a turn

  /** The release hook. */
  function ReleaseEvents(d: Display): seq<Event>
    requires d.Shape()
  {
    if d.obs.vgaSlot == NO_SLOT then [] else [Release(Leased(d.core, d.obs.vgaSlot, Vga))]
  }

  function PrepareEvents(d: Display): seq<Event>
    requires d.Shape()
  {
    [Draw] + if d.obs.vgaSlot < 2 && Expired(d.core, d.obs) then ReleaseEvents(d) else []
  }

  function SwapEvents(d: Display, r: Readings): seq<Event>
    requires d.Shape()
  {
    if AbortBit(r.recheck) then [Read(r.recheck)] + ReleaseEvents(Failed(d, Or(0x60000000, r.recheck)))
    else if !ReadyBit(r.atSwap) || BusyBit(r.atSwap) then
      [Read(r.recheck), Read(r.atSwap)] + ReleaseEvents(Failed(d, Or(0x62000000, r.recheck)))
    else [Read(r.recheck), Read(r.atSwap), Clear(DONE_AND_ABORT), Swap]
  }

  function DoneEvents(d: Display, status: bv32): seq<Event>
    requires d.Shape()
  {
    var g := Inc(d.t.generation);
    HealthRuns.ReportedKeepsStore(d.core, Report(VGA, STEP_PROGRESS, g, status));
    [Beat, Clear(SYNC_AND_DONE)]
    + ReleaseEvents(d.(core := Reported(d.core, Report(VGA, STEP_PROGRESS, g, status)), t := d.t.(generation := g)))
  }

  function PhaseEvents(d: Display, r: Readings): seq<Event>
    requires d.Shape()
  {
    if d.t.phase == READY then []
    else if d.t.phase == PREPARE then if BusyBit(r.status) then [] else PrepareEvents(d)
    else if d.t.phase == ARM then [Clear(SYNC_AND_DONE)]
    else if d.t.phase == FRESH then if !VsyncBit(r.status) || BusyBit(r.status) then [] else SwapEvents(d, r)
    else if d.t.phase == DONE then if !DoneBit(r.status) || BusyBit(r.status) then [] else DoneEvents(d, r.status)
    else ReleaseEvents(Failed(d, 0x6001))
  }

  function ArmedEvents(d: Display, r: Readings): seq<Event>
    requires d.Shape()
  {
    if AbortBit(r.status) then [Clear(ALL_EVENTS)] + ReleaseEvents(Failed(d, Or(0x60000000, r.status)))
    else
      var p := PolledVga(d);
      if p.1 then ReleaseEvents(p.0)
      else if !ReadyBit(r.status) then
        if d.t.phase != READY then ReleaseEvents(Failed(p.0, Or(0x61000000, r.status))) else []
      else PhaseEvents(p.0, r)
  }

  /** The accesses of one turn, in order. */
  function TurnEvents(d: Display, r: Readings): seq<Event>
    requires d.Shape()
  {
    [Read(r.status)] + ArmedEvents(if d.t.deadline.armed then d else Rearmed(d), r)
  }

  // ---------------------------------------------------------------- what stands behind a heartbeat

  /** A reading of a ready domain with no aborted operation. */
  predicate Quiet(e: Event) {
    e.Read? && ReadyBit(e.status) && !AbortBit(e.status)
  }

  predicate AllQuiet(bus: seq<Event>, from: nat, to: nat) {
    to <= |bus| && forall j :: from <= j < to ==> Quiet(bus[j])
  }

  /** The events were cleared at a, and nothing but quiet readings came between that and k. */
  predicate Cleared(bus: seq<Event>, a: nat, k: nat) {
    a < k <= |bus| && bus[a] == Clear(SYNC_AND_DONE) && AllQuiet(bus, a + 1, k)
  }

  /** After the clearing at a, the reading at b shows a vertical sync; then no abort, a domain ready for the
      swap, the clearing of the old completion, and the swap. */
  predicate Commanded(bus: seq<Event>, a: nat, b: nat) {
    && b + 4 < |bus| && Cleared(bus, a, b)
    && Quiet(bus[b]) && VsyncBit(bus[b].status) && !BusyBit(bus[b].status)
    && bus[b + 1].Read? && !AbortBit(bus[b + 1].status)
    && bus[b + 2].Read? && ReadyBit(bus[b + 2].status) && !BusyBit(bus[b + 2].status)
    && bus[b + 3] == Clear(DONE_AND_ABORT) && bus[b + 4] == Swap
  }

  /** After that swap, nothing but quiet readings up to k, the last of which shows its completion. */
  predicate CompletedAt(bus: seq<Event>, b: nat, k: nat) {
    && b + 5 < k <= |bus| && AllQuiet(bus, b + 5, k)
    && DoneBit(bus[k - 1].status) && !BusyBit(bus[k - 1].status)
  }

  ghost predicate Vouched(bus: seq<Event>, k: nat) {
    exists a: nat, b: nat :: Commanded(bus, a, b) && CompletedAt(bus, b, k)
  }

  /** What the bus has seen by the end of a turn. */
  ghost predicate Traced(d: Display, bus: seq<Event>) {
    && (d.t.phase == FRESH ==> exists a: nat :: Cleared(bus, a, |bus|))
    && (d.t.phase == DONE ==> exists a: nat, b: nat :: Commanded(bus, a, b) && AllQuiet(bus, b + 5, |bus|))
    && (forall k :: 0 <= k < |bus| && bus[k] == Beat ==> Vouched(bus, k))
    && multiset(bus)[Beat] == |d.displayed|
  }

  // ---------------------------------------------------------------- one turn

  /** The ways a turn can go, as far as the two phases that wait for events are concerned. */
  ghost predicate TurnShape(d: Display, r: Readings, e: Display, es: seq<Event>) {
    if e.t.phase == FRESH then
      e.displayed == d.displayed
      && (if d.t.phase == ARM then es == [Read(r.status), Clear(SYNC_AND_DONE)]
          else d.t.phase == FRESH && es == [Read(r.status)] && Quiet(es[0]))
    else if e.t.phase == DONE then
      e.displayed == d.displayed && es != [] && Quiet(es[0])
      && (if d.t.phase == FRESH then Commands(es) else d.t.phase == DONE && es == [Read(r.status)])
    else if e.displayed == d.displayed then Beat !in es
    else
      d.t.phase == DONE && |e.displayed| == |d.displayed| + 1
      && |es| >= 3 && Quiet(es[0]) && DoneBit(es[0].status) && !BusyBit(es[0].status)
      && es[1] == Beat && Beat !in es[2..]
  }

  predicate Commands(es: seq<Event>) {
    && |es| == 5 && Quiet(es[0]) && VsyncBit(es[0].status) && !BusyBit(es[0].status)
    && es[1].Read? && !AbortBit(es[1].status)
    && es[2].Read? && ReadyBit(es[2].status) && !BusyBit(es[2].status)
    && es[3] == Clear(DONE_AND_ABORT) && es[4] == Swap
  }

  lemma FailedSame(d: Display, detail: bv32)
    requires d.Shape()
    ensures var e := Failed(d, detail);
      e.obs == d.obs && e.t == d.t && e.displayed == d.displayed
      && e.core.slot == d.core.slot
  {
    hide Reported;
    HealthRuns.ReportedKeepsStore(d.core, Report(VGA, STEP_FAIL, 0, detail));
  }

  lemma AbandonedEnds(d: Display, detail: bv32)
    requires d.Shape()
    ensures Abandoned(d, detail).t.phase == READY && Abandoned(d, detail).displayed == d.displayed
  {
    hide Reported, VgaReleased;
  }

  lemma ReleaseNoBeat(d: Display)
    requires d.Shape()
    ensures Beat !in ReleaseEvents(d)
  {
  }

  lemma SwapShape(d: Display, r: Readings)
    requires d.Shape() && d.t.phase == FRESH && Quiet(Read(r.status)) && VsyncBit(r.status) && !BusyBit(r.status)
    ensures var e, es := SwapServed(d, r), [Read(r.status)] + SwapEvents(d, r);
      && e.displayed == d.displayed && Beat !in es
      && if e.t.phase == DONE then Commands(es) else e.t.phase == READY
  {
    hide Abandoned, Failed, ReleaseEvents, AbortBit, ReadyBit, BusyBit, VsyncBit;
    AbandonedEnds(d, Or(0x60000000, r.recheck));
    AbandonedEnds(d, Or(0x62000000, r.recheck));
    ReleaseNoBeat(Failed(d, Or(0x60000000, r.recheck)));
    ReleaseNoBeat(Failed(d, Or(0x62000000, r.recheck)));
  }

  lemma CompletionShape(d: Display, status: bv32)
    requires d.Shape() && d.obs.vgaSlot < 2
    ensures var e, es := DoneServed(d, status), DoneEvents(d, status);
      && e.t.phase == READY && |e.displayed| == |d.displayed| + 1
      && |es| >= 2 && es[0] == Beat && Beat !in es[1..]
  {
    hide Reported, VgaReleased;
    HealthRuns.ReportedKeepsStore(d.core, Report(VGA, STEP_PROGRESS, Inc(d.t.generation), status));
  }

  lemma PrepareShape(d: Display)
    requires d.Shape() && d.t.phase == PREPARE
    ensures var e := PrepareServed(d); e.t.phase <= ARM && e.displayed == d.displayed && Beat !in PrepareEvents(d)
  {
    hide VgaPrepared, Expired;
  }

  lemma PhaseShape(d: Display, r: Readings)
    requires Sound(d) && d.Shape() && Quiet(Read(r.status))
    ensures TurnShape(d, r, PhaseServed(d, r), [Read(r.status)] + PhaseEvents(d, r))
  {
    hide Agree, Drawn, Histories, Counted, SwapServed, DoneServed, PrepareServed, PrepareEvents, SwapEvents, DoneEvents;
    hide AbortBit, ReadyBit, BusyBit, VsyncBit, DoneBit, Commands, Abandoned, Failed, ReleaseEvents;
    assert [Read(r.status)] + [] == [Read(r.status)];
    if d.t.phase == PREPARE {
      PrepareShape(d);
    } else if d.t.phase == FRESH {
      if VsyncBit(r.status) && !BusyBit(r.status) {
        SwapShape(d, r);
      }
    } else if d.t.phase == DONE {
      CompletionShape(d, r.status);
    }
  }

  lemma ArmedShape(d: Display, r: Readings)
    requires Sound(d) && d.Shape()
    ensures TurnShape(d, r, ArmedServed(d, r), [Read(r.status)] + ArmedEvents(d, r))
  {
    hide Sound, PhaseServed, PhaseEvents, PolledVga, Rearmed, Abandoned, Failed, Freed, ReleaseEvents, AbortBit,
      ReadyBit;
    hide BusyBit, VsyncBit, DoneBit, Commands;
    var p := PolledVga(d);
    PolledSame(d);
    PolledSound(d);
    AbandonedEnds(d, Or(0x60000000, r.status));
    AbandonedEnds(p.0, Or(0x61000000, r.status));
    RearmedPhase(Abandoned(d, Or(0x60000000, r.status)));
    FreedEnds(p.0);
    ReleaseNoBeat(p.0);
    ReleaseNoBeat(Failed(d, Or(0x60000000, r.status)));
    ReleaseNoBeat(Failed(p.0, Or(0x61000000, r.status)));
    if !AbortBit(r.status) && !p.1 && ReadyBit(r.status) {
      PhaseShape(p.0, r);
      SameShape(d, p.0, r, PhaseServed(p.0, r), [Read(r.status)] + PhaseEvents(p.0, r));
    }
  }

  lemma PolledSame(d: Display)
    requires d.Shape()
    ensures var p := PolledVga(d).0; p.t.phase == d.t.phase && p.displayed == d.displayed && p.obs == d.obs
  {
    hide Reported, Accepts;
  }

  lemma RearmedPhase(d: Display)
    ensures var e := Rearmed(d);
      e.t.phase == d.t.phase && e.displayed == d.displayed && e.obs == d.obs && e.core == d.core
        && (d.Shape() ==> e.Shape())
  {
  }

  lemma FreedEnds(d: Display)
    requires d.Shape()
    ensures Freed(d, false).t.phase == READY && Freed(d, false).displayed == d.displayed
  {
    hide VgaReleased;
  }

  /** The shape of a turn depends on the phase and on what has been shown. */
  lemma SameShape(d: Display, m: Display, r: Readings, e: Display, es: seq<Event>)
    requires m.t.phase == d.t.phase && m.displayed == d.displayed && TurnShape(m, r, e, es)
    ensures TurnShape(d, r, e, es)
  {
    hide Quiet, Commands, DoneBit, BusyBit;
  }

  lemma ServedTurnShape(d: Display, r: Readings)
    requires Sound(d) && d.Shape()
    ensures TurnShape(d, r, VgaServed(d, r), TurnEvents(d, r))
  {
    hide Sound, ArmedServed, ArmedEvents, Rearmed, TurnShape;
    RearmedSound(d);
    RearmedPhase(d);
    var m := if d.t.deadline.armed then d else Rearmed(d);
    ArmedShape(m, r);
    SameShape(d, m, r, VgaServed(d, r), TurnEvents(d, r));
  }

  // ---------------------------------------------------------------- the trace grows

  lemma QuietStays(bus: seq<Event>, es: seq<Event>, from: nat, to: nat)
    requires AllQuiet(bus, from, to)
    ensures AllQuiet(bus + es, from, to)
  {
    hide Quiet;
  }

  lemma ClearedStays(bus: seq<Event>, es: seq<Event>, a: nat, k: nat)
    requires Cleared(bus, a, k)
    ensures Cleared(bus + es, a, k)
  {
    hide AllQuiet;
    QuietStays(bus, es, a + 1, k);
  }

  lemma CommandedStays(bus: seq<Event>, es: seq<Event>, a: nat, b: nat)
    requires Commanded(bus, a, b)
    ensures Commanded(bus + es, a, b)
  {
    hide Cleared, Quiet, VsyncBit, BusyBit, ReadyBit, AbortBit;
    ClearedStays(bus, es, a, b);
  }

  lemma VouchedStays(bus: seq<Event>, es: seq<Event>, k: nat)
    requires Vouched(bus, k) && k <= |bus|
    ensures Vouched(bus + es, k)
  {
    hide Commanded, AllQuiet, DoneBit, BusyBit;
    var a: nat, b: nat :| Commanded(bus, a, b) && CompletedAt(bus, b, k);
    CommandedStays(bus, es, a, b);
    QuietStays(bus, es, b + 5, k);
    assert CompletedAt(bus + es, b, k);
  }

  lemma OldBeatsVouched(bus: seq<Event>, es: seq<Event>, k: nat)
    requires forall j :: 0 <= j < |bus| && bus[j] == Beat ==> Vouched(bus, j)
    requires k < |bus| && (bus + es)[k] == Beat
    ensures Vouched(bus + es, k)
  {
    hide Vouched;
    VouchedStays(bus, es, k);
  }

  /** One more quiet reading, after a clearing. */
  lemma ClearedWaits(bus: seq<Event>, x: Event, a: nat)
    requires Cleared(bus, a, |bus|) && Quiet(x)
    ensures Cleared(bus + [x], a, |bus| + 1)
  {
    hide Quiet;
  }

  lemma NewlyCommanded(bus: seq<Event>, es: seq<Event>, a: nat)
    requires Cleared(bus, a, |bus|) && Commands(es)
    ensures Commanded(bus + es, a, |bus|) && AllQuiet(bus + es, |bus| + 5, |bus| + 5)
  {
    hide VsyncBit, BusyBit, ReadyBit, AbortBit, Cleared;
    ClearedStays(bus, es, a, |bus|);
    var n := |bus|;
    assert (bus + es)[n] == es[0] && (bus + es)[n + 1] == es[1] && (bus + es)[n + 2] == es[2];
    assert (bus + es)[n + 3] == es[3] && (bus + es)[n + 4] == es[4];
  }

  lemma NewlyVouched(bus: seq<Event>, es: seq<Event>, a: nat, b: nat)
    requires Commanded(bus, a, b) && AllQuiet(bus, b + 5, |bus|)
    requires es != [] && Quiet(es[0]) && DoneBit(es[0].status) && !BusyBit(es[0].status)
    ensures Vouched(bus + es, |bus| + 1)
  {
    hide Quiet, DoneBit, BusyBit, Commanded;
    CommandedStays(bus, es, a, b);
    QuietStays(bus, es, b + 5, |bus|);
    assert b + 5 <= |bus| by { CommandedFits(bus, a, b); }
    assert CompletedAt(bus + es, b, |bus| + 1);
  }

  lemma CommandedFits(bus: seq<Event>, a: nat, b: nat)
    requires Commanded(bus, a, b)
    ensures b + 5 <= |bus|
  {
  }

  lemma Waiting(d: Display, r: Readings, e: Display, bus: seq<Event>, es: seq<Event>)
    requires Traced(d, bus) && TurnShape(d, r, e, es) && e.t.phase == FRESH
    ensures exists a: nat :: Cleared(bus + es, a, |bus + es|)
  {
    hide Cleared, Quiet;
    if d.t.phase == ARM {
      assert Cleared(bus + es, |bus| + 1, |bus + es|) by { JustCleared(bus, es); }
    } else {
      var a: nat :| Cleared(bus, a, |bus|);
      ClearedWaits(bus, es[0], a);
      assert es == [es[0]];
      assert Cleared(bus + es, a, |bus + es|);
    }
  }

  lemma JustCleared(bus: seq<Event>, es: seq<Event>)
    requires |es| == 2 && es[1] == Clear(SYNC_AND_DONE)
    ensures Cleared(bus + es, |bus| + 1, |bus + es|)
  {
  }

  lemma Swapping(d: Display, r: Readings, e: Display, bus: seq<Event>, es: seq<Event>)
    requires Traced(d, bus) && TurnShape(d, r, e, es) && e.t.phase == DONE
    ensures exists a: nat, b: nat :: Commanded(bus + es, a, b) && AllQuiet(bus + es, b + 5, |bus + es|)
  {
    hide Cleared, Quiet, Commanded, AllQuiet;
    if d.t.phase == FRESH {
      var a: nat :| Cleared(bus, a, |bus|);
      NewlyCommanded(bus, es, a);
      assert |bus + es| == |bus| + 5;
    } else {
      var a: nat, b: nat :| Commanded(bus, a, b) && AllQuiet(bus, b + 5, |bus|);
      CommandedStays(bus, es, a, b);
      QuietWaits(bus, es[0], b + 5);
      assert bus + es == bus + [es[0]];
    }
  }

  lemma QuietWaits(bus: seq<Event>, x: Event, from: nat)
    requires AllQuiet(bus, from, |bus|) && Quiet(x)
    ensures AllQuiet(bus + [x], from, |bus| + 1)
  {
    hide Quiet;
  }

  lemma ShapeBeats(d: Display, r: Readings, e: Display, es: seq<Event>)
    requires TurnShape(d, r, e, es)
    ensures |e.displayed| >= |d.displayed|
    ensures multiset(es)[Beat] == |e.displayed| - |d.displayed| <= 1
    ensures e.displayed == d.displayed ==> Beat !in es
    ensures e.displayed != d.displayed ==>
      |es| >= 2 && forall k :: 0 <= k < |es| ==> (es[k] == Beat <==> k == 1)
  {
    hide ReadyBit, AbortBit, DoneBit, BusyBit, VsyncBit;
    if e.displayed == d.displayed {
      assert Beat !in es;
    } else {
      assert es == [es[0], Beat] + es[2..];
      assert forall k :: 2 <= k < |es| ==> es[k] in es[2..];
    }
  }

  lemma BeatsGrow(d: Display, r: Readings, e: Display, bus: seq<Event>, es: seq<Event>)
    requires Traced(d, bus) && TurnShape(d, r, e, es)
    ensures multiset(bus + es)[Beat] == |e.displayed|
    ensures forall k :: 0 <= k < |bus + es| && (bus + es)[k] == Beat ==> Vouched(bus + es, k)
  {
    hide Cleared, Quiet, Commanded, AllQuiet, DoneBit, BusyBit, Vouched, Commands;
    ShapeBeats(d, r, e, es);
    if e.displayed != d.displayed {
      var a: nat, b: nat :| Commanded(bus, a, b) && AllQuiet(bus, b + 5, |bus|);
      NewlyVouched(bus, es, a, b);
    }
    forall k | 0 <= k < |bus + es| && (bus + es)[k] == Beat
      ensures Vouched(bus + es, k)
    {
      if k < |bus| {
        OldBeatsVouched(bus, es, k);
      } else {
        assert (bus + es)[k] == es[k - |bus|];
      }
    }
  }

  /** One turn of the screen keeps the trace. */
  lemma TurnTraced(d: Display, r: Readings, bus: seq<Event>)
    requires Sound(d) && d.Shape() && Traced(d, bus)
    ensures Traced(VgaServed(d, r), bus + TurnEvents(d, r))
  {
    hide Sound, VgaServed, TurnEvents, TurnShape, Cleared, Commanded, AllQuiet, Vouched;
    var e, es := VgaServed(d, r), TurnEvents(d, r);
    ServedTurnShape(d, r);
    BeatsGrow(d, r, e, bus, es);
    if e.t.phase == FRESH {
      Waiting(d, r, e, bus, es);
    } else if e.t.phase == DONE {
      Swapping(d, r, e, bus, es);
    }
  }

  // ---------------------------------------------------------------- releases

  /** Every release is of a lease that is held, and a turn makes one exactly when it ends the lease. */
  predicate ReleasesRight(es: seq<Event>, d: Display, e: Display) {
    Release(false) !in es && multiset(es)[Release(true)] == Held(d) - Held(e)
  }

  lemma HookReleases(d: Display, e: Display)
    requires d.Shape() && Agree(d.core, d.obs) && e.obs.vgaSlot == NO_SLOT
    ensures ReleasesRight(ReleaseEvents(d), d, e)
  {
  }

  lemma FirstNoRelease(x: Event, es: seq<Event>, d: Display, e: Display)
    requires ReleasesRight(es, d, e) && !x.Release?
    ensures ReleasesRight([x] + es, d, e)
  {
  }

  lemma FailedReleases(d: Display, detail: bv32, e: Display)
    requires d.Shape() && Agree(d.core, d.obs) && e.obs.vgaSlot == NO_SLOT
    ensures ReleasesRight(ReleaseEvents(Failed(d, detail)), d, e)
  {
    hide Agree, Failed, ReleaseEvents;
    FailedSame(d, detail);
    StoreAgrees(d.core, Failed(d, detail).core, d.obs);
    HookReleases(Failed(d, detail), e);
  }

  lemma SwapReleases(d: Display, r: Readings)
    requires d.Shape() && Agree(d.core, d.obs)
    ensures ReleasesRight(SwapEvents(d, r), d, SwapServed(d, r))
  {
    hide Agree, SwapServed, Failed, ReleaseEvents, AbortBit, ReadyBit, BusyBit, ReleasesRight;
    var e := SwapServed(d, r);
    SwapKeeps(d, r);
    if AbortBit(r.recheck) {
      var es := ReleaseEvents(Failed(d, Or(0x60000000, r.recheck)));
      FailedReleases(d, Or(0x60000000, r.recheck), e);
      FirstNoRelease(Read(r.recheck), es, d, e);
    } else if !ReadyBit(r.atSwap) || BusyBit(r.atSwap) {
      var es := ReleaseEvents(Failed(d, Or(0x62000000, r.recheck)));
      FailedReleases(d, Or(0x62000000, r.recheck), e);
      FirstNoRelease(Read(r.atSwap), es, d, e);
      FirstNoRelease(Read(r.recheck), [Read(r.atSwap)] + es, d, e);
      assert SwapEvents(d, r) == [Read(r.recheck)] + ([Read(r.atSwap)] + es);
    } else {
      CommandReleases(r, d, e);
    }
  }

  lemma SwapKeeps(d: Display, r: Readings)
    requires d.Shape()
    ensures var e := SwapServed(d, r);
      if AbortBit(r.recheck) || !ReadyBit(r.atSwap) || BusyBit(r.atSwap) then e.obs.vgaSlot == NO_SLOT
      else e.obs == d.obs
  {
    hide Abandoned, AbortBit, ReadyBit, BusyBit;
  }

  lemma CommandReleases(r: Readings, d: Display, e: Display)
    requires e.obs == d.obs
    ensures ReleasesRight([Read(r.recheck), Read(r.atSwap), Clear(DONE_AND_ABORT), Swap], d, e)
  {
  }

  lemma DoneReleases(d: Display, status: bv32)
    requires d.Shape() && Agree(d.core, d.obs)
    ensures ReleasesRight(DoneEvents(d, status), d, DoneServed(d, status))
  {
    hide Agree, Reported, VgaReleased, ReleaseEvents;
    var rep := Report(VGA, STEP_PROGRESS, Inc(d.t.generation), status);
    HealthRuns.ReportedKeepsStore(d.core, rep);
    StoreAgrees(d.core, Reported(d.core, rep), d.obs);
    var m := d.(core := Reported(d.core, rep), t := d.t.(generation := rep.token));
    var e := DoneServed(d, status);
    HookReleases(m, e);
    FirstNoRelease(Clear(SYNC_AND_DONE), ReleaseEvents(m), d, e);
    FirstNoRelease(Beat, [Clear(SYNC_AND_DONE)] + ReleaseEvents(m), d, e);
    assert DoneEvents(d, status) == [Beat] + ([Clear(SYNC_AND_DONE)] + ReleaseEvents(m));
  }

  lemma PrepareReleases(d: Display)
    requires Sound(d) && d.Shape()
    ensures ReleasesRight(PrepareEvents(d), d, PrepareServed(d))
  {
    hide Expired, ReleaseEvents, Line, Drawn, ChunkWritten, Cleared;
    ChunkSettles(d);
    if d.obs.vgaSlot < 2 && Expired(d.core, d.obs) {
      HookReleases(d, PrepareServed(d));
      FirstNoRelease(Draw, ReleaseEvents(d), d, PrepareServed(d));
    }
  }

  lemma PhaseReleases(d: Display, r: Readings)
    requires Sound(d) && d.Shape()
    ensures ReleasesRight(PhaseEvents(d, r), d, PhaseServed(d, r))
  {
    hide Agree, Drawn, Histories, Counted, SwapServed, DoneServed, PrepareServed, PrepareEvents, SwapEvents, DoneEvents;
    hide AbortBit, ReadyBit, BusyBit, VsyncBit, DoneBit, Abandoned, Failed, ReleaseEvents;
    if d.t.phase == PREPARE {
      PrepareReleases(d);
    } else if d.t.phase == FRESH {
      SwapReleases(d, r);
    } else if d.t.phase == DONE {
      DoneReleases(d, r.status);
    }
  }

  lemma ArmedReleases(d: Display, r: Readings)
    requires Sound(d) && d.Shape()
    ensures ReleasesRight(ArmedEvents(d, r), d, ArmedServed(d, r))
  {
    hide Sound, Agree, PhaseServed, PhaseEvents, PolledVga, Rearmed, Abandoned, Failed, Freed, ReleaseEvents,
      AbortBit, ReadyBit;
    var p, e := PolledVga(d).0, ArmedServed(d, r);
    SoundStore(d);
    PolledSound(d);
    SoundStore(p);
    PolledSame(d);
    if AbortBit(r.status) {
      RearmedPhase(Abandoned(d, Or(0x60000000, r.status)));
      FailedReleases(d, Or(0x60000000, r.status), e);
      FirstNoRelease(Clear(ALL_EVENTS), ReleaseEvents(Failed(d, Or(0x60000000, r.status))), d, e);
    } else if PolledVga(d).1 {
      HookReleases(p, e);
    } else if !ReadyBit(r.status) {
      if d.t.phase != READY {
        FailedReleases(p, Or(0x61000000, r.status), e);
      }
    } else {
      PhaseReleases(p, r);
    }
  }

  lemma SoundStore(d: Display)
    requires Sound(d)
    ensures d.Shape() && Agree(d.core, d.obs)
  {
    hide Agree, Drawn;
    SoundShape(d);
  }

  lemma TurnReleases(d: Display, r: Readings)
    requires Sound(d) && d.Shape()
    ensures ReleasesRight(TurnEvents(d, r), d, VgaServed(d, r))
  {
    hide Sound, ArmedServed, ArmedEvents, Rearmed;
    RearmedSound(d);
    RearmedPhase(d);
    var m := if d.t.deadline.armed then d else Rearmed(d);
    ArmedReleases(m, r);
    FirstNoRelease(Read(r.status), ArmedEvents(m, r), d, VgaServed(d, r));
  }

  // ---------------------------------------------------------------- drawing

  /** The renderer is only called right after a quiet reading of an idle domain. */
  predicate DrawsIdle(bus: seq<Event>) {
    forall k :: 0 <= k < |bus| && bus[k] == Draw ==> k > 0 && Quiet(bus[k - 1]) && !BusyBit(bus[k - 1].status)
  }

  lemma PhaseDraws(d: Display, r: Readings)
    requires d.Shape()
    ensures var es := PhaseEvents(d, r);
      Draw in es ==> !BusyBit(r.status) && es[0] == Draw && Draw !in es[1..]
  {
    hide BusyBit, VsyncBit, DoneBit, AbortBit, ReadyBit, Reported, Failed, Leased, Expired;
  }

  lemma TurnDraws(d: Display, r: Readings)
    requires d.Shape()
    ensures DrawsIdle(TurnEvents(d, r))
  {
    hide BusyBit, AbortBit, ReadyBit, PhaseEvents, Rearmed, PolledVga, Failed, Leased;
    RearmedPhase(d);
    var m := if d.t.deadline.armed then d else Rearmed(d);
    PhaseDraws(PolledVga(m).0, r);
  }

  lemma DrawsJoin(bus: seq<Event>, es: seq<Event>)
    requires DrawsIdle(bus) && DrawsIdle(es)
    ensures DrawsIdle(bus + es)
  {
    hide Quiet, BusyBit;
  }

  // ---------------------------------------------------------------- aborts

  /** Some reading of the turn shows an aborted operation. */
  predicate ShowsAbort(es: seq<Event>) {
    exists k :: 0 <= k < |es| && es[k].Read? && AbortBit(es[k].status)
  }

  /** The screen's record is failed and its lease is over. */
  predicate GivenUp(d: Display)
    requires d.core.Shape()
  {
    d.core.ip[VGA].state == Fail && d.obs.vgaSlot == NO_SLOT
  }

  /** Only the reading inside the start of the swap shows the abort, which it then clears. */
  predicate Unseen(d: Display, r: Readings)
    requires d.Shape()
  {
    && d.t.phase == FRESH && !PolledVga(if d.t.deadline.armed then d else Rearmed(d)).1
    && ReadyBit(r.status) && !BusyBit(r.status) && VsyncBit(r.status) && !AbortBit(r.status)
    && !AbortBit(r.recheck) && ReadyBit(r.atSwap) && !BusyBit(r.atSwap) && AbortBit(r.atSwap)
  }

  lemma AbandonedGivenUp(d: Display, detail: bv32)
    requires d.Shape()
    ensures GivenUp(Abandoned(d, detail))
  {
    FailReported(d.core, detail);
    hide Reported;
  }

  lemma FailReported(c: Core, detail: bv32)
    requires c.Shape()
    ensures Reported(c, Report(VGA, STEP_FAIL, 0, detail)).ip[VGA].state == Fail
  {
  }

  /** A start of the swap that goes ahead. */
  predicate GoesAhead(d: Display, r: Readings) {
    && d.t.phase == FRESH && !BusyBit(r.status) && VsyncBit(r.status)
    && !AbortBit(r.recheck) && ReadyBit(r.atSwap) && !BusyBit(r.atSwap)
  }

  lemma ReleaseShowsNone(d: Display)
    requires d.Shape()
    ensures !ShowsAbort(ReleaseEvents(d))
  {
    hide Leased, AbortBit;
  }

  lemma SwapAborts(d: Display, r: Readings)
    requires d.Shape() && d.t.phase == FRESH && !BusyBit(r.status) && VsyncBit(r.status) && d.obs.vgaSlot < 2
    ensures GivenUp(SwapServed(d, r)) <==> !GoesAhead(d, r)
    ensures ShowsAbort(SwapEvents(d, r)) && GoesAhead(d, r) ==> AbortBit(r.atSwap)
    ensures GoesAhead(d, r) && AbortBit(r.atSwap) ==> ShowsAbort(SwapEvents(d, r))
  {
    hide AbortBit, ReadyBit, BusyBit, VsyncBit, Abandoned, Failed, ReleaseEvents;
    AbandonedGivenUp(d, Or(0x60000000, r.recheck));
    AbandonedGivenUp(d, Or(0x62000000, r.recheck));
    if GoesAhead(d, r) && AbortBit(r.atSwap) {
      assert SwapEvents(d, r)[1] == Read(r.atSwap);
    }
  }

  lemma PhaseAborts(d: Display, r: Readings)
    requires Sound(d) && d.Shape()
    ensures ShowsAbort(PhaseEvents(d, r)) ==>
      (GivenUp(PhaseServed(d, r)) <==> !GoesAhead(d, r)) && (GoesAhead(d, r) ==> AbortBit(r.atSwap))
    ensures GoesAhead(d, r) && AbortBit(r.atSwap) ==> ShowsAbort(PhaseEvents(d, r))
  {
    hide Agree, Drawn, Histories, Counted, SwapServed, SwapEvents, DoneServed, PrepareServed, AbortBit, ReadyBit,
      BusyBit;
    hide VsyncBit, DoneBit, Abandoned, Failed, Reported, Expired, ReleaseEvents, GivenUp;
    if d.t.phase == FRESH {
      if !BusyBit(r.status) && VsyncBit(r.status) {
        SwapAborts(d, r);
      }
    } else {
      NoReads(d, r);
    }
  }

  lemma NoReads(d: Display, r: Readings)
    requires d.Shape() && d.t.phase != FRESH
    ensures !ShowsAbort(PhaseEvents(d, r))
  {
    hide AbortBit, BusyBit, DoneBit, Failed, Reported, Expired, Leased;
  }

  lemma ArmedAborts(d: Display, r: Readings)
    requires Sound(d) && d.Shape()
    ensures ShowsAbort([Read(r.status)] + ArmedEvents(d, r)) ==>
      (GivenUp(ArmedServed(d, r)) <==>
       !(!AbortBit(r.status) && !PolledVga(d).1 && ReadyBit(r.status) && GoesAhead(PolledVga(d).0, r)
         && AbortBit(r.atSwap)))
  {
    hide Sound, PhaseServed, PhaseEvents, PolledVga, Rearmed, Abandoned, Failed, Freed, ReleaseEvents, AbortBit,
      ReadyBit;
    hide GoesAhead, GivenUp;
    var p := PolledVga(d);
    PolledSound(d);
    if AbortBit(r.status) {
      AbandonedGivenUp(d, Or(0x60000000, r.status));
      RearmedGivenUp(Abandoned(d, Or(0x60000000, r.status)));
    } else {
      ReleaseShowsNone(p.0);
      ReleaseShowsNone(Failed(p.0, Or(0x61000000, r.status)));
      FirstShowsNone(Read(r.status), ArmedEvents(d, r));
      PhaseAborts(p.0, r);
    }
  }

  lemma RearmedGivenUp(d: Display)
    requires d.core.Shape()
    ensures Rearmed(d).core.Shape() && (GivenUp(Rearmed(d)) <==> GivenUp(d))
  {
  }

  lemma FirstShowsNone(x: Event, es: seq<Event>)
    requires x.Read? && !AbortBit(x.status)
    ensures ShowsAbort([x] + es) <==> ShowsAbort(es)
  {
    hide AbortBit;
    if ShowsAbort(es) {
      var k :| 0 <= k < |es| && es[k].Read? && AbortBit(es[k].status);
      assert ([x] + es)[k + 1] == es[k];
    }
  }

  lemma PolledCore(d: Display)
    requires d.Shape() && !PolledVga(d).1
    ensures PolledVga(d).0.core == d.core
  {
    hide Accepts;
  }

  lemma UnseenTurn(d: Display, r: Readings)
    requires d.Shape() && Unseen(d, r)
    ensures var e := VgaServed(d, r);
      ShowsAbort(TurnEvents(d, r)) && e.t.phase == DONE && e.core == d.core && e.obs == d.obs
  {
    hide Rearmed, PolledVga, AbortBit, ReadyBit, BusyBit, VsyncBit;
    RearmedPhase(d);
    var m := if d.t.deadline.armed then d else Rearmed(d);
    PolledSame(m);
    PolledCore(m);
    assert TurnEvents(d, r)[2] == Read(r.atSwap);
  }

  /** A turn in which some reading shows an abort ends with the screen's record failed and its lease over, except
      exactly if only the reading inside the start of the swap shows it; then the turn is the same as without. */
  lemma AbortsEndLeases(d: Display, r: Readings)
    requires Sound(d) && d.Shape()
    ensures var e := VgaServed(d, r);
      && (ShowsAbort(TurnEvents(d, r)) ==> (GivenUp(e) <==> !Unseen(d, r)))
      && (Unseen(d, r) ==> ShowsAbort(TurnEvents(d, r)) && e.t.phase == DONE && e.core == d.core && e.obs == d.obs)
  {
    hide Sound, ArmedServed, ArmedEvents, Rearmed, PolledVga, GivenUp, AbortBit, ReadyBit, BusyBit, VsyncBit;
    RearmedSound(d);
    RearmedPhase(d);
    var m := if d.t.deadline.armed then d else Rearmed(d);
    PolledSame(m);
    ArmedAborts(m, r);
    if Unseen(d, r) {
      UnseenTurn(d, r);
    }
  }

  /** The reading inside the start of the swap is never asked for an abort: a turn is the same with and without. */
  lemma SwapBlind(d: Display, r: Readings)
    requires d.Shape()
    ensures VgaServed(d, r.(atSwap := Aborted(r.atSwap))) == VgaServed(d, r)
  {
    hide AbortBit, ReadyBit, BusyBit, VsyncBit, DoneBit, PolledVga, Rearmed, Freed, Abandoned, Failed, PrepareServed,
      DoneServed;
    hide Aborted;
    AbortedSame(r.atSwap);
  }

  /** The same status, with an abort. */
  function Aborted(status: bv32): bv32 {
    status | 8
  }

  lemma AbortedSame(status: bv32)
    ensures AbortBit(Aborted(status)) && ReadyBit(Aborted(status)) == ReadyBit(status)
    ensures BusyBit(Aborted(status)) == BusyBit(status)
  {
  }

  /** So it is with a ready domain, a vertical sync, and an abort that comes just before the swap. */
  lemma LateAbort(d: Display, after: Framebuffer)
    requires Sound(d) && d.Shape() && d.t.phase == FRESH
    requires !PolledVga(if d.t.deadline.armed then d else Rearmed(d)).1
    ensures var r := Readings(0x11, 0x10, 0x18, after);
      Unseen(d, r) && ShowsAbort(TurnEvents(d, r)) && !GivenUp(VgaServed(d, r))
  {
    hide Sound, PolledVga, Rearmed, VgaServed, TurnEvents, GivenUp;
    AbortsEndLeases(d, Readings(0x11, 0x10, 0x18, after));
  }

  // ---------------------------------------------------------------- how a lease ends

  /** The lease is still held, or was completed, or is over with the record failed, or the budget for preparing the
      picture had run out. */
  predicate OnRecord(d: Display, e: Display)
    requires d.Shape() && e.Shape()
  {
    if e.obs.vgaSlot < 2 then e.obs.vgaSlot == d.obs.vgaSlot && e.displayed == d.displayed
    else
      || (d.t.phase == DONE && |e.displayed| == |d.displayed| + 1)
      || (e.displayed == d.displayed && GivenUp(e))
      || (e.displayed == d.displayed && d.t.phase == PREPARE && Expired(d.core, d.obs))
  }

  lemma AbandonedOnRecord(d: Display, detail: bv32)
    requires d.Shape()
    ensures GivenUp(Abandoned(d, detail)) && Abandoned(d, detail).displayed == d.displayed
    ensures Abandoned(d, detail).obs.vgaSlot == NO_SLOT
  {
    hide Reported;
    AbandonedGivenUp(d, detail);
  }

  lemma PrepareOnRecord(d: Display)
    requires d.Shape() && d.obs.vgaSlot < 2 && d.t.phase == PREPARE
    ensures OnRecord(d, PrepareServed(d))
  {
    hide Line, ChunkWritten, Cleared, Expired, GivenUp;
    ChunkSettles(d);
  }

  lemma PhaseOnRecord(d: Display, r: Readings)
    requires d.Shape() && d.obs.vgaSlot < 2
    ensures OnRecord(d, PhaseServed(d, r))
  {
    hide Abandoned, AbortBit, ReadyBit, BusyBit, VsyncBit, DoneBit, PrepareServed, Expired, Reported, GivenUp;
    AbandonedOnRecord(d, 0x6001);
    AbandonedOnRecord(d, Or(0x60000000, r.recheck));
    AbandonedOnRecord(d, Or(0x62000000, r.recheck));
    if d.t.phase == PREPARE {
      PrepareOnRecord(d);
    }
  }

  lemma PolledOnRecord(d: Display)
    requires d.Shape()
    ensures var q := PolledVga(d);
      q.0.obs == d.obs && q.0.displayed == d.displayed && q.0.t.phase == d.t.phase
      && (if q.1 then q.0.core.ip[VGA].state == Fail else Expired(q.0.core, d.obs) == Expired(d.core, d.obs))
  {
    hide WithBit, Fresh;
  }

  /** A lease the screen held before a turn is held after it, or has been completed, or is over with the record
      failed, except only if its budget ran out while the picture was being prepared. */
  lemma LeaseEndsOnRecord(d: Display, r: Readings)
    requires d.Shape() && d.obs.vgaSlot < 2
    ensures OnRecord(d, VgaServed(d, r))
  {
    hide PhaseServed, Abandoned, AbortBit, ReadyBit, DeadlineBegun, PolledVga, Expired;
    var m := if d.t.deadline.armed then d else Rearmed(d);
    var p := PolledVga(m).0;
    PolledOnRecord(m);
    AbandonedOnRecord(m, Or(0x60000000, r.status));
    AbandonedOnRecord(p, Or(0x61000000, r.status));
    PhaseOnRecord(p, r);
  }

  /** A domain that is not ready once the transaction is under way fails the record and ends the lease. */
  lemma NotReadyFails(d: Display, r: Readings)
    requires d.Shape() && d.t.phase != READY && !ReadyBit(r.status)
    ensures GivenUp(VgaServed(d, r))
  {
    hide PhaseServed, Abandoned, AbortBit, ReadyBit, DeadlineBegun, PolledVga;
    var m := if d.t.deadline.armed then d else Rearmed(d);
    var p := PolledVga(m).0;
    PolledOnRecord(m);
    AbandonedOnRecord(m, Or(0x60000000, r.status));
    AbandonedOnRecord(p, Or(0x61000000, r.status));
  }

  /** So does a start of the swap that finds the domain busy or not ready. */
  lemma RefusedSwapFails(d: Display, r: Readings)
    requires d.Shape() && d.t.phase == FRESH && !PolledVga(if d.t.deadline.armed then d else Rearmed(d)).1
    requires ReadyBit(r.status) && !BusyBit(r.status) && VsyncBit(r.status) && !AbortBit(r.status)
    requires !ReadyBit(r.atSwap) || BusyBit(r.atSwap)
    ensures GivenUp(VgaServed(d, r))
  {
    hide Abandoned, AbortBit, ReadyBit, BusyBit, VsyncBit, DeadlineBegun, PolledVga, GivenUp;
    var p := PolledVga(if d.t.deadline.armed then d else Rearmed(d)).0;
    PolledOnRecord(if d.t.deadline.armed then d else Rearmed(d));
    AbandonedOnRecord(p, Or(0x60000000, r.recheck));
    AbandonedOnRecord(p, Or(0x62000000, r.recheck));
  }

  // ---------------------------------------------------------------- the second vertical sync

  predicate ClearsSync(e: Event) {
    e.Clear? && e.mask & 1 != 0
  }

  /** Between the sync that lets a swap go and the heartbeat for it the sync event is never cleared, so that no
      reading in between can tell a second one. */
  lemma NoSecondSync(bus: seq<Event>, a: nat, b: nat, k: nat)
    requires Commanded(bus, a, b) && CompletedAt(bus, b, k)
    ensures VsyncBit(bus[b].status) && forall j :: b <= j < k ==> !ClearsSync(bus[j])
  {
    hide ReadyBit, BusyBit, AbortBit, VsyncBit, DoneBit;
  }

  /** And a completion is a heartbeat without any: whenever the swap is awaited and the deadline does not fire. */
  lemma BeatWithoutSync(d: Display, r: Readings)
    requires Sound(d) && d.Shape() && d.t.phase == DONE
    requires !PolledVga(if d.t.deadline.armed then d else Rearmed(d)).1
    requires ReadyBit(r.status) && DoneBit(r.status) && !BusyBit(r.status) && !AbortBit(r.status) && !VsyncBit(r.status)
    ensures var es, e := TurnEvents(d, r), VgaServed(d, r);
      && |es| >= 2 && es[0] == Read(r.status) && es[1] == Beat
      && |e.displayed| == |d.displayed| + 1
  {
    hide Rearmed, PolledVga, AbortBit, ReadyBit, BusyBit, VsyncBit, DoneBit, DoneEvents, DoneServed, Sound;
    RearmedPhase(d);
    var m := if d.t.deadline.armed then d else Rearmed(d);
    RearmedSound(d);
    PolledSame(m);
    PolledSound(m);
    LeasedWhenDone(PolledVga(m).0);
    CompletionShape(PolledVga(m).0, r.status);
  }

  lemma LeasedWhenDone(d: Display)
    requires Sound(d) && d.t.phase == DONE
    ensures d.obs.vgaSlot < 2
  {
    hide Agree, Drawn;
  }
}
