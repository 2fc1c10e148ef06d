/** The transaction that brings a rendered report onto the screen: prepare, arm, wait for a fresh
    vertical sync, swap the buffers, wait until the swap is done.  Every status reading is arbitrary. */
module VgaTransaction {
  import opened Wrappers
  import opened Words
  import opened Health
  import opened HealthText
  import opened Observing
  import HealthRuns

  const READY: nat := 0
  const PREPARE: nat := 1
  const ARM: nat := 2
  const FRESH: nat := 3
  const DONE: nat := 4

  predicate VsyncBit(status: bv32) {
    status & 1 != 0
  }

  predicate DoneBit(status: bv32) {
    status & 2 != 0
  }

  predicate BusyBit(status: bv32) {
    status & 4 != 0
  }

  predicate AbortBit(status: bv32) {
    status & 8 != 0
  }

  predicate ReadyBit(status: bv32) {
    status & 16 != 0
  }

  /** soc_health_transaction_t */
  datatype Transaction = Transaction(phase: nat, attempt: U32, generation: U32, deadline: Deadline)

  /** A swap that was commanded: the snapshot then being rendered, and what the framebuffer held. */
  datatype Shown = Shown(snapshot: Option<Snapshot>, frame: Framebuffer)

  /** The state of the transaction, with two histories: every swap commanded, and every snapshot whose
      lease ended as completed. */
  datatype Display = Display(
    core: Core, t: Transaction, obs: Obs, fb: Framebuffer, shown: seq<Shown>, displayed: seq<Snapshot>)
  {
    predicate Shape() {
      && core.Shape() && obs.Shape()
      && (obs.vgaSlot < 2 ==> |core.slot[obs.vgaSlot].snapshot.ip| == IP_COUNT)
    }

    function Current(): Option<Snapshot>
      requires Shape()
    {
      if obs.vgaSlot < 2 then Some(core.slot[obs.vgaSlot].snapshot) else Option.None
    }
  }

  /** What the hardware answers in one turn: the status, the status read again before a swap, the one
      read by the swap itself, and the framebuffer the processor faces after a swap. */
  datatype Readings = Readings(status: bv32, recheck: bv32, atSwap: bv32, after: Framebuffer)

  // ---------------------------------------------------------------- the step

  /** arm */
  function Armed(c: Core, t: Transaction): Transaction {
    t.(attempt := Inc(t.attempt), deadline := DeadlineBegun(t.deadline, c.epoch, PROVIDER_BUDGET, Inc(t.attempt)))
  }

  function Rearmed(d: Display): Display {
    d.(t := Armed(d.core, d.t))
  }

  /** fail */
  function Failed(d: Display, detail: bv32): (e: Display)
    requires d.Shape()
    ensures e.Shape()
  {
    HealthRuns.ReportedKeepsStore(d.core, Report(VGA, STEP_FAIL, 0, detail));
    d.(core := Reported(d.core, Report(VGA, STEP_FAIL, 0, detail)))
  }

  /** The release hook, and back to the first phase. */
  function Freed(d: Display, completed: bool): (e: Display)
    requires d.Shape()
    ensures e.Shape() && e.obs.vgaSlot == NO_SLOT
  {
    var h := VgaReleased(d.core, d.obs, completed);
    d.(core := h.core, obs := h.obs, t := d.t.(phase := READY),
       displayed :=
         if completed && d.obs.vgaSlot < 2 then d.displayed + [d.core.slot[d.obs.vgaSlot].snapshot] else d.displayed)
  }

  function Abandoned(d: Display, detail: bv32): (e: Display)
    requires d.Shape()
    ensures e.Shape() && e.obs.vgaSlot == NO_SLOT
  {
    Freed(Failed(d, detail), false)
  }

  function WithPhase(d: Display, phase: nat): Display {
    d.(t := d.t.(phase := phase))
  }

  function PrepareServed(d: Display): (e: Display)
    requires d.Shape()
    ensures e.Shape()
  {
    var p := VgaPrepared(d.core, d.obs, d.fb);
    var e := d.(core := p.core, obs := p.obs, fb := p.fb);
    if p.result < 0 then e.(t := d.t.(phase := READY, deadline := d.t.deadline.(armed := false)))
    else if p.result != 0 then WithPhase(e, ARM)
    else e
  }

  /** Commanding the swap, unless the operation was aborted or the domain is not ready for it. */
  function SwapServed(d: Display, r: Readings): (e: Display)
    requires d.Shape()
    ensures e.Shape()
  {
    if AbortBit(r.recheck) then Abandoned(d, Or(0x60000000, r.recheck))
    else if !ReadyBit(r.atSwap) || BusyBit(r.atSwap) then Abandoned(d, Or(0x62000000, r.recheck))
    else d.(t := d.t.(phase := DONE), shown := d.shown + [Shown(d.Current(), d.fb)], fb := r.after)
  }

  function DoneServed(d: Display, status: bv32): (e: Display)
    requires d.Shape()
    ensures e.Shape()
  {
    var g := Inc(d.t.generation);
    HealthRuns.ReportedKeepsStore(d.core, Report(VGA, STEP_PROGRESS, g, status));
    var reported := d.(core := Reported(d.core, Report(VGA, STEP_PROGRESS, g, status)), t := d.t.(generation := g));
    Rearmed(Freed(reported, true))
  }

  function PhaseServed(d: Display, r: Readings): (e: Display)
    requires d.Shape()
    ensures e.Shape()
  {
    if d.t.phase == READY then if !BusyBit(r.status) then WithPhase(d, PREPARE) else d
    else if d.t.phase == PREPARE then if BusyBit(r.status) then d else PrepareServed(d)
    else if d.t.phase == ARM then WithPhase(d, FRESH)
    else if d.t.phase == FRESH then if !VsyncBit(r.status) || BusyBit(r.status) then d else SwapServed(d, r)
    else if d.t.phase == DONE then if !DoneBit(r.status) || BusyBit(r.status) then d else DoneServed(d, r.status)
    else Abandoned(d, 0x6001)
  }

  /** expired */
  function PolledVga(d: Display): (p: (Display, bool))
    requires d.Shape()
    ensures p.0.Shape()
  {
    var q := DeadlinePolled(d.core, VGA, d.t.deadline);
    HealthRuns.ReportedKeepsStore(d.core, Report(VGA, STEP_DEADLINE_MISS, d.t.deadline.token,
      Bits(d.t.deadline.budget)));
    (d.(core := q.core, t := d.t.(deadline := q.deadline)), q.expired)
  }

  /** The part of a turn after the deadline is known to be armed. */
  function ArmedServed(d: Display, r: Readings): (e: Display)
    requires d.Shape()
    ensures e.Shape()
  {
    if AbortBit(r.status) then Rearmed(Abandoned(d, Or(0x60000000, r.status)))
    else
      var p := PolledVga(d);
      if p.1 then Freed(p.0, false)
      else if !ReadyBit(r.status) then
        if d.t.phase != READY then Abandoned(p.0, Or(0x61000000, r.status)) else p.0
      else PhaseServed(p.0, r)
  }

  /** soc_health_vga_service, with the observer hooks installed. */
  function VgaServed(d: Display, r: Readings): (e: Display)
    requires d.Shape()
    ensures e.Shape()
  {
    ArmedServed(if d.t.deadline.armed then d else Rearmed(d), r)
  }

  // ---------------------------------------------------------------- what every step keeps

  /** The frame is complete from ARM on, under a lease; before that it is as far as the observer says. */
  ghost predicate Rendering(d: Display) {
    && Agree(d.core, d.obs) && d.t.phase <= DONE
    && (d.t.phase >= ARM ==> d.obs.vgaSlot < 2 && d.obs.clearWord == 9600 && d.obs.vgaLine == TEXT_LINES)
    && (d.obs.vgaSlot < 2 && d.t.phase != DONE ==> Drawn(Lines(d.core.slot[d.obs.vgaSlot].snapshot), d.obs, d.fb))
  }

  ghost predicate ShownWell(s: Shown) {
    s.snapshot.Some? && |s.snapshot.value.ip| == IP_COUNT && Shows(Lines(s.snapshot.value), s.frame)
  }

  ghost predicate InShown(s: Snapshot, shown: seq<Shown>) {
    exists k :: 0 <= k < |shown| && shown[k].snapshot == Some(s)
  }

  /** Every swap was of a complete picture, a snapshot is completed only after a swap of its own, and
      heartbeats count completed snapshots. */
  ghost predicate Histories(d: Display)
    requires d.Shape()
  {
    && (forall k :: 0 <= k < |d.shown| ==> ShownWell(d.shown[k]))
    && (d.t.phase == DONE ==> d.shown != [] && d.shown[|d.shown| - 1].snapshot == d.Current())
    && (forall k :: 0 <= k < |d.displayed| ==> InShown(d.displayed[k], d.shown))
    && |d.displayed| + (if d.t.phase == DONE then 1 else 0) <= |d.shown|
  }

  predicate Counted(d: Display)
    requires d.core.Shape()
  {
    var n := Low32(|d.displayed|);
    && d.t.generation == d.core.ip[VGA].heartbeats == n
    && d.core.progress[VGA] == (if d.displayed == [] then Stream(0, false) else Stream(n, true))
  }

  ghost predicate Sound(d: Display) {
    Rendering(d) && Histories(d) && Counted(d)
  }

  lemma RenderingShape(d: Display)
    requires Rendering(d)
    ensures d.Shape()
  {
  }

  lemma StoreAgrees(c: Core, c': Core, o: Obs)
    requires Agree(c, o) && c'.Shape() && c'.slot == c.slot
    ensures Agree(c', o)
  {
  }

  lemma VgaReleasedAgrees(c: Core, o: Obs, completed: bool)
    requires Agree(c, o)
    ensures var h := VgaReleased(c, o, completed);
      && Agree(h.core, h.obs) && h.obs.uartSlot == o.uartSlot
      && h.core.ip == c.ip && h.core.progress == c.progress && h.core.missed == c.missed && h.core.epoch == c.epoch
      && (forall i :: 0 <= i < 2 ==> h.core.slot[i].snapshot == c.slot[i].snapshot)
  {
  }

  /** Reports other than progress of the screen itself leave its count alone. */
  lemma ReportKeepsCount(c: Core, r: Report)
    requires c.Shape() && (r.id != VGA || r.step != STEP_PROGRESS)
    ensures var c' := Reported(c, r);
      c'.ip[VGA].heartbeats == c.ip[VGA].heartbeats && c'.progress[VGA] == c.progress[VGA]
  {
  }

  lemma CoreChanged(d: Display, c': Core)
    requires Sound(d) && c'.Shape() && c'.slot == d.core.slot
    requires c'.ip[VGA].heartbeats == d.core.ip[VGA].heartbeats && c'.progress[VGA] == d.core.progress[VGA]
    ensures Sound(d.(core := c'))
  {
    hide Drawn, ShownWell, InShown;
    StoreAgrees(d.core, c', d.obs);
  }

  lemma ReportSound(d: Display, r: Report)
    requires Sound(d) && (r.id != VGA || r.step != STEP_PROGRESS)
    ensures Sound(d.(core := Reported(d.core, r)))
  {
    hide Rendering, Histories, Counted, Reported;
    RenderingShape(d);
    HealthRuns.ReportedKeepsStore(d.core, r);
    ReportKeepsCount(d.core, r);
    CoreChanged(d, Reported(d.core, r));
  }

  lemma DeadlineChanged(d: Display, deadline: Deadline, attempt: U32)
    requires Sound(d)
    ensures Sound(d.(t := d.t.(deadline := deadline, attempt := attempt)))
  {
    hide Drawn, ShownWell, InShown, Agree;
  }

  lemma RearmedSound(d: Display)
    requires Sound(d)
    ensures Sound(Rearmed(d)) && Rearmed(d).t.phase == d.t.phase && Rearmed(d).core == d.core
  {
    hide Sound;
    var t := Armed(d.core, d.t);
    DeadlineChanged(d, t.deadline, t.attempt);
  }

  lemma FreedSound(d: Display)
    requires Sound(d)
    ensures Sound(Freed(d, false))
  {
    hide Agree, Drawn, ShownWell, InShown, VgaReleased;
    VgaReleasedAgrees(d.core, d.obs, false);
  }

  lemma AbandonedSound(d: Display, detail: bv32)
    requires Sound(d)
    ensures Sound(Abandoned(d, detail))
  {
    hide Sound, Freed, Reported;
    assert d.Shape() by {
      SoundShape(d);
    }
    ReportSound(d, Report(VGA, STEP_FAIL, 0, detail));
    FreedSound(Failed(d, detail));
  }

  lemma SoundRendering(d: Display)
    requires Sound(d)
    ensures Rendering(d)
  {
  }

  lemma SoundShape(d: Display)
    requires Sound(d)
    ensures d.Shape()
  {
    RenderingShape(d);
  }

  lemma PreparedSound(d: Display)
    requires Sound(d) && d.t.phase == PREPARE
    ensures Sound(PrepareServed(d))
  {
    hide Agree, Drawn, ShownWell, InShown, VgaPrepared, VgaReleased, Shows, CallsLeft, Line;
    RenderingShape(d);
    if d.obs.vgaSlot < 2 {
      PrepareStep(d.core, d.obs, d.fb);
      VgaReleasedAgrees(d.core, d.obs, false);
      if !Expired(d.core, d.obs) {
        PreparedAgrees(d.core, d.obs, d.fb);
      }
    } else {
      NothingPrepared(d.core, d.obs, d.fb);
    }
  }

  lemma NothingPrepared(c: Core, o: Obs, fb: Framebuffer)
    requires Agree(c, o) && o.vgaSlot == NO_SLOT
    ensures VgaPrepared(c, o, fb) == Prepared(c, o, fb, -1)
  {
  }

  lemma PreparedAgrees(c: Core, o: Obs, fb: Framebuffer)
    requires Agree(c, o) && o.vgaSlot < 2 && !Expired(c, o)
    ensures Agree(c, VgaPrepared(c, o, fb).obs)
  {
    hide Line, Expired;
  }

  lemma InShownGrows(s: Snapshot, shown: seq<Shown>, x: Shown)
    requires InShown(s, shown)
    ensures InShown(s, shown + [x])
  {
    var k :| 0 <= k < |shown| && shown[k].snapshot == Some(s);
    assert (shown + [x])[k] == shown[k];
  }

  lemma SwapSound(d: Display, r: Readings)
    requires Sound(d) && d.t.phase == FRESH
    ensures Sound(SwapServed(d, r))
    ensures var e := SwapServed(d, r);
      e.shown != d.shown ==> e.t.phase == DONE && |e.shown| == |d.shown| + 1 && ShownWell(e.shown[|d.shown|])
  {
    hide Agree, Drawn, InShown, Abandoned, CallsLeft, AbortBit, ReadyBit, BusyBit, Shows, Line;
    RenderingShape(d);
    AbandonedSound(d, Or(0x60000000, r.recheck));
    AbandonedSound(d, Or(0x62000000, r.recheck));
    AbandonedShows(d, Or(0x60000000, r.recheck));
    AbandonedShows(d, Or(0x62000000, r.recheck));
    DrawnBounds(Lines(d.core.slot[d.obs.vgaSlot].snapshot), d.obs, d.fb);
    forall k | 0 <= k < |d.displayed|
      ensures InShown(d.displayed[k], d.shown + [Shown(d.Current(), d.fb)])
    {
      InShownGrows(d.displayed[k], d.shown, Shown(d.Current(), d.fb));
    }
  }

  lemma AbandonedShows(d: Display, detail: bv32)
    requires d.Shape()
    ensures Abandoned(d, detail).shown == d.shown && Abandoned(d, detail).displayed == d.displayed
    ensures Abandoned(d, detail).fb == d.fb
  {
    hide Reported, VgaReleased;
  }

  /** The next generation is always fresh. */
  lemma ProgressCounts(d: Display, status: bv32)
    requires d.core.Shape() && Counted(d)
    ensures var n, c' := Low32(|d.displayed| + 1),
      Reported(d.core, Report(VGA, STEP_PROGRESS, Inc(d.t.generation), status));
      && Inc(d.t.generation) == n
      && c'.ip[VGA].heartbeats == n && c'.progress[VGA] == Stream(n, true)
  {
    IncOfLow(|d.displayed|);
  }

  lemma DoneSound(d: Display, status: bv32)
    requires Sound(d) && d.t.phase == DONE
    ensures Sound(DoneServed(d, status)) && DoneServed(d, status).shown == d.shown
    ensures DoneServed(d, status).displayed == d.displayed + [d.shown[|d.shown| - 1].snapshot.value]
  {
    hide Agree, Drawn, ShownWell, InShown, VgaReleased, Reported, DeadlineBegun;
    RenderingShape(d);
    var g := Inc(d.t.generation);
    var c := Reported(d.core, Report(VGA, STEP_PROGRESS, g, status));
    HealthRuns.ReportedKeepsStore(d.core, Report(VGA, STEP_PROGRESS, g, status));
    ProgressCounts(d, status);
    StoreAgrees(d.core, c, d.obs);
    VgaReleasedAgrees(c, d.obs, true);
    assert InShown(d.Current().value, d.shown) by {
      assert d.shown[|d.shown| - 1].snapshot == d.Current();
      FoundLast(d.Current().value, d.shown);
    }
  }

  lemma FoundLast(s: Snapshot, shown: seq<Shown>)
    requires shown != [] && shown[|shown| - 1].snapshot == Some(s)
    ensures InShown(s, shown)
  {
  }

  lemma PhaseChanged(d: Display, phase: nat)
    requires Sound(d) && d.t.phase < DONE && phase < DONE
    requires phase >= ARM ==> d.t.phase >= ARM
    ensures Sound(WithPhase(d, phase))
  {
    hide Agree, Drawn, ShownWell, InShown;
  }

  lemma PhaseSound(d: Display, r: Readings)
    requires Sound(d)
    ensures Sound(PhaseServed(d, r))
  {
    hide Sound, PrepareServed, SwapServed, DoneServed, Abandoned, AbortBit, ReadyBit, BusyBit, VsyncBit, DoneBit,
      WithPhase;
    SoundShape(d);
    if d.t.phase == READY {
      PhaseChanged(d, PREPARE);
    } else if d.t.phase == PREPARE {
      PreparedSound(d);
    } else if d.t.phase == ARM {
      PhaseChanged(d, FRESH);
    } else if d.t.phase == FRESH {
      SwapSound(d, r);
    } else if d.t.phase == DONE {
      DoneSound(d, r.status);
    } else {
      AbandonedSound(d, 0x6001);
    }
  }

  lemma PolledSound(d: Display)
    requires Sound(d)
    ensures Sound(PolledVga(d).0) && PolledVga(d).0.t.phase == d.t.phase
  {
    hide Sound, Reported, Accepts;
    SoundShape(d);
    var r := Report(VGA, STEP_DEADLINE_MISS, d.t.deadline.token, Bits(d.t.deadline.budget));
    ReportSound(d, r);
    var e, q := d.(core := Reported(d.core, r)), DeadlinePolled(d.core, VGA, d.t.deadline);
    DeadlineChanged(e, q.deadline, d.t.attempt);
    assert PolledVga(d).0 == d || PolledVga(d).0 == e.(t := e.t.(deadline := q.deadline, attempt := d.t.attempt));
  }

  lemma ArmedSound(d: Display, r: Readings)
    requires Sound(d)
    ensures Sound(ArmedServed(d, r))
  {
    hide Sound, PolledVga, PhaseServed, Abandoned, Freed, AbortBit, ReadyBit, Rearmed;
    SoundShape(d);
    AbandonedSound(d, Or(0x60000000, r.status));
    RearmedSound(Abandoned(d, Or(0x60000000, r.status)));
    PolledSound(d);
    var p := PolledVga(d).0;
    FreedSound(p);
    AbandonedSound(p, Or(0x61000000, r.status));
    PhaseSound(p, r);
  }

  /** Whatever the hardware answers, one turn of the transaction keeps: a swap is only ever commanded
      for the complete picture of the leased snapshot, a lease ends as completed only after such a
      swap, and heartbeats count exactly those completions. */
  lemma VgaServedSound(d: Display, r: Readings)
    requires Sound(d)
    ensures Sound(VgaServed(d, r))
  {
    hide Sound, ArmedServed, Rearmed;
    SoundShape(d);
    RearmedSound(d);
    ArmedSound(d, r);
    ArmedSound(Rearmed(d), r);
  }
}
