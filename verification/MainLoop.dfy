/** The main loop: one epoch, one provider, one serial turn, and a publication when one is due. */
module MainLoop {
  import opened Words
  import opened Health
  import opened HealthText
  import opened Observing
  import opened VgaTransaction
  import opened VgaEffects
  import Dispatcher
  import Screen

  const REPORT_PERIOD: nat := 32

  /** A report of any provider but the screen; which ones are made, and when, is left open. */
  type OtherReport = r: Report | r.id != VGA witness Report(0, 0, 0, 0)

  /** What the hardware does in one pass of the loop. */
  datatype Input = Input(reports: seq<OtherReport>, screen: Readings, uartReady: bool)

  /** A serial report that went out completely. */
  datatype Printed = Printed(snapshot: Snapshot, text: string)

  /** The four records of the program, with three histories: the characters sent since the last
      publication, the completed serial reports, and the published snapshots. */
  datatype World = World(
    display: Display, disp: Dispatcher.Position, lastPublication: U32,
    sent: string, printed: seq<Printed>, published: seq<Snapshot>)

  // ---------------------------------------------------------------- the step

  function ReportedAll(c: Core, rs: seq<OtherReport>): (c': Core)
    requires c.Shape()
    ensures c'.Shape()
  {
    if rs == [] then c else Reported(ReportedAll(c, rs[..|rs| - 1]), rs[|rs| - 1])
  }

  function EpochTurn(d: Display): (e: Display)
    requires d.Shape()
  {
    d.(core := EpochBegun(d.core))
  }

  /** soc_health_providers_service: the screen's turn, or some other provider's. */
  function ProviderTurn(d: Display, id: nat, i: Input): (e: Display)
    requires d.Shape()
  {
    if id == VGA then VgaServed(d, i.screen) else d.(core := ReportedAll(d.core, i.reports))
  }

  predicate UartFit(d: Display)
    requires d.Shape()
  {
    var o := d.obs;
    o.uartSlot < 2 ==>
      |d.core.slot[o.uartSlot].snapshot.ip| == IP_COUNT && (o.uartLength > 0 ==> o.uartColumn < o.uartLength)
  }

  function SerialTurn(w: World, ready: bool): (w': World)
    requires w.display.Shape() && UartFit(w.display)
  {
    var d := w.display;
    var u := UartServed(d.core, d.obs, ready);
    w.(display := d.(core := u.core, obs := u.obs), sent := w.sent + u.sent,
       printed := if d.obs.uartSlot < 2 && u.obs.uartSlot == NO_SLOT && !Expired(d.core, d.obs)
       then w.printed + [Printed(d.core.slot[d.obs.uartSlot].snapshot, w.sent)] else w.printed)
  }

  function PublicationTurn(w: World): (w': World)
    requires w.display.Shape()
  {
    var d := w.display;
    if Sub(d.core.epoch, w.lastPublication) < REPORT_PERIOD then w
    else if !d.obs.pending.None() then w.(display := d.(core := d.core.(backlog := Inc(d.core.backlog))))
    else if FreeSlot(d.core) == NO_SLOT then w.(display := d.(core := Published(d.core)))
    else
      w.(display := d.(core := Published(d.core), obs := Begun(d.obs, FreeSlot(d.core), d.core.epoch)),
         lastPublication := d.core.epoch, sent := "", published := w.published + [Taken(d.core)])
  }

  // ---------------------------------------------------------------- what every pass keeps

  ghost predicate Last(s: Snapshot, published: seq<Snapshot>) {
    published != [] && published[|published| - 1] == s
  }

  function HeldUart(o: Obs): nat {
    if o.uartSlot < 2 then 1 else 0
  }

  /** What has gone out over the serial line is a beginning of the leased snapshot's report, and every
      completed one was the whole report of a published snapshot. */
  ghost predicate SerialKept(w: World)
    requires w.display.Shape()
  {
    var d := w.display;
    && (d.obs.uartSlot < 2 ==>
          |d.core.slot[d.obs.uartSlot].snapshot.ip| == IP_COUNT
          && Sent(d.core.slot[d.obs.uartSlot].snapshot, d.obs, w.sent))
    && (forall k :: 0 <= k < |w.printed| ==>
         && |w.printed[k].snapshot.ip| == IP_COUNT && w.printed[k].text == ReportText(w.printed[k].snapshot)
         && w.printed[k].snapshot in w.published)
  }

  /** The leases are of the latest publication, and only published snapshots are ever shown. */
  ghost predicate LeasesKept(w: World)
    requires w.display.Shape()
  {
    var d := w.display;
    && (d.obs.vgaSlot < 2 ==> Last(d.core.slot[d.obs.vgaSlot].snapshot, w.published))
    && (d.obs.uartSlot < 2 ==> Last(d.core.slot[d.obs.uartSlot].snapshot, w.published))
    && (forall k :: 0 <= k < |d.shown| ==> d.shown[k].snapshot.Some? && d.shown[k].snapshot.value in w.published)
  }

  /** Every publication is, for each observer, completed, missed or still under lease. */
  ghost predicate BooksKept(w: World)
    requires w.display.core.Shape()
  {
    var c := w.display.core;
    && c.publicationId == Low32(|w.published|)
    && Accounted(w.display, |w.published|)
    && |w.printed| + HeldUart(w.display.obs) <= |w.published|
    && c.misses.uart == Low32(|w.published| - |w.printed| - HeldUart(w.display.obs))
  }

  ghost predicate Kept(w: World) {
    && Sound(w.display) && w.display.Shape() && w.disp.Valid()
    && SerialKept(w) && LeasesKept(w) && BooksKept(w)
  }

  lemma InitialKept(c: Core, fb: Framebuffer)
    requires Initial(c)
    ensures Kept(Start(c, fb))
  {
  }

  /** The program as main starts its loop; the framebuffer holds whatever it held. */
  function Start(c: Core, fb: Framebuffer): World {
    var t := Transaction(READY, 0, 0, Deadline(0, 0, 0, false));
    World(Display(c, t, IDLE, fb, [], []), Dispatcher.START, 0, "", [], [])
  }

  // ---------------------------------------------------------------- reports

  lemma {:induction false} ReportedAllKeeps(c: Core, rs: seq<OtherReport>)
    requires c.Shape()
    ensures var c' := ReportedAll(c, rs);
      && c'.slot == c.slot && c'.misses == c.misses && c'.epoch == c.epoch && c'.publicationId == c.publicationId
      && c'.ip[VGA] == c.ip[VGA] && c'.progress[VGA] == c.progress[VGA] && c'.missed[VGA] == c.missed[VGA]
  {
    if rs != [] {
      var n := |rs| - 1;
      ReportedAllKeeps(c, rs[..n]);
      ReportKeeps(ReportedAll(c, rs[..n]), rs[n]);
    }
  }

  lemma ReportKeeps(c: Core, r: OtherReport)
    requires c.Shape()
    ensures var c' := Reported(c, r);
      && c'.slot == c.slot && c'.misses == c.misses && c'.epoch == c.epoch && c'.publicationId == c.publicationId
      && c'.ip[VGA] == c.ip[VGA] && c'.progress[VGA] == c.progress[VGA] && c'.missed[VGA] == c.missed[VGA]
  {
  }

  lemma EpochKeeps(c: Core)
    requires c.Shape()
    ensures var c' := EpochBegun(c);
      && c'.slot == c.slot && c'.misses == c.misses && c'.epoch == Inc(c.epoch) && c'.publicationId == c.publicationId
      && c'.ip[VGA] == c.ip[VGA] && c'.progress[VGA] == c.progress[VGA] && c'.missed[VGA] == c.missed[VGA]
  {
    hide Reported;
    var e := Inc(c.epoch);
    ReportKeeps(c.(epoch := e), Report(SYSTEM_SERVICE, STEP_PROGRESS, e, 0));
  }

  /** A core that differs only in records, tokens and counts of other providers. */
  lemma CoreKept(w: World, c: Core)
    requires Kept(w) && c.Shape() && c.slot == w.display.core.slot && c.misses == w.display.core.misses
    requires c.publicationId == w.display.core.publicationId
    requires c.ip[VGA] == w.display.core.ip[VGA] && c.progress[VGA] == w.display.core.progress[VGA]
    ensures Kept(w.(display := w.display.(core := c)))
  {
    hide Rendering, Histories, Counted, Sent, ReportText;
    CoreChanged(w.display, c);
  }

  lemma EpochTurnKept(w: World)
    requires Kept(w)
    ensures Kept(w.(display := EpochTurn(w.display)))
  {
    hide Kept, EpochBegun;
    assert w.display.Shape() by {
      KeptShape(w);
    }
    EpochKeeps(w.display.core);
    CoreKept(w, EpochBegun(w.display.core));
  }

  lemma KeptShape(w: World)
    requires Kept(w)
    ensures w.display.Shape() && UartFit(w.display) && w.disp.Valid() && Rendering(w.display)
  {
    hide Pieces, Piece;
  }

  lemma ProviderTurnKept(w: World, id: nat, i: Input)
    requires Kept(w)
    ensures Kept(w.(display := ProviderTurn(w.display, id, i)))
  {
    hide Kept, VgaServed, ReportedAll;
    KeptShape(w);
    if id == VGA {
      ScreenTurnKept(w, i.screen);
    } else {
      ReportedAllKeeps(w.display.core, i.reports);
      CoreKept(w, ReportedAll(w.display.core, i.reports));
    }
  }

  lemma ScreenSerial(w: World, e: Display)
    requires w.display.Shape() && SerialKept(w) && e.Shape() && OnlyScreen(w.display, e)
    ensures SerialKept(w.(display := e))
  {
    hide ReportText;
    if w.display.obs.uartSlot < 2 {
      SentSame(w, e);
    }
  }

  lemma ScreenLeases(w: World, e: Display)
    requires w.display.Shape() && LeasesKept(w) && e.Shape() && OnlyScreen(w.display, e) && ShownFrom(w.display, e)
    ensures LeasesKept(w.(display := e))
  {
    hide UartPart;
    UartPartSlot(w.display.obs, e.obs);
  }

  lemma UartPartSlot(o: Obs, p: Obs)
    requires UartPart(o) == UartPart(p)
    ensures o.uartSlot == p.uartSlot
  {
  }

  lemma ScreenBooks(w: World, e: Display)
    requires w.display.Shape() && BooksKept(w) && e.Shape() && OnlyScreen(w.display, e) && Accounted(e, |w.published|)
    ensures BooksKept(w.(display := e))
  {
    hide UartPart, Accounted, Low32;
    UartPartSlot(w.display.obs, e.obs);
  }

  lemma ScreenTurnKept(w: World, r: Readings)
    requires Kept(w)
    ensures Kept(w.(display := VgaServed(w.display, r)))
  {
    hide Sound, VgaServed, Accounted, SerialKept, LeasesKept, OnlyScreen, ShownFrom;
    KeptShape(w);
    var e := VgaServed(w.display, r);
    VgaServedSound(w.display, r);
    VgaServedSettled(w.display, r, |w.published|);
    ScreenSerial(w, e);
    ScreenLeases(w, e);
    ScreenBooks(w, e);
  }

  /** What is sent depends on the serial fields only. */
  lemma SentSame(w: World, e: Display)
    requires w.display.Shape() && SerialKept(w) && e.Shape() && OnlyScreen(w.display, e) && w.display.obs.uartSlot < 2
    ensures e.obs.uartSlot < 2 && |e.core.slot[e.obs.uartSlot].snapshot.ip| == IP_COUNT
    ensures Sent(e.core.slot[e.obs.uartSlot].snapshot, e.obs, w.sent)
  {
    hide Pieces, Piece;
  }

  // ---------------------------------------------------------------- the serial turn

  /** A serial turn touches the serial fields and the lease of its slot only. */
  lemma UartServedKeeps(c: Core, o: Obs, ready: bool)
    requires Agree(c, o) && (o.uartSlot < 2 ==> o.uartLength > 0 ==> o.uartColumn < o.uartLength)
    ensures var u := UartServed(c, o, ready);
      && Agree(u.core, u.obs) && SameScreen(o, u.obs)
      && u.core.ip == c.ip && u.core.progress == c.progress && u.core.missed == c.missed
      && u.core.epoch == c.epoch && u.core.publicationId == c.publicationId
      && u.core.misses.vga == c.misses.vga
      && (forall j :: 0 <= j < 2 ==> u.core.slot[j].snapshot == c.slot[j].snapshot)
      && u.obs.uartSlot in {o.uartSlot, NO_SLOT}
      && u.core.misses.uart == (if Expired(c, o) && o.uartSlot < 2 then Inc(c.misses.uart) else c.misses.uart)
      && (u.obs.uartSlot == o.uartSlot ==> u.core == c)
      && (o.uartSlot < 2 && Expired(c, o) ==> u.obs.uartSlot == NO_SLOT)
  {
    hide Expired, StageText, Line;
    if o.uartSlot < 2 && !Expired(c, o) && o.uartStage != 3 {
      AdvancedKeeps(Filled(c.slot[o.uartSlot].snapshot, o));
    }
  }

  predicate SameScreen(o: Obs, p: Obs) {
    && p.vgaSlot == o.vgaSlot && p.start == o.start
    && p.clearWord == o.clearWord && p.vgaLine == o.vgaLine && p.vgaColumn == o.vgaColumn
  }

  lemma DrawnSame(text: Screen.Report, o: Obs, p: Obs, fb: Framebuffer)
    requires SameScreen(o, p) && Drawn(text, o, fb)
    ensures Drawn(text, p, fb)
  {
    hide Screen.Painted;
  }

  lemma SerialSound(d: Display, ready: bool)
    requires Sound(d) && d.Shape() && UartFit(d)
    ensures var u := UartServed(d.core, d.obs, ready); Sound(d.(core := u.core, obs := u.obs))
  {
    hide Agree, Drawn, UartServed, Expired, ShownWell, InShown;
    UartServedKeeps(d.core, d.obs, ready);
    var u := UartServed(d.core, d.obs, ready);
    if d.obs.vgaSlot < 2 && d.t.phase != DONE {
      DrawnSame(Lines(d.core.slot[d.obs.vgaSlot].snapshot), d.obs, u.obs, d.fb);
    }
  }

  /** A turn without a lease does nothing; with one it is a step of `UartStep`. */
  lemma SerialSends(w: World, ready: bool)
    requires w.display.Shape() && UartFit(w.display) && SerialKept(w) && Agree(w.display.core, w.display.obs)
    requires w.display.obs.uartSlot < 2 ==> w.display.core.slot[w.display.obs.uartSlot].snapshot in w.published
    ensures SerialTurn(w, ready).display.Shape() && SerialKept(SerialTurn(w, ready))
  {
    hide UartServed, Sent, ReportText, Expired, Agree, UartReleased;
    var d := w.display;
    UartServedKeeps(d.core, d.obs, ready);
    if d.obs.uartSlot < 2 {
      UartStep(d.core, d.obs, ready, w.sent);
    }
  }

  lemma SerialBooks(w: World, ready: bool)
    requires w.display.Shape() && UartFit(w.display) && BooksKept(w) && Agree(w.display.core, w.display.obs)
    ensures BooksKept(SerialTurn(w, ready))
  {
    hide UartServed, Expired, Low32, Agree;
    var d := w.display;
    UartServedKeeps(d.core, d.obs, ready);
    if |w.printed| < |w.published| {
      MissedOne(|w.published|, |w.printed|);
    }
  }

  lemma SerialLeases(w: World, ready: bool)
    requires w.display.Shape() && UartFit(w.display) && LeasesKept(w) && Agree(w.display.core, w.display.obs)
    ensures SerialTurn(w, ready).display.Shape() && LeasesKept(SerialTurn(w, ready))
  {
    hide UartServed, Expired, Agree;
    var d := w.display;
    UartServedKeeps(d.core, d.obs, ready);
  }

  lemma SerialTurnKept(w: World, ready: bool)
    requires Kept(w)
    ensures w.display.Shape() && UartFit(w.display) && Kept(SerialTurn(w, ready))
  {
    hide Sound, UartServed, SerialKept, LeasesKept, BooksKept, Expired, Agree, UartFit;
    KeptShape(w);
    KeptAgrees(w);
    LeasedArePublished(w);
    SerialSound(w.display, ready);
    SerialSends(w, ready);
    SerialBooks(w, ready);
    SerialLeases(w, ready);
  }

  lemma LeasedArePublished(w: World)
    requires w.display.Shape() && LeasesKept(w)
    ensures var d := w.display;
      d.obs.uartSlot < 2 ==> d.core.slot[d.obs.uartSlot].snapshot in w.published
  {
  }

  lemma KeptAgrees(w: World)
    requires Kept(w)
    ensures Agree(w.display.core, w.display.obs)
  {
    hide Agree, Sent, ReportText;
  }

  // ---------------------------------------------------------------- the publication

  /** With nothing pending, the store has a free slot, and publishing leases it to both observers. */
  lemma PublishedAgrees(c: Core, o: Obs)
    requires Agree(c, o) && o.pending.None()
    ensures FreeSlot(c) < 2
    ensures Agree(Published(c), Begun(o, FreeSlot(c), c.epoch))
    ensures Published(c).slot[FreeSlot(c)].snapshot == Taken(c)
  {
    hide Taken;
  }

  lemma NothingDrawn(text: Screen.Report, o: Obs, fb: Framebuffer)
    requires o.clearWord == o.vgaLine == o.vgaColumn == 0
    ensures Drawn(text, o, fb)
  {
    hide Screen.Painted;
  }

  lemma NothingSent(s: Snapshot, o: Obs)
    requires |s.ip| == IP_COUNT && o.Shape() && o.uartStage == o.uartLine == o.uartLength == 0
    ensures Sent(s, o, "")
  {
    hide Piece;
  }

  lemma PublishedKeeps(c: Core)
    requires c.Shape() && FreeSlot(c) < 2
    ensures var c' := Published(c);
      && c'.ip == c.ip && c'.progress == c.progress && c'.missed == c.missed && c'.misses == c.misses
      && c'.epoch == c.epoch && c'.publicationId == Inc(c.publicationId)
  {
    hide Taken;
  }

  /** From READY or PREPARE, with no lease held, a publication starts a new rendering. */
  lemma PublishSound(d: Display)
    requires Sound(d) && d.Shape() && d.obs.pending.None()
    ensures var e := d.(core := Published(d.core), obs := Begun(d.obs, FreeSlot(d.core), d.core.epoch));
      e.Shape() && Sound(e)
  {
    hide Agree, Drawn, ShownWell, InShown, Taken, Published;
    var i := FreeSlot(d.core);
    PendingNone(d);
    PublishedAgrees(d.core, d.obs);
    PublishedKeeps(d.core);
    NothingDrawn(Lines(Published(d.core).slot[i].snapshot), Begun(d.obs, i, d.core.epoch), d.fb);
  }

  lemma PendingNone(d: Display)
    requires Sound(d) && d.obs.pending.None()
    ensures d.obs.vgaSlot == d.obs.uartSlot == NO_SLOT
  {
  }

  lemma PublishBooks(w: World)
    requires w.display.Shape() && BooksKept(w) && Sound(w.display) && w.display.obs.pending.None()
    ensures BooksKept(PublicationTurn(w))
  {
    hide Agree, Taken, Sound, Published, Inc, FreeSlot;
    var d := w.display;
    PendingNone(d);
    assert FreeSlot(d.core) < 2 by {
      SoundAgrees(d);
      PublishedAgrees(d.core, d.obs);
    }
    PublishedKeeps(d.core);
    IncOfLow(|w.published|);
  }

  lemma SoundAgrees(d: Display)
    requires Sound(d)
    ensures Agree(d.core, d.obs)
  {
    hide Agree;
  }

  lemma PublishLeases(w: World)
    requires w.display.Shape() && LeasesKept(w) && SerialKept(w) && Sound(w.display) && w.display.obs.pending.None()
    ensures PublicationTurn(w).display.Shape() && LeasesKept(PublicationTurn(w)) && SerialKept(PublicationTurn(w))
  {
    hide Agree, Taken, Sound, Published, FreeSlot, Sent, ReportText;
    var d := w.display;
    PendingNone(d);
    SoundAgrees(d);
    PublishedAgrees(d.core, d.obs);
    PublishSound(d);
    if Sub(d.core.epoch, w.lastPublication) >= REPORT_PERIOD {
      NothingSent(Taken(d.core), Begun(d.obs, FreeSlot(d.core), d.core.epoch));
    }
  }

  lemma PublicationTurnKept(w: World)
    requires Kept(w)
    ensures Kept(PublicationTurn(w))
  {
    hide Sound, SerialKept, LeasesKept, BooksKept, Published, Taken, FreeSlot, Begun, Inc;
    KeptShape(w);
    var d := w.display;
    if Sub(d.core.epoch, w.lastPublication) >= REPORT_PERIOD {
      if d.obs.pending.None() {
        SoundAgrees(d);
        PublishedAgrees(d.core, d.obs);
        PublishSound(d);
        PublishBooks(w);
        PublishLeases(w);
      } else {
        CoreKept(w, d.core.(backlog := Inc(d.core.backlog)));
      }
    }
  }

  // ---------------------------------------------------------------- the loop

  /** One pass of the loop. */
  function MainStep(w: World, i: Input): (w': World)
    requires Kept(w)
    ensures Kept(w')
  {
    hide *;
    KeptShape(w);
    EpochTurnKept(w);
    var w1 := w.(display := EpochTurn(w.display));
    KeptShape(w1);
    ProviderTurnKept(w1, Dispatcher.Chosen(w.disp), i);
    var w2 := w1.(display := ProviderTurn(w1.display, Dispatcher.Chosen(w.disp), i));
    AdvancedKept(w2);
    var w3 := w2.(disp := Dispatcher.Advanced(w.disp));
    SerialTurnKept(w3, i.uartReady);
    var w4 := SerialTurn(w3, i.uartReady);
    KeptShape(w4);
    PublicationTurnKept(w4);
    PublicationTurn(w4)
  }

  lemma AdvancedKept(w: World)
    requires Kept(w)
    ensures w.disp.Valid() && Kept(w.(disp := Dispatcher.Advanced(w.disp)))
  {
    hide Sound, Sent, ReportText, Accounted;
  }

  /** A pass as its four turns, and what holds between them. */
  lemma PassParts(w: World, i: Input)
    requires Kept(w) && w.display.Shape() && w.disp.Valid()
    ensures var w1 := w.(display := EpochTurn(w.display));
      w1.display.Shape() && Sound(w1.display) && w1.display.t == w.display.t
      && (var e := ProviderTurn(w1.display, Dispatcher.Chosen(w.disp), i);
          var w2 := w1.(display := e, disp := Dispatcher.Advanced(w.disp));
          w2.display.Shape() && UartFit(w2.display) && Agree(w2.display.core, w2.display.obs)
          && (var w3 := SerialTurn(w2, i.uartReady);
              w3.display.Shape() && Agree(w3.display.core, w3.display.obs) && MainStep(w, i) == PublicationTurn(w3)))
  {
    hide Kept, EpochBegun, ProviderTurn, SerialTurn, PublicationTurn, UartFit, Agree;
    hide Dispatcher.Chosen, Dispatcher.Advanced;
    EpochTurnKept(w);
    var w1 := w.(display := EpochTurn(w.display));
    KeptShape(w1);
    KeptSound(w1);
    ProviderTurnKept(w1, Dispatcher.Chosen(w.disp), i);
    var e := ProviderTurn(w1.display, Dispatcher.Chosen(w.disp), i);
    AdvancedKept(w1.(display := e));
    var w2 := w1.(display := e, disp := Dispatcher.Advanced(w.disp));
    KeptAgrees(w2);
    KeptShape(w2);
    SerialTurnKept(w2, i.uartReady);
    KeptShape(SerialTurn(w2, i.uartReady));
    KeptAgrees(SerialTurn(w2, i.uartReady));
  }

  lemma KeptSound(w: World)
    requires Kept(w)
    ensures Sound(w.display)
  {
    hide Sound;
  }

  function Run(w: World, inputs: seq<Input>): (w': World)
    requires Kept(w)
    ensures Kept(w')
  {
    if inputs == [] then w else MainStep(Run(w, inputs[..|inputs| - 1]), inputs[|inputs| - 1])
  }

  // ---------------------------------------------------------------- what holds in every run

  /** Every swap was of the complete picture of a published snapshot; a lease of the screen ended as completed
      only after such a swap, and the screen's heartbeats count exactly these leases, so they never exceed the
      swaps; what went out over the serial line for a completed lease was exactly the report of a published
      snapshot, and what is going out is a beginning of one. */
  ghost predicate ShowsAndSends(w: World)
    requires w.display.Shape()
  {
    var d := w.display;
    && (forall s :: s in d.shown ==> s.snapshot.Some? && s.snapshot.value in w.published && ShownWell(s))
    && (forall k :: 0 <= k < |d.displayed| ==> InShown(d.displayed[k], d.shown))
    && d.core.ip[VGA].heartbeats == Low32(|d.displayed|) && |d.displayed| <= |d.shown|
    && (forall p :: p in w.printed ==>
          p.snapshot in w.published && |p.snapshot.ip| == IP_COUNT && p.text == ReportText(p.snapshot))
    && (d.obs.uartSlot < 2 ==>
          var s := d.core.slot[d.obs.uartSlot].snapshot;
          s in w.published && |s.ip| == IP_COUNT && w.sent <= ReportText(s))
  }

  lemma KeptShows(w: World)
    requires Kept(w)
    ensures w.display.Shape() && ShowsAndSends(w)
  {
    hide ShownWell, InShown, ReportText, Agree, Drawn, Sent, Accounted;
    KeptShape(w);
    if w.display.obs.uartSlot < 2 {
      SentIsPrefix(w.display.core.slot[w.display.obs.uartSlot].snapshot, w.display.obs, w.sent);
    }
  }

  /** From power-up, whatever the hardware answers and whatever the other providers report. */
  lemma EveryRun(c: Core, fb: Framebuffer, inputs: seq<Input>)
    requires Initial(c)
    ensures Kept(Start(c, fb))
    ensures var w := Run(Start(c, fb), inputs); w.display.Shape() && ShowsAndSends(w)
  {
    hide Kept, Run, Start;
    InitialKept(c, fb);
    KeptShows(Run(Start(c, fb), inputs));
  }

  /** In every reachable state from ARM on the screen's lease is held and nothing is left to render,
      and until the swap is commanded the framebuffer is the complete picture of the leased snapshot. */
  lemma CompleteBeforeSwap(c: Core, fb: Framebuffer, inputs: seq<Input>)
    requires Initial(c)
    ensures Kept(Start(c, fb))
    ensures var d := Run(Start(c, fb), inputs).display;
      d.t.phase >= ARM ==>
        && d.obs.vgaSlot < 2 && d.obs.clearWord == 9600 && d.obs.vgaLine == TEXT_LINES
        && |d.core.slot[d.obs.vgaSlot].snapshot.ip| == IP_COUNT
        && (d.t.phase != DONE ==> Shows(Lines(d.core.slot[d.obs.vgaSlot].snapshot), d.fb))
  {
    hide Run, Start, Agree, Drawn, Shows, CallsLeft;
    InitialKept(c, fb);
    var w := Run(Start(c, fb), inputs);
    KeptShape(w);
    if w.display.t.phase >= ARM {
      if w.display.t.phase != DONE {
        DrawnBounds(Lines(w.display.core.slot[w.display.obs.vgaSlot].snapshot), w.display.obs, w.display.fb);
      }
    }
  }

  /** The readers of the current slot are the pending observers and the other slot has none; a publication
      would find a free slot if nothing is pending; and a release by an observer that has a snapshot is of a
      lease it holds and leaves it without one. */
  ghost predicate LeasesAgree(d: Display)
    requires d.Shape()
  {
    var o := d.obs;
    && (forall i :: 0 <= i < 2 ==> d.core.slot[i].readers == Readers(o.vgaSlot == i, o.uartSlot == i))
    && o.pending == Readers(o.vgaSlot < 2, o.uartSlot < 2)
    && (o.vgaSlot < 2 && o.uartSlot < 2 ==> o.vgaSlot == o.uartSlot)
    && (o.pending.None() ==> FreeSlot(d.core) < 2)
    && (o.vgaSlot < 2 ==>
          Leased(d.core, o.vgaSlot, Vga) && !Leased(VgaReleased(d.core, o, true).core, o.vgaSlot, Vga))
    && (o.uartSlot < 2 ==>
          Leased(d.core, o.uartSlot, Uart) && !Leased(UartReleased(d.core, o, true).core, o.uartSlot, Uart))
  }

  lemma AgreeingLeases(d: Display)
    requires d.Shape() && Agree(d.core, d.obs)
    ensures LeasesAgree(d)
  {
    hide Published, Begun;
    if d.obs.pending.None() {
      PublishedAgrees(d.core, d.obs);
    }
  }

  /** After every pass of every run. */
  lemma LeasesInEveryRun(c: Core, fb: Framebuffer, inputs: seq<Input>)
    requires Initial(c)
    ensures Kept(Start(c, fb))
    ensures var d := Run(Start(c, fb), inputs).display; d.Shape() && LeasesAgree(d)
  {
    hide Run, Start, Kept, LeasesAgree, Agree;
    InitialKept(c, fb);
    var w := Run(Start(c, fb), inputs);
    KeptShape(w);
    KeptAgrees(w);
    AgreeingLeases(w.display);
  }
}
