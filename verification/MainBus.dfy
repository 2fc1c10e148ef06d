/** The accesses of whole runs: what stands behind every heartbeat of the screen, and that every lease is
    released once, while it is held. */
module MainBus {
  import opened Words
  import opened Health
  import opened Observing
  import opened VgaTransaction
  import opened VgaEffects
  import opened MainLoop
  import opened VgaBus
  import Dispatcher

  // ---------------------------------------------------------------- the accesses of a pass

  function ScreenEvents(w: World, i: Input): seq<Event>
    requires w.display.Shape() && w.disp.Valid()
  {
    if Dispatcher.Chosen(w.disp) == VGA then TurnEvents(EpochTurn(w.display), i.screen) else []
  }

  /** The release that the serial observer makes, if it makes one. */
  function UartEvents(c: Core, o: Obs, ready: bool): seq<Event>
    requires c.Shape() && o.Shape()
  {
    if o.uartSlot < 2 && (Expired(c, o) || (o.uartStage == 3 && ready)) then
      [Release(Leased(c, o.uartSlot, Uart))]
    else []
  }

  /** The state in which the serial observer gets its turn. */
  function BeforeSerial(w: World, i: Input): (x: World)
    requires Kept(w)
    ensures Kept(x)
  {
    hide *;
    KeptShape(w);
    EpochTurnKept(w);
    var w1 := w.(display := EpochTurn(w.display));
    KeptShape(w1);
    ProviderTurnKept(w1, Dispatcher.Chosen(w.disp), i);
    var w2 := w1.(display := ProviderTurn(w1.display, Dispatcher.Chosen(w.disp), i));
    AdvancedKept(w2);
    w2.(disp := Dispatcher.Advanced(w.disp))
  }

  function SerialEvents(w: World, i: Input): seq<Event>
    requires Kept(w)
  {
    var x := BeforeSerial(w, i);
    KeptShape(x);
    UartEvents(x.display.core, x.display.obs, i.uartReady)
  }

  lemma PassHalves(w: World, i: Input)
    requires Kept(w) && w.display.Shape() && w.disp.Valid()
    ensures var x := BeforeSerial(w, i);
      && x.display.Shape() && UartFit(x.display)
      && (var y := SerialTurn(x, i.uartReady); y.display.Shape() && MainStep(w, i) == PublicationTurn(y))
  {
    hide Kept, EpochTurn, ProviderTurn, SerialTurn, PublicationTurn, MainStep, UartFit;
    hide Dispatcher.Chosen, Dispatcher.Advanced;
    PassParts(w, i);
  }

  /** What the screen's provider, and what the serial observer, does in a run. */
  function ScreenBus(w: World, inputs: seq<Input>): seq<Event>
    requires Kept(w)
  {
    if inputs == [] then []
    else
      var m := |inputs| - 1;
      KeptShape(Run(w, inputs[..m]));
      ScreenBus(w, inputs[..m]) + ScreenEvents(Run(w, inputs[..m]), inputs[m])
  }

  function SerialBus(w: World, inputs: seq<Input>): seq<Event>
    requires Kept(w)
  {
    if inputs == [] then []
    else
      var m := |inputs| - 1;
      SerialBus(w, inputs[..m]) + SerialEvents(Run(w, inputs[..m]), inputs[m])
  }

  // ---------------------------------------------------------------- what every pass keeps

  /** Every release so far was of a held lease, and every publication but one under lease was released. */
  ghost predicate ScreenReleased(w: World, bus: seq<Event>) {
    Release(false) !in bus && multiset(bus)[Release(true)] + Held(w.display) == |w.published|
  }

  ghost predicate SerialReleased(w: World, bus: seq<Event>) {
    Release(false) !in bus && multiset(bus)[Release(true)] + HeldUart(w.display.obs) == |w.published|
  }

  ghost predicate BusKept(w: World, screen: seq<Event>, serial: seq<Event>) {
    Traced(w.display, screen) && DrawsIdle(screen) && ScreenReleased(w, screen) && SerialReleased(w, serial)
  }

  lemma SameTraced(d: Display, e: Display, bus: seq<Event>)
    requires Traced(d, bus) && e.t == d.t && e.displayed == d.displayed
    ensures Traced(e, bus)
  {
    hide VgaBus.Cleared, Commanded, AllQuiet, Vouched;
  }

  /** The first two turns of a pass. */
  lemma ProviderBus(w: World, i: Input, screen: seq<Event>, serial: seq<Event>)
    requires Kept(w) && w.display.Shape() && w.disp.Valid() && BusKept(w, screen, serial)
    ensures BusKept(BeforeSerial(w, i), screen + ScreenEvents(w, i), serial)
  {
    hide Kept, Sound, VgaServed, TurnEvents, Traced, DrawsIdle, ReportedAll, EpochBegun, Accounted, ShownFrom, UartPart;
    hide Dispatcher.Chosen, Dispatcher.Advanced;
    PassParts(w, i);
    var d := EpochTurn(w.display);
    EpochKeeps(w.display.core);
    SameTraced(w.display, d, screen);
    var x := BeforeSerial(w, i);
    if Dispatcher.Chosen(w.disp) == VGA {
      SoundStore(d);
      TurnTraced(d, i.screen, screen);
      TurnReleases(d, i.screen);
      TurnDraws(d, i.screen);
      DrawsJoin(screen, TurnEvents(d, i.screen));
      SoundRendering(d);
      VgaServedSettled(d, i.screen, 0);
      UartPartSlot(d.obs, x.display.obs);
    } else {
      ReportedAllKeeps(d.core, i.reports);
      SameTraced(d, x.display, screen);
      assert screen + [] == screen;
    }
  }

  lemma SerialTurnBus(x: World, ready: bool, screen: seq<Event>, serial: seq<Event>)
    requires Kept(x) && x.display.Shape() && UartFit(x.display) && Agree(x.display.core, x.display.obs)
    requires BusKept(x, screen, serial)
    ensures var y := SerialTurn(x, ready);
      BusKept(y, screen, serial + UartEvents(x.display.core, x.display.obs, ready))
  {
    hide Kept, Traced, DrawsIdle, UartServed, UartEvents;
    var c, o := x.display.core, x.display.obs;
    UartReleases(c, o, ready);
    UartServedKeeps(c, o, ready);
    SameTraced(x.display, SerialTurn(x, ready).display, screen);
  }

  lemma UartReleases(c: Core, o: Obs, ready: bool)
    requires Agree(c, o) && (o.uartSlot < 2 ==> o.uartLength > 0 ==> o.uartColumn < o.uartLength)
    ensures var es := UartEvents(c, o, ready);
      Release(false) !in es && multiset(es)[Release(true)] == HeldUart(o) - HeldUart(UartServed(c, o, ready).obs)
  {
    hide Observing.Expired, StageText;
  }

  lemma PublicationBus(x: World, screen: seq<Event>, serial: seq<Event>)
    requires x.display.Shape() && Agree(x.display.core, x.display.obs) && BusKept(x, screen, serial)
    ensures BusKept(PublicationTurn(x), screen, serial)
  {
    hide Traced, DrawsIdle, Published, Taken, FreeSlot;
    SameTraced(x.display, PublicationTurn(x).display, screen);
  }

  lemma PassBus(w: World, i: Input, screen: seq<Event>, serial: seq<Event>)
    requires Kept(w) && w.display.Shape() && w.disp.Valid() && BusKept(w, screen, serial)
    ensures BusKept(MainStep(w, i), screen + ScreenEvents(w, i), serial + SerialEvents(w, i))
  {
    hide Kept, BusKept, BeforeSerial, SerialTurn, PublicationTurn, MainStep, UartFit, Agree, ScreenEvents, UartEvents;
    PassHalves(w, i);
    ProviderBus(w, i, screen, serial);
    var x := BeforeSerial(w, i);
    KeptAgrees(x);
    SerialTurnKept(x, i.uartReady);
    KeptAgrees(SerialTurn(x, i.uartReady));
    SerialTurnBus(x, i.uartReady, screen + ScreenEvents(w, i), serial);
    PublicationBus(SerialTurn(x, i.uartReady), screen + ScreenEvents(w, i), serial + SerialEvents(w, i));
  }

  lemma {:induction false} RunBus(c: Core, fb: Framebuffer, inputs: seq<Input>)
    requires Initial(c) && Kept(Start(c, fb))
    ensures var w := Start(c, fb); BusKept(Run(w, inputs), ScreenBus(w, inputs), SerialBus(w, inputs))
  {
    hide Kept, MainStep, Start, BusKept, ScreenEvents, SerialEvents;
    var w := Start(c, fb);
    if inputs == [] {
      StartBus(c, fb);
    } else {
      var m := |inputs| - 1;
      RunBus(c, fb, inputs[..m]);
      KeptShape(Run(w, inputs[..m]));
      PassBus(Run(w, inputs[..m]), inputs[m], ScreenBus(w, inputs[..m]), SerialBus(w, inputs[..m]));
    }
  }

  lemma StartBus(c: Core, fb: Framebuffer)
    requires Initial(c)
    ensures BusKept(Start(c, fb), [], [])
  {
  }

  /** The heartbeats of the screen's record count the beats on its bus, and each of these comes after the
      clearing of the events, a vertical sync seen since then by an idle ready domain, no abort, the clearing of
      the old completion, the swap, and a completion seen since then, with no abort in between; the renderer
      runs only while the domain is ready and idle; and every release, by either observer, is of a lease it
      holds, one for every publication but the one still under lease. */
  ghost predicate BusVouches(x: World, screen: seq<Event>, serial: seq<Event>)
    requires x.display.Shape()
  {
    && x.display.core.ip[VGA].heartbeats == Low32(multiset(screen)[Beat])
    && (forall k :: 0 <= k < |screen| && screen[k] == Beat ==> Vouched(screen, k))
    && (forall k :: 0 <= k < |screen| && screen[k] == Draw ==>
          k > 0 && Quiet(screen[k - 1]) && !BusyBit(screen[k - 1].status))
    && Release(false) !in screen && multiset(screen)[Release(true)] + Held(x.display) == |x.published|
    && Release(false) !in serial && multiset(serial)[Release(true)] + HeldUart(x.display.obs) == |x.published|
  }

  /** In every run, whatever the hardware answers. */
  lemma HeartbeatsVouch(c: Core, fb: Framebuffer, inputs: seq<Input>)
    requires Initial(c)
    ensures Kept(Start(c, fb))
    ensures var w := Start(c, fb);
      var x := Run(w, inputs);
      x.display.Shape() && BusVouches(x, ScreenBus(w, inputs), SerialBus(w, inputs))
  {
    hide Run, Start, ScreenBus, SerialBus, Vouched, VgaBus.Cleared, Commanded, AllQuiet, Rendering, Histories;
    hide SerialKept, LeasesKept;
    InitialKept(c, fb);
    RunBus(c, fb, inputs);
    KeptShape(Run(Start(c, fb), inputs));
  }

  // ---------------------------------------------------------------- aborts and syncs in whole runs

  /** In every pass of every run that is the screen's: if some reading shows an abort, the record is failed and the
      lease is over after the screen's turn, except exactly if only the reading inside the start of the swap
      shows it; then the swap is awaited as if it had not been. */
  lemma AbortsInEveryRun(c: Core, fb: Framebuffer, inputs: seq<Input>, i: Input)
    requires Initial(c)
    ensures Kept(Start(c, fb))
    ensures var w := Run(Start(c, fb), inputs);
      && w.display.Shape() && w.disp.Valid() && EpochTurn(w.display).Shape()
      && (Dispatcher.Chosen(w.disp) == VGA ==>
            var d, es := EpochTurn(w.display), ScreenEvents(w, i);
            var e := ProviderTurn(d, VGA, i);
            && e.core.Shape() && (ShowsAbort(es) ==> (GivenUp(e) <==> !Unseen(d, i.screen)))
            && (Unseen(d, i.screen) ==> ShowsAbort(es) && e.t.phase == DONE && e.core == d.core && e.obs == d.obs))
  {
    hide Run, Start, Kept, Sound, EpochBegun, VgaServed, TurnEvents, GivenUp, Unseen, ShowsAbort, Dispatcher.Chosen;
    InitialKept(c, fb);
    var w := Run(Start(c, fb), inputs);
    KeptShape(w);
    PassParts(w, i);
    AbortsEndLeases(EpochTurn(w.display), i.screen);
  }

  /** The same answers, but that every reading inside the start of a swap shows an abort. */
  function Blinded(i: Input): Input {
    i.(screen := i.screen.(atSwap := Aborted(i.screen.atSwap)))
  }

  function AllBlinded(inputs: seq<Input>): (r: seq<Input>)
    ensures |r| == |inputs|
  {
    seq(|inputs|, k requires 0 <= k < |inputs| => Blinded(inputs[k]))
  }

  lemma PassBlind(w: World, i: Input)
    requires Kept(w)
    ensures MainStep(w, Blinded(i)) == MainStep(w, i)
  {
    hide Kept, EpochTurn, VgaServed, ReportedAll, SerialTurn, PublicationTurn, MainStep, UartFit, Aborted;
    hide Dispatcher.Chosen, Dispatcher.Advanced;
    KeptShape(w);
    PassParts(w, i);
    PassParts(w, Blinded(i));
    SwapBlind(EpochTurn(w.display), i.screen);
  }

  /** So every run, and with it every heartbeat and every lease, is the same with an abort shown by every such
      reading as with none. */
  lemma {:induction false} RunBlind(w: World, inputs: seq<Input>)
    requires Kept(w)
    ensures Run(w, AllBlinded(inputs)) == Run(w, inputs)
  {
    hide Kept, MainStep, Blinded;
    if inputs != [] {
      var m := |inputs| - 1;
      var blind := AllBlinded(inputs);
      assert blind[..m] == AllBlinded(inputs[..m]);
      RunBlind(w, inputs[..m]);
      PassBlind(Run(w, inputs[..m]), inputs[m]);
    }
  }

  /** In every run, between the sync that let a swap go and the heartbeat for it no write clears the sync event. */
  lemma SyncsInEveryRun(c: Core, fb: Framebuffer, inputs: seq<Input>, k: nat)
    requires Initial(c)
    ensures Kept(Start(c, fb))
    ensures var bus := ScreenBus(Start(c, fb), inputs);
      k < |bus| && bus[k] == Beat ==>
        exists a: nat, b: nat ::
          Commanded(bus, a, b) && CompletedAt(bus, b, k) && forall j :: b <= j < k ==> !ClearsSync(bus[j])
  {
    hide Run, Start, Kept, ScreenBus, Commanded, CompletedAt, ClearsSync;
    HeartbeatsVouch(c, fb, inputs);
    var bus := ScreenBus(Start(c, fb), inputs);
    if k < |bus| && bus[k] == Beat {
      var a: nat, b: nat :| Commanded(bus, a, b) && CompletedAt(bus, b, k);
      NoSecondSync(bus, a, b, k);
    }
  }
}
