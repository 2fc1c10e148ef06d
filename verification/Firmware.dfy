/** The program in its own form: the provider record with the screen's transaction and the dispatcher,
    and the main loop over the four records, each step proved to be the corresponding step of
    `VgaTransaction` and `MainLoop`. */
module Firmware {
  import opened Wrappers
  import opened Words
  import opened Health
  import opened Observing
  import opened VgaTransaction
  import opened VgaBus
  import opened MainLoop
  import opened MainBus
  import opened ProviderReports
  import MainTiming
  import Dispatcher
  import B = BoardIo
  import BoardService
  import G = GpioLoop
  import HealthCore
  import HealthRuns
  import Observers
  import U = UartLoop
  import UartService
  import VgaText

  class Providers {
    var phase: nat
    var attempt: U32
    var generation: U32
    var deadline: Deadline
    var initIndex: nat
    var next: nat
    ghost var shown: seq<Shown>
    ghost var displayed: seq<Snapshot>

    /** soc_health_providers_init */
    constructor ()
      ensures Vga() == Transaction(READY, 0, 0, Deadline(0, 0, 0, false))
      ensures Position() == Dispatcher.START && shown == [] && displayed == []
    {
      phase, attempt, generation, deadline := READY, 0, 0, Deadline(0, 0, 0, false);
      initIndex, next, shown, displayed := 0, 0, [], [];
    }

    function Vga(): Transaction
      reads this
    {
      Transaction(phase, attempt, generation, deadline)
    }

    function Position(): Dispatcher.Position
      reads this
    {
      Dispatcher.Position(initIndex, next)
    }

    ghost predicate Ready(c: HealthCore.Core, o: Observers.Observers, fb: array<bv32>)
      reads this, c, o, o.uartBuffer, fb
    {
      c.Valid() && o.Valid() && fb.Length == VgaText.WORDS && View(c, o, fb).Shape()
    }

    /** The state of the transaction together with the records it works on. */
    ghost function View(c: HealthCore.Core, o: Observers.Observers, fb: array<bv32>): Display
      requires c.Valid() && o.Valid() && fb.Length == VgaText.WORDS
      reads this, c, o, o.uartBuffer, fb
    {
      Display(c.State(), Vga(), o.State(), fb[..], shown, displayed)
    }

    /** arm */
    method Arm(c: HealthCore.Core)
      modifies this`attempt, this`deadline
      ensures Vga() == Armed(c.State(), old(Vga()))
    {
      attempt := Inc(attempt);
      var ok;
      deadline, ok := HealthCore.DeadlineBegin(deadline, c.epoch, PROVIDER_BUDGET, attempt);
    }

    /** expired */
    method Expired(c: HealthCore.Core, o: Observers.Observers, fb: array<bv32>) returns (fired: bool)
      requires Ready(c, o, fb)
      modifies this`deadline, c
      ensures Ready(c, o, fb) && (View(c, o, fb), fired) == PolledVga(old(View(c, o, fb)))
    {
      hide Reported, Accepts, DeadlinePolled;
      deadline, fired := c.DeadlinePoll(VGA, deadline);
      assert View(c, o, fb) == PolledVga(old(View(c, o, fb))).0;
    }

    /** fail */
    method Fail(c: HealthCore.Core, o: Observers.Observers, fb: array<bv32>, detail: bv32)
      requires Ready(c, o, fb)
      modifies c
      ensures Ready(c, o, fb) && View(c, o, fb) == Failed(old(View(c, o, fb)), detail)
    {
      hide Reported;
      var _ := c.Report(VGA, STEP_FAIL, 0, detail);
      assert View(c, o, fb) == Failed(old(View(c, o, fb)), detail);
    }

    /** Calling the release hook, and back to the first phase. */
    method Free(c: HealthCore.Core, o: Observers.Observers, fb: array<bv32>, completed: bool)
        returns (ghost log: seq<Event>)
      requires Ready(c, o, fb)
      modifies this`phase, this`displayed, c, o
      ensures Ready(c, o, fb) && View(c, o, fb) == Freed(old(View(c, o, fb)), completed)
      ensures log == ReleaseEvents(old(View(c, o, fb)))
    {
      hide VgaReleased;
      log := if o.vgaSlot == NO_SLOT then [] else [Release(Leased(c.State(), o.vgaSlot, Observer.Vga))];
      if completed && o.vgaSlot < 2 {
        displayed := displayed + [c.slot[o.vgaSlot].snapshot];
      }
      o.VgaRelease(c, completed);
      phase := READY;
      assert View(c, o, fb) == Freed(old(View(c, o, fb)), completed);
    }

    method Abandon(c: HealthCore.Core, o: Observers.Observers, fb: array<bv32>, detail: bv32)
        returns (ghost log: seq<Event>)
      requires Ready(c, o, fb)
      modifies this`phase, this`displayed, c, o
      ensures Ready(c, o, fb) && View(c, o, fb) == Abandoned(old(View(c, o, fb)), detail)
      ensures log == ReleaseEvents(Failed(old(View(c, o, fb)), detail))
    {
      hide Failed, Freed, View;
      Fail(c, o, fb, detail);
      log := Free(c, o, fb, false);
    }

    /** The phase in which the observer renders. */
    method Prepare(c: HealthCore.Core, o: Observers.Observers, fb: array<bv32>) returns (ghost log: seq<Event>)
      requires Ready(c, o, fb)
      modifies this`phase, this`deadline, c, o, fb, o.vgaBuffer
      ensures Ready(c, o, fb) && View(c, o, fb) == PrepareServed(old(View(c, o, fb)))
      ensures log == PrepareEvents(old(View(c, o, fb)))
    {
      hide VgaPrepared;
      log := PrepareEvents(View(c, o, fb));
      var prepared := o.VgaPrepare(c, fb);
      if prepared < 0 {
        phase := READY;
        deadline := deadline.(armed := false);
      } else if prepared != 0 {
        phase := ARM;
      }
      assert View(c, o, fb) == PrepareServed(old(View(c, o, fb)));
    }

    /** vram_start_operation(VRAM_CTRL_SWAP): refused unless the domain is ready and idle; afterwards the
        processor faces whatever the other buffer holds. */
    method StartSwap(c: HealthCore.Core, o: Observers.Observers, fb: array<bv32>, r: Readings)
        returns (ok: bool, ghost log: seq<Event>)
      requires Ready(c, o, fb)
      modifies this`shown, fb
      ensures Ready(c, o, fb) && ok == (ReadyBit(r.atSwap) && !BusyBit(r.atSwap))
      ensures log == [Read(r.atSwap)] + if ok then [Clear(DONE_AND_ABORT), Event.Swap] else []
      ensures var d := old(View(c, o, fb));
        View(c, o, fb) == if ok then d.(shown := d.shown + [Shown(d.Current(), d.fb)], fb := r.after) else d
    {
      hide ReadyBit, BusyBit;
      log := [Read(r.atSwap)];
      if !ReadyBit(r.atSwap) || BusyBit(r.atSwap) {
        return false, log;
      }
      log := log + [Clear(DONE_AND_ABORT), Event.Swap];
      ghost var d := View(c, o, fb);
      shown := shown + [Shown(d.Current(), d.fb)];
      forall w | 0 <= w < VgaText.WORDS {
        fb[w] := r.after[w];
      }
      assert fb[..] == r.after;
      assert View(c, o, fb) == d.(shown := shown, fb := r.after);
      return true, log;
    }

    method Swap(c: HealthCore.Core, o: Observers.Observers, fb: array<bv32>, r: Readings)
        returns (ghost log: seq<Event>)
      requires Ready(c, o, fb)
      modifies this`phase, this`displayed, this`shown, c, o, fb
      ensures Ready(c, o, fb) && View(c, o, fb) == SwapServed(old(View(c, o, fb)), r)
      ensures log == SwapEvents(old(View(c, o, fb)), r)
    {
      hide AbortBit, ReadyBit, BusyBit, Abandoned, ReleaseEvents, Failed;
      ghost var d := View(c, o, fb);
      if AbortBit(r.recheck) {
        ghost var released := Abandon(c, o, fb, Or(0x60000000, r.recheck));
        return [Read(r.recheck)] + released;
      }
      var ok;
      ok, log := StartSwap(c, o, fb, r);
      log := [Read(r.recheck)] + log;
      if !ok {
        ghost var released := Abandon(c, o, fb, Or(0x62000000, r.recheck));
        return log + released;
      }
      phase := DONE;
      assert View(c, o, fb) == SwapServed(d, r);
    }

    method Finish(c: HealthCore.Core, o: Observers.Observers, fb: array<bv32>, status: bv32)
        returns (ghost log: seq<Event>)
      requires Ready(c, o, fb)
      modifies this`phase, this`displayed, this`generation, this`attempt, this`deadline, c, o
      ensures Ready(c, o, fb) && View(c, o, fb) == DoneServed(old(View(c, o, fb)), status)
      ensures log == DoneEvents(old(View(c, o, fb)), status)
    {
      hide Reported, Freed, ReleaseEvents;
      ghost var d := View(c, o, fb);
      generation := Inc(generation);
      var _ := c.Report(VGA, STEP_PROGRESS, generation, status);
      DoneShape(d, status);
      assert View(c, o, fb) == d.(core := c.State(), t := d.t.(generation := generation));
      ghost var released := Free(c, o, fb, true);
      log := [Beat, Clear(SYNC_AND_DONE)] + released;
      ghost var e := View(c, o, fb);
      Arm(c);
      assert View(c, o, fb) == Rearmed(e);
    }

    method Phase(c: HealthCore.Core, o: Observers.Observers, fb: array<bv32>, r: Readings)
        returns (ghost log: seq<Event>)
      requires Ready(c, o, fb)
      modifies this, c, o, fb, o.vgaBuffer
      ensures Ready(c, o, fb) && View(c, o, fb) == PhaseServed(old(View(c, o, fb)), r)
      ensures Position() == old(Position()) && log == PhaseEvents(old(View(c, o, fb)), r)
    {
      hide AbortBit, ReadyBit, BusyBit, VsyncBit, DoneBit, Abandoned, PrepareServed, SwapServed, DoneServed;
      hide PrepareEvents, SwapEvents, DoneEvents, ReleaseEvents, Failed;
      ghost var d := View(c, o, fb);
      log := [];
      if phase == READY {
        if !BusyBit(r.status) {
          phase := PREPARE;
          assert View(c, o, fb) == WithPhase(d, PREPARE);
        }
      } else if phase == PREPARE {
        if !BusyBit(r.status) {
          log := Prepare(c, o, fb);
        }
      } else if phase == ARM {
        log := [Clear(SYNC_AND_DONE)];
        phase := FRESH;
        assert View(c, o, fb) == WithPhase(d, FRESH);
      } else if phase == FRESH {
        if VsyncBit(r.status) && !BusyBit(r.status) {
          log := Swap(c, o, fb, r);
        }
      } else if phase == DONE {
        if DoneBit(r.status) && !BusyBit(r.status) {
          log := Finish(c, o, fb, r.status);
        }
      } else {
        log := Abandon(c, o, fb, 0x6001);
      }
    }

    /** soc_health_vga_service */
    method VgaService(c: HealthCore.Core, o: Observers.Observers, fb: array<bv32>, r: Readings)
        returns (ghost log: seq<Event>)
      requires Ready(c, o, fb)
      modifies this, c, o, fb, o.vgaBuffer
      ensures Ready(c, o, fb) && View(c, o, fb) == VgaServed(old(View(c, o, fb)), r)
      ensures Position() == old(Position()) && log == TurnEvents(old(View(c, o, fb)), r)
    {
      hide AbortBit, ReadyBit, Abandoned, PhaseServed, PolledVga, ArmedServed, Freed, ArmedEvents;
      ghost var d := View(c, o, fb);
      if !deadline.armed {
        Arm(c);
        assert View(c, o, fb) == Rearmed(d);
      }
      ghost var rest := AfterArm(c, o, fb, r);
      log := [Read(r.status)] + rest;
    }

    /** The rest of the service, with the deadline armed. */
    method AfterArm(c: HealthCore.Core, o: Observers.Observers, fb: array<bv32>, r: Readings)
        returns (ghost log: seq<Event>)
      requires Ready(c, o, fb)
      modifies this, c, o, fb, o.vgaBuffer
      ensures Ready(c, o, fb) && View(c, o, fb) == ArmedServed(old(View(c, o, fb)), r)
      ensures Position() == old(Position()) && log == ArmedEvents(old(View(c, o, fb)), r)
    {
      hide AbortBit, ReadyBit, Abandoned, PhaseServed, PolledVga, Freed, PhaseEvents, ReleaseEvents, Failed;
      ghost var d := View(c, o, fb);
      if AbortBit(r.status) {
        ghost var released := Abandon(c, o, fb, Or(0x60000000, r.status));
        ghost var e := View(c, o, fb);
        Arm(c);
        assert View(c, o, fb) == Rearmed(e);
        return [Clear(ALL_EVENTS)] + released;
      }
      log := [];
      var fired := Expired(c, o, fb);
      if fired {
        log := Free(c, o, fb, false);
      } else if !ReadyBit(r.status) {
        if phase != READY {
          log := Abandon(c, o, fb, Or(0x61000000, r.status));
        }
      } else {
        log := Phase(c, o, fb, r);
      }
    }
  }

  /** What the hardware does in one pass of the loop: the answers to the screen, the serial observer, the board,
      the pins and the loopback, and the reports of the four services that are left open. */
  datatype Signals = Signals(
    reports: seq<FreeReport>, screen: Readings, uartReady: bool, answers: B.Answers, pins: G.Pins, lines: U.Lines)

  /** The inputs to the specification of the main loop: as the hardware answered, and with some reports. */
  ghost predicate From(inputs: seq<Input>, signals: seq<Signals>) {
    && |inputs| == |signals|
    && forall k :: 0 <= k < |signals| ==>
         inputs[k].screen == signals[k].screen && inputs[k].uartReady == signals[k].uartReady
  }

  /** The main program: its records, the framebuffer, the histories of `World`, and what the screen's
      provider and the serial observer have done on the bus. */
  class Program {
    const core: HealthCore.Core
    const observers: Observers.Observers
    const providers: Providers
    const board: BoardService.Board
    const serial: UartService.SerialLoop
    const fb: array<bv32>
    var lastPublication: U32
    ghost var sent: string
    ghost var printed: seq<Printed>
    ghost var published: seq<Snapshot>
    ghost var screenBus: seq<Event>
    ghost var serialBus: seq<Event>

    ghost predicate Valid()
      reads this, core, observers, observers.uartBuffer, providers, fb
    {
      providers.Ready(core, observers, fb)
    }

    ghost function State(): World
      requires Valid()
      reads this, core, observers, observers.uartBuffer, providers, fb
    {
      World(providers.View(core, observers, fb), providers.Position(), lastPublication, sent, printed, published)
    }

    /** The promises of the board, the pins and the loopback hold. */
    ghost predicate InOrder()
      requires Valid()
      reads this, core, observers, observers.uartBuffer, providers, fb, board, serial, serial.frame
    {
      serial.Valid() && Answering(board.Commands(core), board.Pins(core), serial.State(core))
    }

    /** Whatever only the others have done to the core. */
    twostate lemma StaysInOrder()
      requires old(Valid() && InOrder()) && Valid() && unchanged(board, serial, serial.frame)
      requires Aside(old(core.State()), core.State())
      ensures InOrder()
    {
      hide B.Kept, G.Kept, U.Kept, Untouched;
      Carried(old(core.State()), core.State(), VGA, old(board.Commands(core)), old(board.Pins(core)),
        old(serial.State(core)));
      assert board.Commands(core) == old(board.Commands(core)).(core := core.State());
      assert board.Pins(core) == old(board.Pins(core)).(core := core.State());
      assert serial.frame[..serial.rx] == old(serial.frame[..serial.rx]);
    }

    /** main, up to its loop. */
    constructor (memory: Snapshot, other: Snapshot, fb: array<bv32>)
      requires fb.Length == VgaText.WORDS
      ensures Valid() && Initial(core.State()) && State() == Start(core.State(), fb[..])
      ensures this.fb == fb && fresh(core) && fresh(observers) && fresh(providers)
      ensures fresh(observers.vgaBuffer) && fresh(observers.uartBuffer) && screenBus == serialBus == []
      ensures InOrder() && fresh(board) && fresh(serial) && fresh(serial.frame)
    {
      hide Kept, Answering, Initial;
      var c := new HealthCore.Core(memory, other);
      core := c;
      observers := new Observers.Observers();
      providers := new Providers();
      board := new BoardService.Board(c);
      serial := new UartService.SerialLoop(c);
      this.fb, lastPublication, sent, printed, published := fb, 0, "", [], [];
      screenBus, serialBus := [], [];
      new;
      IdlesAnswer(core.State());
    }

    /** soc_health_uart_service */
    method LoopTurn(lines: U.Lines)
      requires core.Valid() && serial.Valid() && U.Kept(serial.State(core))
      modifies core, serial, serial.frame
      ensures core.Valid() && serial.Valid() && U.Kept(serial.State(core))
      ensures Reports(old(core.State()), core.State(), UART_LOOP)
    {
      hide U.Kept, U.Served, Reports;
      ghost var l := serial.State(core);
      KeptRx(l);
      U.ServedKept(l, lines);
      LoopReports(l, lines);
      var _ := serial.Service(core, lines);
    }

    /** gpio_service */
    method PinTurn(pins: G.Pins)
      requires core.Valid() && G.Kept(board.Pins(core))
      modifies core, board
      ensures core.Valid() && G.Kept(board.Pins(core)) && Reports(old(core.State()), core.State(), GPIO)
      ensures board.Commands(core) == old(board.Commands(core)).(core := core.State())
    {
      hide G.Kept, G.Served, Reports;
      ghost var g := board.Pins(core);
      G.ServedKept(g, pins);
      GpioReports(g, pins);
      board.GpioService(core, pins);
    }

    /** sw_service */
    method SwTurn(a: B.Answers)
      requires core.Valid() && B.Kept(board.Commands(core))
      modifies core, board
      ensures core.Valid() && B.Kept(board.Commands(core)) && Reports(old(core.State()), core.State(), SW)
      ensures board.Pins(core) == old(board.Pins(core)).(core := core.State())
    {
      hide B.Kept, B.SwServed, Reports;
      ghost var b := board.Commands(core);
      B.SwKept(b, a);
      SwReports(b, a);
      board.SwService(core, a);
    }

    /** led_service */
    method LedTurn(a: B.Answers)
      requires core.Valid() && B.Kept(board.Commands(core))
      modifies core, board
      ensures core.Valid() && B.Kept(board.Commands(core)) && Reports(old(core.State()), core.State(), LED)
      ensures board.Pins(core) == old(board.Pins(core)).(core := core.State())
    {
      hide B.Kept, B.LedServed, Reports;
      ghost var b := board.Commands(core);
      B.LedKept(b, a);
      LedReports(b, a);
      board.LedService(core, a);
    }

    /** hex_service */
    method HexTurn(a: B.Answers)
      requires core.Valid() && B.Kept(board.Commands(core))
      modifies core, board
      ensures core.Valid() && B.Kept(board.Commands(core)) && Reports(old(core.State()), core.State(), HEX)
      ensures board.Pins(core) == old(board.Pins(core)).(core := core.State())
    {
      hide B.Kept, B.HexServed, Reports;
      ghost var b := board.Commands(core);
      B.HexKept(b, a);
      HexReports(b, a);
      board.HexService(core, a);
    }

    /** The service of an id: its own promise is kept by what it does, and those of the others by what it leaves
        alone. */
    method Dispatch(id: nat, s: Signals)
      requires core.Valid() && serial.Valid() && Served(id)
      requires Answering(board.Commands(core), board.Pins(core), serial.State(core))
      modifies core, board, serial, serial.frame
      ensures core.Valid() && serial.Valid() && Reports(old(core.State()), core.State(), id)
      ensures Answering(board.Commands(core), board.Pins(core), serial.State(core))
    {
      hide U.Kept, B.Kept, G.Kept, Untouched, Reports;
      ghost var c, b, g, l := core.State(), board.Commands(core), board.Pins(core), serial.State(core);
      if id == UART_LOOP {
        LoopTurn(s.lines);
      } else if id == GPIO {
        PinTurn(s.pins);
      } else if id == SW {
        SwTurn(s.answers);
      } else if id == LED {
        LedTurn(s.answers);
      } else {
        HexTurn(s.answers);
      }
      ReportsOthers(c, core.State(), id);
      Carried(c, core.State(), id, b, g, l);
    }

    /** The turn of one of these services: it makes reports for its own id and nothing else. */
    method ServiceTurn(id: nat, s: Signals) returns (ghost made: seq<OtherReport>)
      requires Valid() && InOrder() && Served(id)
      modifies core, board, serial, serial.frame
      ensures Valid() && InOrder() && All(made, id)
      ensures var w := old(State()); State() == w.(display := w.display.(core := ReportedAll(w.display.core, made)))
    {
      hide Answering, ReportedAll, All;
      ghost var c := core.State();
      Dispatch(id, s);
      made :| All(made, id) && core.State() == ReportedAll(c, made);
      ReportedAllKeeps(c, made);
    }

    /** A turn of one of the other four. */
    method OtherTurn(reports: seq<FreeReport>)
      requires Valid()
      modifies core
      ensures Valid() && Aside(old(core.State()), core.State())
      ensures var w := old(State()); State() == w.(display := w.display.(core := ReportedAll(w.display.core, reports)))
    {
      hide Reported, Aside;
      ghost var c := core.State();
      for n := 0 to |reports|
        invariant core.Valid() && core.State() == ReportedAll(c, reports[..n])
      {
        var _ := core.Report(reports[n].id, reports[n].step, reports[n].token, reports[n].detail);
        assert reports[..n + 1][..n] == reports[..n];
      }
      assert reports[..|reports|] == reports;
      ReportedAllKeeps(c, reports);
      ReportsAside(c, reports);
    }

    /** The first half of soc_health_providers_service: whose turn it is. */
    method Choose() returns (id: nat)
      requires Valid() && providers.Position().Valid()
      modifies providers
      ensures Valid() && id == Dispatcher.Chosen(old(providers.Position()))
      ensures var w := old(State()); State() == w.(disp := Dispatcher.Advanced(w.disp))
    {
      if providers.initIndex < 5 {
        id := Dispatcher.InitOrder(providers.initIndex);
        providers.initIndex := providers.initIndex + 1;
      } else {
        id := providers.next + 1;
        providers.next := providers.next + 1;
        if providers.next == 10 {
          providers.next := 0;
        }
      }
    }

    /** soc_health_providers_service */
    method ProvidersService(s: Signals) returns (id: nat, ghost made: seq<OtherReport>)
      requires Valid() && InOrder() && providers.Position().Valid()
      modifies this`screenBus, core, observers, observers.vgaBuffer, providers, fb, board, serial, serial.frame
      ensures Valid() && InOrder() && id == Dispatcher.Chosen(old(providers.Position()))
      ensures screenBus == old(screenBus) + if id == VGA then TurnEvents(old(State().display), s.screen) else []
      ensures var w := old(State());
        State() == w.(display := ProviderTurn(w.display, id, Input(made, s.screen, s.uartReady)),
                      disp := Dispatcher.Advanced(w.disp))
      ensures Served(id) ==> All(made, id)
      ensures id != VGA && !Served(id) ==> made == s.reports
    {
      hide VgaServed, ReportedAll, TurnEvents, Dispatcher.Chosen, Dispatcher.Advanced, Aside, Answering;
      ghost var w := State();
      id := Choose();
      made := s.reports;
      if id == VGA {
        ScreenAside(w.display, s.screen);
        ghost var log := providers.VgaService(core, observers, fb, s.screen);
        screenBus := screenBus + log;
        StaysInOrder();
      } else if id == UART_LOOP || id == GPIO || id == SW || id == LED || id == HEX {
        made := ServiceTurn(id, s);
      } else {
        OtherTurn(s.reports);
        StaysInOrder();
      }
    }

    /** The serial observer's turn. */
    method SerialService(ready: bool)
      requires Valid() && UartFit(State().display)
      modifies core, observers, observers.uartBuffer, this`sent, this`printed, this`serialBus
      ensures Valid() && State() == SerialTurn(old(State()), ready)
      ensures serialBus == old(serialBus) + UartEvents(old(core.State()), old(observers.State()), ready)
    {
      hide UartServed, Observing.Expired, UartEvents;
      ghost var w := State();
      serialBus := serialBus + UartEvents(core.State(), observers.State(), ready);
      ghost var s := if observers.uartSlot < 2 then Some(core.slot[observers.uartSlot].snapshot) else Option.None;
      ghost var late := Observing.Expired(core.State(), observers.State());
      ServedShape(w.display, ready);
      var out := observers.UartService(core, ready);
      if s.Some? && observers.uartSlot == NO_SLOT && !late {
        printed := printed + [Printed(s.value, sent)];
      }
      sent := sent + out;
      assert State() == SerialTurn(w, ready);
    }

    /** The publication, if one is due. */
    method Publication()
      requires Valid()
      modifies core, observers, this`lastPublication, this`sent, this`published
      ensures Valid() && State() == PublicationTurn(old(State()))
    {
      hide Published, Taken, FreeSlot;
      ghost var w := State();
      PublicationShape(w);
      if Sub(core.epoch, lastPublication) >= REPORT_PERIOD {
        if observers.pending.None() {
          ghost var taken := Taken(core.State());
          ghost var c := core.State();
          var slot := core.PublishSnapshot();
          if slot != NO_SLOT {
            PublishedKeeps(c);
            var _ := observers.Begin(slot, core.epoch);
            lastPublication := core.epoch;
            sent, published := "", published + [taken];
          }
        } else {
          core.backlog := Inc(core.backlog);
        }
      }
      assert State() == PublicationTurn(w);
    }

    method SerialPass(ready: bool)
      requires Valid() && InOrder() && UartFit(State().display)
      modifies core, observers, observers.uartBuffer, this`sent, this`printed, this`serialBus
      ensures Valid() && InOrder() && State() == SerialTurn(old(State()), ready)
      ensures serialBus == old(serialBus) + UartEvents(old(State()).display.core, old(State()).display.obs, ready)
    {
      hide SerialTurn, Aside, Answering, UartEvents;
      SerialAside(State(), ready);
      SerialService(ready);
      StaysInOrder();
    }

    method PublicationPass()
      requires Valid() && InOrder()
      modifies core, observers, this`lastPublication, this`sent, this`published
      ensures Valid() && InOrder() && State() == PublicationTurn(old(State()))
    {
      hide PublicationTurn, Aside, Answering;
      PublicationAside(State());
      Publication();
      StaysInOrder();
    }

    /** The first two turns of a pass. */
    method ProviderPass(s: Signals) returns (ghost i: Input)
      requires Valid() && InOrder() && Kept(State())
      modifies this`screenBus, core, observers, observers.vgaBuffer, providers, fb, board, serial, serial.frame
      ensures old(State()).display.Shape() && old(State()).disp.Valid()
      ensures Valid() && InOrder() && State() == BeforeSerial(old(State()), i)
      ensures screenBus == old(screenBus) + ScreenEvents(old(State()), i)
      ensures i.screen == s.screen && i.uartReady == s.uartReady
    {
      hide Kept, TurnEvents, EpochTurn, ProviderTurn, UartFit, Dispatcher.Chosen, Dispatcher.Advanced, InOrder;
      ghost var w := State();
      KeptShape(w);
      EpochTurnKept(w);
      BeginEpoch();
      KeptShape(State());
      var id, made := ProvidersService(s);
      i := Input(made, s.screen, s.uartReady);
    }

    /** One pass of main's loop. */
    method Pass(s: Signals) returns (ghost i: Input)
      requires Valid() && InOrder() && Kept(State())
      modifies this, core, observers, observers.vgaBuffer, observers.uartBuffer, providers, fb
      modifies board, serial, serial.frame
      ensures Valid() && InOrder() && State() == MainStep(old(State()), i)
      ensures i.screen == s.screen && i.uartReady == s.uartReady
      ensures old(State()).display.Shape() && old(State()).disp.Valid()
      ensures screenBus == old(screenBus) + ScreenEvents(old(State()), i)
      ensures serialBus == old(serialBus) + SerialEvents(old(State()), i)
    {
      hide Kept, BeforeSerial, UartEvents, ScreenEvents, SerialTurn, PublicationTurn, MainStep, UartFit, InOrder;
      hide Valid, State;
      ghost var w := State();
      KeptShape(w);
      i := ProviderPass(s);
      PassHalves(w, i);
      SerialPass(s.uartReady);
      PublicationPass();
    }

    method BeginEpoch()
      requires Valid()
      modifies core
      ensures Valid() && State() == old(State()).(display := EpochTurn(old(State()).display))
      ensures old(InOrder()) ==> InOrder()
    {
      hide EpochBegun, Aside, Answering;
      ghost var w := State();
      EpochKeeps(core.State());
      core.EpochBegin();
      assert State() == w.(display := EpochTurn(w.display));
      EpochAside(w.display.core);
      if old(InOrder()) {
        StaysInOrder();
      }
    }

    /** The loop of main, for as many passes as the hardware answers. */
    method Loop(signals: seq<Signals>) returns (ghost inputs: seq<Input>)
      requires Valid() && InOrder() && Kept(State())
      modifies this, core, observers, observers.vgaBuffer, observers.uartBuffer, providers, fb
      modifies board, serial, serial.frame
      ensures Valid() && InOrder() && From(inputs, signals) && State() == Run(old(State()), inputs)
      ensures screenBus == old(screenBus) + ScreenBus(old(State()), inputs)
      ensures serialBus == old(serialBus) + SerialBus(old(State()), inputs)
    {
      hide Kept, MainStep, Valid, State, InOrder, ScreenEvents, SerialEvents, Run, ScreenBus, SerialBus;
      ghost var w, screen, serial := State(), screenBus, serialBus;
      RunsNowhere(w);
      inputs := [];
      for n := 0 to |signals|
        invariant Valid() && InOrder() && From(inputs, signals[..n]) && State() == Run(w, inputs)
        invariant screenBus == screen + ScreenBus(w, inputs) && serialBus == serial + SerialBus(w, inputs)
      {
        ghost var i := Pass(signals[n]);
        assert signals[..n + 1][..n] == signals[..n];
        RunsOn(w, inputs, i);
        inputs := inputs + [i];
      }
      assert signals[..|signals|] == signals;
    }
  }

  lemma RunsNowhere(w: World)
    requires Kept(w)
    ensures Run(w, []) == w && ScreenBus(w, []) == [] && SerialBus(w, []) == []
  {
    hide Kept;
  }

  lemma RunsOn(w: World, inputs: seq<Input>, i: Input)
    requires Kept(w)
    ensures Kept(Run(w, inputs))
    ensures var x := Run(w, inputs);
      && x.display.Shape() && x.disp.Valid() && Run(w, inputs + [i]) == MainStep(x, i)
      && ScreenBus(w, inputs + [i]) == ScreenBus(w, inputs) + ScreenEvents(x, i)
      && SerialBus(w, inputs + [i]) == SerialBus(w, inputs) + SerialEvents(x, i)
  {
    hide Kept, MainStep, ScreenEvents, SerialEvents;
    assert (inputs + [i])[..|inputs|] == inputs;
    KeptShape(Run(w, inputs));
  }

  lemma IdlesAnswer(c: Core)
    requires Initial(c)
    ensures Answering(B.Idle(c), G.Idle(c), U.Idle(c))
  {
    hide B.Kept, G.Kept;
    B.IdleKept(c);
    G.IdleKept(c);
  }

  lemma KeptRx(l: U.Loop)
    requires U.Kept(l)
    ensures l.rx < U.FRAME && l.core.Shape()
  {
    hide U.Frame, U.Tally;
  }

  lemma ServedShape(d: Display, ready: bool)
    requires d.Shape() && UartFit(d)
    ensures var u := UartServed(d.core, d.obs, ready); d.(core := u.core, obs := u.obs).Shape()
  {
    hide Observing.Expired, StageText;
  }

  lemma PublicationShape(w: World)
    requires w.display.Shape()
    ensures PublicationTurn(w).display.Shape()
  {
    hide Taken;
  }

  lemma DoneShape(d: Display, status: bv32)
    requires d.Shape()
    ensures var g := Inc(d.t.generation);
      d.(core := Reported(d.core, Report(VGA, STEP_PROGRESS, g, status)), t := d.t.(generation := g)).Shape()
  {
    hide Reported;
    HealthRuns.ReportedKeepsStore(d.core, Report(VGA, STEP_PROGRESS, Inc(d.t.generation), status));
  }

  /** What the records of the three services promise. */
  ghost predicate ServicesPromise(c: Core, b: B.Board, g: G.Gpio, l: U.Loop)
    requires c.Shape()
  {
    && B.Promised(c, b.log, b.ledPending, b.hexPending)
    && G.Promised(c, g.log)
    && c.ip[UART_LOOP].heartbeats == Low32(U.Tally(l.beats))
    && forall k :: 0 <= k < |l.beats| ==> l.beats[k].received == l.beats[k].sent == U.Frame(l.beats[k].number)
  }

  lemma AnsweringPromise(b: B.Board, g: G.Gpio, l: U.Loop)
    requires Answering(b, g, l) && b.core == g.core == l.core
    ensures b.core.Shape() && ServicesPromise(b.core, b, g, l)
  {
    hide B.Kept, G.Kept, B.Promised, G.Promised, U.Tally, U.Frame;
    B.KeptPromised(b);
    G.KeptPromised(g);
  }

  /** The program from power-up: whatever memory and the framebuffer held and whatever the hardware answers,
      everything proved of the runs of the specification holds of the program's own records. */
  method PowerUp(memory: Snapshot, other: Snapshot, fb: array<bv32>, signals: seq<Signals>) returns (p: Program)
    requires fb.Length == VgaText.WORDS
    modifies fb
    ensures fresh(p) && p.Valid() && p.serial.Valid()
    ensures ShowsAndSends(p.State()) && LeasesAgree(p.State().display)
    ensures BusVouches(p.State(), p.screenBus, p.serialBus)
    ensures |signals| < 0x8000_0000 ==> MainTiming.LeasesInTime(p.State(), |signals|)
    ensures ServicesPromise(p.core.State(), p.board.Commands(p.core), p.board.Pins(p.core), p.serial.State(p.core))
  {
    hide Kept, Run, Start, ShowsAndSends, LeasesAgree, BusVouches, MainTiming.LeasesInTime, ScreenBus, SerialBus;
    hide Answering, ServicesPromise;
    p := new Program(memory, other, fb);
    ghost var c, frame := p.core.State(), fb[..];
    InitialKept(c, frame);
    ghost var inputs := p.Loop(signals);
    EveryRun(c, frame, inputs);
    LeasesInEveryRun(c, frame, inputs);
    HeartbeatsVouch(c, frame, inputs);
    assert p.screenBus == ScreenBus(Start(c, frame), inputs) && p.serialBus == SerialBus(Start(c, frame), inputs);
    AnsweringPromise(p.board.Commands(p.core), p.board.Pins(p.core), p.serial.State(p.core));
    if |inputs| < 0x8000_0000 {
      MainTiming.LeasesEnd(c, frame, inputs);
    }
  }
}
