/** Liveness of the serial report: while the budget lasts, every turn with a ready transmitter sends its next
    character, and the one after the last ends the lease as completed. */
module SerialLiveness {
  import opened Words
  import opened Health
  import opened HealthText
  import opened Observing
  import opened VgaTransaction
  import opened VgaEffects
  import opened MainLoop
  import opened MainTiming
  import Dispatcher

  /** The serial lease of s is held, with so many characters out. */
  predicate Sending(w: World, s: Snapshot, sent: nat, printed: seq<Printed>, start: U32) {
    && w.display.Shape() && w.display.obs.uartSlot < 2 && w.display.core.slot[w.display.obs.uartSlot].snapshot == s
    && |w.sent| == sent && w.printed == printed && w.display.obs.start == start
  }

  lemma SendingSame(w: World, x: World, s: Snapshot, sent: nat, printed: seq<Printed>, start: U32)
    requires Sending(w, s, sent, printed, start) && x.display.Shape() && x.sent == w.sent && x.printed == w.printed
    requires UartPart(x.display.obs) == UartPart(w.display.obs)
    requires forall k :: 0 <= k < 2 ==> x.display.core.slot[k].snapshot == w.display.core.slot[k].snapshot
    ensures Sending(x, s, sent, printed, start)
  {
    UartPartSlot(x.display.obs, w.display.obs);
  }

  lemma EpochSending(w: World, s: Snapshot, sent: nat, printed: seq<Printed>, start: U32)
    requires w.display.Shape() && Sending(w, s, sent, printed, start)
    ensures Sending(w.(display := EpochTurn(w.display)), s, sent, printed, start)
    ensures EpochTurn(w.display).core.epoch == Inc(w.display.core.epoch)
  {
    hide EpochBegun, Sending, UartPart;
    EpochKeeps(w.display.core);
    SendingSame(w, w.(display := EpochTurn(w.display)), s, sent, printed, start);
  }

  lemma ProviderSending(w: World, id: nat, i: Input, s: Snapshot, sent: nat, printed: seq<Printed>, start: U32)
    requires w.display.Shape() && Rendering(w.display) && Sending(w, s, sent, printed, start)
    ensures var x := w.(display := ProviderTurn(w.display, id, i));
      Sending(x, s, sent, printed, start) && x.display.core.epoch == w.display.core.epoch
  {
    hide ReportedAll, VgaServed, Sending, UartPart, Rendering;
    var x := w.(display := ProviderTurn(w.display, id, i));
    if id == VGA {
      VgaServedSettled(w.display, i.screen, 0);
    } else {
      ReportedAllKeeps(w.display.core, i.reports);
    }
    SendingSame(w, x, s, sent, printed, start);
  }

  lemma NotReady(c: Core, o: Obs)
    requires Agree(c, o) && o.uartSlot < 2 && (o.uartLength > 0 ==> o.uartColumn < o.uartLength)
      && !Observing.Expired(c, o)
    ensures UartServed(c, o, false).obs.uartSlot == o.uartSlot
  {
    hide Observing.Expired, StageText;
  }

  /** The serial turn itself. */
  lemma SerialSending(w: World, ready: bool, s: Snapshot, sent: nat, printed: seq<Printed>, start: U32)
    requires Kept(w) && w.display.Shape() && UartFit(w.display) && Sending(w, s, sent, printed, start)
    requires !Observing.Expired(w.display.core, w.display.obs)
    ensures |s.ip| == IP_COUNT && w.sent <= ReportText(s)
    ensures var x := SerialTurn(w, ready);
      if ready && sent == |ReportText(s)| then
        x.printed == printed + [Printed(s, ReportText(s))] && x.display.obs.uartSlot == NO_SLOT
      else Sending(x, s, if ready then sent + 1 else sent, printed, start)
  {
    hide UartServed, Sent, ReportText, Observing.Expired, Agree, UartReleased;
    var d := w.display;
    KeptAgrees(w);
    SentIsPrefix(s, d.obs, w.sent);
    UartServedKeeps(d.core, d.obs, ready);
    UartStep(d.core, d.obs, ready, w.sent);
    SerialTurnKept(w, ready);
    var u, x := UartServed(d.core, d.obs, ready), SerialTurn(w, ready);
    if u.obs.uartSlot == d.obs.uartSlot {
      SentIsPrefix(s, u.obs, w.sent + u.sent);
    } else if !ready {
      NotReady(d.core, d.obs);
    }
  }

  lemma PublicationSending(w: World, s: Snapshot, sent: nat, printed: seq<Printed>, start: U32)
    requires w.display.Shape() && Agree(w.display.core, w.display.obs)
    ensures PublicationTurn(w).printed == w.printed
    ensures Sending(w, s, sent, printed, start) ==> Sending(PublicationTurn(w), s, sent, printed, start)
  {
    hide Published, Taken, FreeSlot;
  }

  /** One pass. */
  lemma PassSending(w: World, i: Input, t: nat, s: Snapshot, sent: nat, printed: seq<Printed>, start: U32)
    requires Kept(w) && w.display.Shape() && w.display.core.epoch == t && start <= t + 1 < start + OBSERVER_BUDGET
    requires t + 1 < 0x8000_0000 && Sending(w, s, sent, printed, start)
    ensures |s.ip| == IP_COUNT
    ensures var x := MainStep(w, i);
      if i.uartReady && sent == |ReportText(s)| then x.printed == printed + [Printed(s, ReportText(s))]
      else Sending(x, s, if i.uartReady then sent + 1 else sent, printed, start)
  {
    hide Kept, EpochTurn, ProviderTurn, SerialTurn, PublicationTurn, MainStep, UartFit, Sound, ReportText, Agree;
    hide Dispatcher.Chosen, Dispatcher.Advanced, Sending;
    KeptShape(w);
    PassParts(w, i);
    var id := Dispatcher.Chosen(w.disp);
    var w1 := w.(display := EpochTurn(w.display));
    EpochTurnKept(w);
    EpochSending(w, s, sent, printed, start);
    SoundRendering(w1.display);
    ProviderSending(w1, id, i, s, sent, printed, start);
    ProviderTurnKept(w1, id, i);
    var w2 := w1.(display := ProviderTurn(w1.display, id, i));
    AdvancedKept(w2);
    var w3 := w2.(disp := Dispatcher.Advanced(w.disp));
    SendingDisp(w2, w3, s, sent, printed, start);
    NotExpired(w3, s, sent, printed, start, t + 1);
    SerialSending(w3, i.uartReady, s, sent, printed, start);
    PublicationSending(SerialTurn(w3, i.uartReady), s, if i.uartReady then sent + 1 else sent, printed, start);
  }

  lemma SendingDisp(w: World, x: World, s: Snapshot, sent: nat, printed: seq<Printed>, start: U32)
    requires Sending(w, s, sent, printed, start) && x == w.(disp := x.disp)
    ensures Sending(x, s, sent, printed, start)
  {
  }

  lemma NotExpired(w: World, s: Snapshot, sent: nat, printed: seq<Printed>, start: U32, t: nat)
    requires Sending(w, s, sent, printed, start) && w.display.core.epoch == t && start <= t < start + OBSERVER_BUDGET
    ensures !Observing.Expired(w.display.core, w.display.obs)
  {
  }

  /** The passes with a ready transmitter. */
  function ReadyTurns(inputs: seq<Input>): nat {
    if inputs == [] then 0 else ReadyTurns(inputs[..|inputs| - 1]) + if inputs[|inputs| - 1].uartReady then 1 else 0
  }

  /** What went out completely stays so. */
  lemma PrintedStays(w: World, i: Input)
    requires Kept(w)
    ensures w.printed <= MainStep(w, i).printed
  {
    hide Kept, EpochTurn, ProviderTurn, UartServed, Observing.Expired, Published, Taken, FreeSlot, MainStep, UartFit;
    hide Dispatcher.Chosen, Dispatcher.Advanced;
    KeptShape(w);
    PassParts(w, i);
  }

  /** From any state of a run with s under serial lease, while the observers' budget lasts: with n ready
      turns of the transmitter, counting the characters already out, exactly the first n characters of the
      report are out; with one more than it has characters, the lease has ended as completed. */
  lemma {:induction false} ReportGoesOut(w: World, inputs: seq<Input>, t: nat, s: Snapshot)
    requires Kept(w) && w.display.Shape() && OnTime(w, t) && t + |inputs| < 0x8000_0000
    requires w.display.obs.uartSlot < 2 && w.display.core.slot[w.display.obs.uartSlot].snapshot == s
    requires t + |inputs| < w.display.obs.start + OBSERVER_BUDGET
    ensures |s.ip| == IP_COUNT
    ensures var x, n := Run(w, inputs), |w.sent| + ReadyTurns(inputs);
      && x.display.Shape() && OnTime(x, t + |inputs|)
      && if n > |ReportText(s)| then w.printed + [Printed(s, ReportText(s))] <= x.printed
         else Sending(x, s, n, w.printed, w.display.obs.start) && x.sent == ReportText(s)[..n]
  {
    hide Kept, OnTime, MainStep, Sending, ReportText;
    if inputs == [] {
      assert Sending(w, s, |w.sent|, w.printed, w.display.obs.start) by { SendingNow(w, s); }
      SendsReport(w, s, |w.sent|, w.printed, w.display.obs.start);
    } else {
      var m := |inputs| - 1;
      ReportGoesOut(w, inputs[..m], t, s);
      var x := Run(w, inputs[..m]);
      KeptShape(x);
      StepOnTime(x, inputs[m], t + m);
      PrintedStays(x, inputs[m]);
      var n := |w.sent| + ReadyTurns(inputs[..m]);
      if n <= |ReportText(s)| {
        EpochIs(x, t + m);
        StartsBefore(w, t);
        PassSending(x, inputs[m], t + m, s, n, w.printed, w.display.obs.start);
        KeptShape(MainStep(x, inputs[m]));
        if !(inputs[m].uartReady && n == |ReportText(s)|) {
          var k := if inputs[m].uartReady then n + 1 else n;
          SendsReport(MainStep(x, inputs[m]), s, k, w.printed, w.display.obs.start);
        }
      }
    }
  }

  lemma SendingNow(w: World, s: Snapshot)
    requires w.display.Shape() && w.display.obs.uartSlot < 2
      && w.display.core.slot[w.display.obs.uartSlot].snapshot == s
    ensures Sending(w, s, |w.sent|, w.printed, w.display.obs.start)
  {
  }

  lemma SendsReport(w: World, s: Snapshot, sent: nat, printed: seq<Printed>, start: U32)
    requires Kept(w) && Sending(w, s, sent, printed, start)
    ensures |s.ip| == IP_COUNT && sent <= |ReportText(s)| && w.sent == ReportText(s)[..sent]
  {
    hide ReportText, Sent;
    SentIsPrefix(s, w.display.obs, w.sent);
  }

  lemma EpochIs(w: World, t: nat)
    requires w.display.Shape() && OnTime(w, t)
    ensures w.display.core.epoch == t
  {
  }

  lemma StartsBefore(w: World, t: nat)
    requires w.display.Shape() && OnTime(w, t) && w.display.obs.uartSlot < 2
    ensures w.display.obs.start <= t
  {
  }
}
