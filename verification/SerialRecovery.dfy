/** How the serial loopback comes back after stray or lost bytes. On a line that takes at most one turn it is at
    rest after a bounded number of turns, whatever its state; on a line that takes exactly two turns a single
    stray byte stops it for ever. */
module SerialRecovery {
  import opened Words
  import opened Health
  import opened ByteValues
  import opened UartLoop
  import opened LosslessLine

  // ---------------------------------------------------------------- how long it can take

  /** Any state of the loopback, any bytes in the receiver and on the line. */
  predicate Sound(x: Line)
    ensures Sound(x) ==> x.loop.core.Shape()
  {
    Kept(x.loop) && Watching(x.loop)
  }

  /** An armed deadline is that of the last attempt. */
  predicate Watching(l: Loop) {
    l.deadline.armed ==> l.deadline.budget == PROVIDER_BUDGET && l.deadline.token == l.attempt
  }

  function Held(x: Line): nat {
    |x.fifo| + |x.flight|
  }

  /** The turns until a transfer begins on a clean line, when so many bytes are to be dropped. */
  function DrainTurns(held: nat, armed: bool): nat {
    2 * (held / RX_QUOTA) + if armed then 2 else 1
  }

  /** The epochs until the deadline. */
  function Left(d: Deadline, epoch: U32): nat {
    if !d.armed then PROVIDER_BUDGET
    else if Sub(epoch, d.start) >= PROVIDER_BUDGET then 0
    else PROVIDER_BUDGET - Sub(epoch, d.start)
  }

  /** The bytes still to be sent. */
  function Unsent(l: Loop): nat {
    if l.tx < FRAME then FRAME - l.tx else 0
  }

  /** How many attempts from this one on the core would not take the miss of. */
  function Stale(attempt: U32, s: Stream): nat {
    if Fresh(attempt, s) then 0
    else if attempt == s.token then 1 else 0x1_0000_0001 - Sub(attempt, s.token)
  }

  /** The attempt a missed deadline would be reported of. */
  function Attempt(l: Loop): U32 {
    if l.deadline.armed then l.attempt else Inc(l.attempt)
  }

  /** The epochs until a missed deadline ends the transfer. */
  function Waits(l: Loop, epoch: U32): nat
    requires l.core.Shape()
  {
    Left(l.deadline, epoch) + (PROVIDER_BUDGET + 1) * Stale(Attempt(l), l.core.missed[UART_LOOP])
  }

  function Patience(x: Line, epoch: U32): nat
    requires x.loop.core.Shape()
  {
    if x.loop.phase == INIT then 1 + DrainTurns(Held(x), false)
    else if x.loop.phase == DRAIN then DrainTurns(Held(x), x.loop.deadline.armed)
    else Waits(x.loop, epoch) + 1 + DrainTurns(Held(x) + Unsent(x.loop), false)
  }

  lemma PatienceIs(x: Line, epoch: U32)
    requires Sound(x)
    ensures 1 <= Patience(x, epoch) <= Waits(x.loop, epoch) + Held(x) / 2 + 8
    ensures Fresh(Attempt(x.loop), x.loop.core.missed[UART_LOOP]) ==> Waits(x.loop, epoch) <= PROVIDER_BUDGET
    ensures x.loop.phase != TRANSFER ==> Patience(x, epoch) <= Held(x) / 2 + 2
  {
    hide Tally, Frame;
  }

  // ---------------------------------------------------------------- one turn

  lemma MeetingSound(x: Line, t: Tick)
    requires Sound(x) && t.others.Shape()
    ensures Kept(Meeting(x, t)) && Meeting(x, t).core.epoch == t.others.epoch
  {
    hide Frame, Tally;
  }

  lemma WatchKept(l: Loop, a: Lines)
    requires l.core.Shape() && Watching(l)
    ensures Watching(Served(l, a).loop)
  {
    hide Received, Failed, Reported, Accepts, Inc;
    var p := UartLoop.Polled(Watched(l)).0;
    ReceivedStops(Transmitted(p, a.ready), a.bytes, RX_QUOTA);
  }

  /** Reading takes bytes away, and either goes on with the transfer or ends it. */
  lemma {:induction false} ReceivedStops(l: Loop, bytes: seq<Byte>, quota: nat)
    requires l.core.Shape()
    ensures var o := Received(l, bytes, quota);
      && |o.rest| <= |bytes| && |l.beats| <= |o.loop.beats|
      && ((o.loop.phase == DRAIN && !o.loop.deadline.armed)
          || o.loop == l.(rx := o.loop.rx, frame := o.loop.frame))
    decreases quota
  {
    hide Reported, Accepts, TokenByte, MismatchDetail;
    if quota > 0 && bytes != [] && bytes[0] == TokenByte(l.number, l.rx) {
      var m := l.(rx := l.rx + 1, frame := l.frame + [bytes[0]]);
      if m.rx != FRAME {
        ReceivedStops(m, bytes[1..], quota - 1);
      }
    }
  }

  lemma ExchangeSound(x: Line, t: Tick)
    requires Sound(x) && t.others.Shape()
    ensures Sound(Exchange(x, t))
  {
    MeetingSound(x, t);
    hide Kept, Served, Merged, Bytes;
    var flight := Travelling(x, t);
    var a := Lines(false, true, x.fifo + Bytes(flight[..Least(t.arrive, |flight|)]));
    ServedKept(Meeting(x, t), a);
    WatchKept(Meeting(x, t), a);
  }

  lemma BeatsGrow(x: Line, t: Tick)
    requires x.loop.core.Shape() && t.others.Shape()
    ensures |x.loop.beats| <= |Exchange(x, t).loop.beats|
  {
    hide Received, Failed, Reported, Accepts, Bytes, Merged, Aged, JustSent, TokenByte;
    var flight := Travelling(x, t);
    var bytes := x.fifo + Bytes(flight[..Least(t.arrive, |flight|)]);
    ReceivedStops(Transmitted(UartLoop.Polled(Watched(Meeting(x, t))).0, true), bytes, RX_QUOTA);
  }

  /** What does not come in is older than a turn. */
  lemma StillFlying(x: Line, t: Tick)
    requires x.loop.core.Shape() && t.others.Shape() && Least(t.arrive, |Travelling(x, t)|) < |x.flight|
    ensures Exchange(x, t).flight != [] && Exchange(x, t).flight[0].age >= 1
  {
    hide Served, Merged, Echo, Bytes;
    var n := Least(t.arrive, |Travelling(x, t)|);
    assert Travelling(x, t)[n] == Aged(x.flight)[n];
  }

  /** Within a turn everything that was on the line before comes in. */
  lemma FlightArrives(x: Line, t: Tick)
    requires x.loop.core.Shape() && t.others.Shape() && Prompt(Exchange(x, t), 1)
    ensures Least(t.arrive, |Travelling(x, t)|) >= |x.flight|
  {
    hide Exchange, Travelling;
    if Least(t.arrive, |Travelling(x, t)|) < |x.flight| {
      StillFlying(x, t);
    }
  }

  lemma InitWears(x: Line, t: Tick, next: U32)
    requires x.loop.core.Shape() && t.others.Shape() && x.loop.phase == INIT
    ensures Patience(Exchange(x, t), next) < Patience(x, t.others.epoch)
  {
    hide Merged, Bytes;
  }

  lemma DrainWears(x: Line, t: Tick, next: U32)
    requires x.loop.core.Shape() && t.others.Shape() && x.loop.phase == DRAIN && Prompt(Exchange(x, t), 1)
    requires t.others.epoch == Low32(t.epoch)
    ensures Transferring(Exchange(x, t), 0, 1, t.epoch) || Patience(Exchange(x, t), next) < Patience(x, t.others.epoch)
  {
    FlightArrives(x, t);
    if UartLoop.Polled(Watched(Meeting(x, t))).1 {
      LateWears(x, t, next);
    } else if Held(x) < RX_QUOTA {
      Begins(x, t, 1);
    } else {
      DropWears(x, t, next);
    }
  }

  lemma LateWears(x: Line, t: Tick, next: U32)
    requires x.loop.core.Shape() && t.others.Shape() && x.loop.phase != INIT
    requires UartLoop.Polled(Watched(Meeting(x, t))).1
    ensures Patience(Exchange(x, t), next) < Patience(x, t.others.epoch)
  {
    hide Merged, Bytes, Reported, Accepts;
  }

  lemma DropWears(x: Line, t: Tick, next: U32)
    requires x.loop.core.Shape() && t.others.Shape() && x.loop.phase == DRAIN && Held(x) >= RX_QUOTA
    requires !UartLoop.Polled(Watched(Meeting(x, t))).1 && Least(t.arrive, |Travelling(x, t)|) >= |x.flight|
    ensures Patience(Exchange(x, t), next) < Patience(x, t.others.epoch)
  {
    hide Merged, Bytes, Reported, Accepts;
  }

  lemma ReadWears(x: Line, t: Tick)
    requires x.loop.core.Shape() && t.others.Shape() && x.loop.phase == TRANSFER
    requires !UartLoop.Polled(Watched(Meeting(x, t))).1
    ensures var y, m := Exchange(x, t), UartLoop.Polled(Watched(Meeting(x, t))).0;
      || (y.loop.phase == DRAIN && !y.loop.deadline.armed && Held(y) <= Held(x) + Unsent(x.loop))
      || (y.loop.phase == TRANSFER && y.loop.deadline == m.deadline && y.loop.attempt == m.attempt
        && y.loop.core == m.core
          && Held(y) + Unsent(y.loop) <= Held(x) + Unsent(x.loop))
  {
    hide Merged, Bytes, Reported, Accepts, Received, TokenByte, Aged, JustSent;
    var m := UartLoop.Polled(Watched(Meeting(x, t))).0;
    var flight := Travelling(x, t);
    var bytes := x.fifo + Bytes(flight[..Least(t.arrive, |flight|)]);
    ReceivedStops(Transmitted(m, true), bytes, RX_QUOTA);
  }

  lemma LeftShrinks(d: Deadline, now: int, next: int)
    requires now < next < now + PROVIDER_BUDGET
    requires d.armed ==> Sub(Low32(now), d.start) < PROVIDER_BUDGET
    ensures d.armed ==> Left(d, Low32(next)) < Left(d, Low32(now))
    ensures Left(Deadline(Low32(now), PROVIDER_BUDGET, d.token, true), Low32(next)) < PROVIDER_BUDGET
  {
  }

  lemma WaitsShrink(l: Loop, now: int, next: int)
    requires l.core.Shape() && Watching(l) && l.core.epoch == Low32(now) && now < next < now + PROVIDER_BUDGET
    requires !UartLoop.Polled(Watched(l)).1
    ensures Waits(UartLoop.Polled(Watched(l)).0, Low32(next)) < Waits(l, Low32(now))
  {
    var w := Watched(l);
    if DeadlineDue(l.core.epoch, w.deadline) {
      hide Low32;
      StaleShrinks(l.attempt, l.core.missed[UART_LOOP]);
      assert UartLoop.Polled(w).0.core.missed == l.core.missed;
    } else {
      hide Low32, Sub, Stale;
      LeftShrinks(w.deadline, now, next);
      LeftShrinks(w.deadline.(start := Low32(now)), now, next);
    }
  }

  lemma StaleShrinks(attempt: U32, s: Stream)
    requires !Fresh(attempt, s)
    ensures Stale(Inc(attempt), s) + 1 == Stale(attempt, s)
  {
  }

  lemma MeetingWaits(x: Line, t: Tick)
    requires x.loop.core.Shape() && t.others.Shape()
    ensures Waits(Meeting(x, t), t.others.epoch) == Waits(x.loop, t.others.epoch)
  {
  }

  lemma TransferWears(x: Line, t: Tick, next: int)
    requires Sound(x) && t.others.Shape() && x.loop.phase == TRANSFER
    requires t.others.epoch == Low32(t.epoch) && t.epoch < next < t.epoch + PROVIDER_BUDGET
    ensures Patience(Exchange(x, t), Low32(next)) < Patience(x, t.others.epoch)
  {
    hide Kept, Merged, UartLoop.Polled, Exchange, Low32, Watched, Left, Stale;
    if UartLoop.Polled(Watched(Meeting(x, t))).1 {
      LateWears(x, t, Low32(next));
    } else {
      MeetingSound(x, t);
      ReadWears(x, t);
      MeetingWaits(x, t);
      WaitsShrink(Meeting(x, t), t.epoch, next);
    }
  }

  // ---------------------------------------------------------------- whole runs

  /** Every turn is later than the one before, and a transfer has its time. */
  predicate Pace(ticks: seq<Tick>) {
    InTime(ticks, 1) && forall k :: 0 < k < |ticks| ==> ticks[k - 1].epoch < ticks[k].epoch
  }

  /** The line after k turns. */
  function At(x: Line, ticks: seq<Tick>, k: nat): (y: Line)
    requires x.loop.core.Shape() && Shaped(ticks) && k <= |ticks|
    ensures y.loop.core.Shape()
  {
    ShapedPart(ticks, 0, k);
    Exchanges(x, ticks[..k])
  }

  lemma AtNext(x: Line, ticks: seq<Tick>, k: nat)
    requires x.loop.core.Shape() && Shaped(ticks) && k < |ticks|
    ensures At(x, ticks, k + 1) == Exchange(At(x, ticks, k), ticks[k])
  {
    hide Exchange;
    ShapedPart(ticks, 0, k + 1);
    assert ticks[..k + 1][..k] == ticks[..k];
  }

  lemma AtFirst(x: Line, ticks: seq<Tick>)
    requires x.loop.core.Shape() && Shaped(ticks)
    ensures At(x, ticks, 0) == x
  {
  }

  lemma OneWears(x: Line, t: Tick, next: int)
    requires Sound(x) && t.others.Shape() && Prompt(Exchange(x, t), 1)
    requires t.others.epoch == Low32(t.epoch) && t.epoch < next < t.epoch + PROVIDER_BUDGET
    ensures var y := Exchange(x, t);
      && Sound(y)
      && (Transferring(y, 0, 1, t.epoch) || Patience(y, Low32(next)) < Patience(x, Low32(t.epoch)))
  {
    hide Exchange, Prompt, Transferring, Patience, Low32, Receiving, Watching;
    ExchangeSound(x, t);
    KeptPhase(x);
    if x.loop.phase == INIT {
      InitWears(x, t, Low32(next));
    } else if x.loop.phase == DRAIN {
      DrainWears(x, t, Low32(next));
    } else {
      TransferWears(x, t, next);
    }
  }

  lemma KeptPhase(x: Line)
    requires Sound(x)
    ensures x.loop.phase == INIT || x.loop.phase == DRAIN || x.loop.phase == TRANSFER
  {
    hide Tally, Frame;
  }

  /** A transfer begins on a clean line at the end of turn i. */
  predicate Began(x: Line, ticks: seq<Tick>, i: nat)
    requires x.loop.core.Shape() && Shaped(ticks) && 0 < i <= |ticks|
  {
    Transferring(At(x, ticks, i), 0, 1, ticks[i - 1].epoch)
  }

  /** In the first k turns one begins, or the patience wears off. */
  lemma {:induction false} Waiting(x: Line, ticks: seq<Tick>, k: nat) returns (i: nat)
    requires Sound(x) && Pace(ticks) && AlwaysPrompt(x, ticks, 1) && k < |ticks|
    ensures i <= k
    ensures if i > 0 then Began(x, ticks, i)
            else
              && Sound(At(x, ticks, k))
              && Patience(At(x, ticks, k), Low32(ticks[k].epoch)) + k <= Patience(x, Low32(ticks[0].epoch))
  {
    hide Exchange, At, Prompt, Transferring, Patience, Low32, Sound, AlwaysPrompt;
    AtFirst(x, ticks);
    i := 0;
    if k > 0 {
      i := Waiting(x, ticks, k - 1);
      if i == 0 {
        var t := ticks[k - 1];
        AtNext(x, ticks, k - 1);
        PromptHere(x, ticks, k);
        OneWears(At(x, ticks, k - 1), t, ticks[k].epoch);
        if Transferring(At(x, ticks, k), 0, 1, t.epoch) {
          i := k;
        }
      }
    }
  }

  lemma PromptHere(x: Line, ticks: seq<Tick>, k: nat)
    requires x.loop.core.Shape() && Shaped(ticks) && AlwaysPrompt(x, ticks, 1) && k <= |ticks|
    ensures Prompt(At(x, ticks, k), 1)
  {
    hide Exchanges, Prompt;
    PromptAt(x, ticks, k, 1);
  }

  /** The transfer that began at the end of turn i is over by turn i + 13. */
  lemma {:induction false} Ends(x: Line, ticks: seq<Tick>, i: nat, j: nat) returns (e: nat)
    requires x.loop.core.Shape() && Pace(ticks) && AlwaysPrompt(x, ticks, 1)
    requires 0 < i && i + j <= |ticks| && j <= FRAME + 1 && Began(x, ticks, i)
    ensures e <= i + j
    ensures if e > 0 then e > i && Resting(At(x, ticks, e))
      && |At(x, ticks, e).loop.beats| > |At(x, ticks, i).loop.beats|
            else
              && Transferring(At(x, ticks, i + j), j, 1, ticks[i - 1].epoch)
              && At(x, ticks, i + j).loop.beats == At(x, ticks, i).loop.beats
    ensures j == FRAME + 1 ==> e > 0
  {
    hide Exchange, At, Prompt, Transferring, Low32, AlwaysPrompt;
    e := 0;
    if j > 0 {
      e := Ends(x, ticks, i, j - 1);
      if e == 0 {
        var k := i + j - 1;
        AtNext(x, ticks, k);
        PromptHere(x, ticks, k + 1);
        TransferExchange(At(x, ticks, k), ticks[k], j - 1, 1, ticks[i - 1].epoch);
        InPhase(At(x, ticks, k), j - 1, 1, ticks[i - 1].epoch);
        InPhase(At(x, ticks, k + 1), j, 1, ticks[i - 1].epoch);
        if Resting(At(x, ticks, k + 1)) {
          e := k + 1;
        }
      }
    }
  }

  lemma {:induction false} BeatsGrowTo(x: Line, ticks: seq<Tick>, k: nat)
    requires x.loop.core.Shape() && Shaped(ticks) && k <= |ticks|
    ensures |x.loop.beats| <= |At(x, ticks, k).loop.beats|
  {
    hide Exchange, At;
    AtFirst(x, ticks);
    if k > 0 {
      BeatsGrowTo(x, ticks, k - 1);
      AtNext(x, ticks, k - 1);
      BeatsGrow(At(x, ticks, k - 1), ticks[k - 1]);
    }
  }

  /** From any state, with any bytes in the receiver and on the line: if the line takes at most one turn, the
      loopback is at rest after a bounded number of turns with a transfer completed since, and from then on
      transfer follows transfer. Only a transfer that has lost bytes waits for its deadline, and longer only if
      the core would refuse the miss of it. */
  lemma Recovers(x: Line, ticks: seq<Tick>) returns (i: nat)
    requires Sound(x) && Pace(ticks) && AlwaysPrompt(x, ticks, 1)
    requires ticks != [] && |ticks| >= Patience(x, Low32(ticks[0].epoch)) + FRAME + 1
    ensures i <= |ticks| && Resting(At(x, ticks, i)) && |At(x, ticks, i).loop.beats| > |x.loop.beats|
    ensures x.loop.phase != TRANSFER ==> i <= Held(x) / 2 + 15
    ensures i <= Waits(x.loop, Low32(ticks[0].epoch)) + Held(x) / 2 + 21
    ensures Fresh(Attempt(x.loop), x.loop.core.missed[UART_LOOP]) ==> i <= PROVIDER_BUDGET + Held(x) / 2 + 21
    ensures forall m :: i <= m <= |ticks| ==>
      var n := |At(x, ticks, m).loop.beats| - |At(x, ticks, i).loop.beats|;
      (FRAME + 1) * n <= m - i < (FRAME + 2) * (n + 1)
  {
    hide Exchange, At, Prompt, Transferring, Low32, AlwaysPrompt, Resting, Patience, Waits, Sound, Began;
    var p := Patience(x, Low32(ticks[0].epoch));
    PatienceIs(x, Low32(ticks[0].epoch));
    var b := Waiting(x, ticks, p);
    if b == 0 {
      PatienceIs(At(x, ticks, p), Low32(ticks[p].epoch));
    }
    i := Ends(x, ticks, b, FRAME + 1);
    BeatsGrowTo(x, ticks, b);
    forall m | i <= m <= |ticks|
      ensures var n := |At(x, ticks, m).loop.beats| - |At(x, ticks, i).loop.beats|;
        (FRAME + 1) * n <= m - i < (FRAME + 2) * (n + 1)
    {
      GoesOn(x, ticks, i, m);
    }
  }

  lemma GoesOn(x: Line, ticks: seq<Tick>, i: nat, m: nat)
    requires x.loop.core.Shape() && Pace(ticks) && AlwaysPrompt(x, ticks, 1)
    requires i <= m <= |ticks| && Resting(At(x, ticks, i))
    ensures var n := |At(x, ticks, m).loop.beats| - |At(x, ticks, i).loop.beats|;
      (FRAME + 1) * n <= m - i < (FRAME + 2) * (n + 1)
  {
    hide Exchanges, Prompt, Low32, AlwaysPrompt, Resting, AtPace, InTime, Shaped;
    FirstInTime(ticks, 1);
    PartInTime(ticks, 0, m, 1);
    EarlierTicks(x, ticks, m, 1);
    LaterTicks(x, ticks[..m], i, 1);
    ShapedPart(ticks, 0, i);
    ShapedPart(ticks, i, m);
    ShapedPart(ticks, 0, m);
    var rest := ticks[i..m];
    assert ticks[..m][i..] == rest && ticks[..i] + rest == ticks[..m] && ticks[..m][..i] == ticks[..i];
    ExchangesAgain(x, ticks[..i], rest);
    KeepsPace(At(x, ticks, i), rest, 1);
    var y := Exchanges(At(x, ticks, i), rest);
    PaceBounds(y, rest, |y.loop.beats| - |At(x, ticks, i).loop.beats|, 1);
  }

  // ---------------------------------------------------------------- a line of exactly two turns

  /** Every byte comes in d turns after the turn that sent it: none stays longer, none is earlier. */
  predicate Exact(x: Line, t: Tick, d: nat)
    requires x.loop.core.Shape() && t.others.Shape()
  {
    && Prompt(Exchange(x, t), d)
    && forall k :: 0 <= k < Least(t.arrive, |Travelling(x, t)|) ==> Travelling(x, t)[k].age >= d
  }

  predicate Timed(l: Loop, start: int) {
    && l.phase == TRANSFER && l.deadline.armed && l.deadline.start == Low32(start)
    && l.deadline.budget == PROVIDER_BUDGET
  }

  /** A transfer that has just begun, with one byte of an earlier one about to come in. */
  predicate Behind(x: Line, start: int) {
    && Timed(x.loop, start) && x.loop.tx == x.loop.rx == 0
    && x.fifo == [] && |x.flight| == 1 && x.flight[0].age == 1
  }

  /** The first byte of an earlier transfer taken for that of this one, whose own is on the line. */
  predicate Misled(x: Line, start: int) {
    Timed(x.loop, start) && x.loop.tx == x.loop.rx == 1 && x.fifo == [] && x.flight == [Flying(0xa5, 0)]
  }

  predicate Overtaken(x: Line, start: int) {
    && Timed(x.loop, start) && x.loop.tx == 2 && x.loop.rx == 1
    && x.fifo == [] && x.flight == [Flying(0xa5, 1), Flying(0x5a, 0)]
  }

  /** Between transfers, with one byte or two still on the line. */
  predicate Littered(x: Line) {
    && x.loop.phase == DRAIN && !x.loop.deadline.armed && x.fifo == []
    && (x.flight == [Flying(0xa5, 0)]
        || (|x.flight| == 2 && x.flight[0] == Flying(0x5a, 1) && x.flight[1].age == 0))
  }

  /** The four states of a loopback that never completes a transfer again, j turns after the start of the one
      in progress. */
  predicate Jammed(x: Line, j: nat, start: int) {
    match j
    case 0 => Behind(x, start)
    case 1 => Misled(x, start)
    case 2 => Overtaken(x, start)
    case _ => Littered(x)
  }

  /** What comes in is two turns old, and what does not is not. */
  lemma ComesOrStays(x: Line, t: Tick, f: seq<Flying>)
    requires x.loop.core.Shape() && t.others.Shape() && Exact(x, t, 2) && Travelling(x, t) == f
    ensures var m := Least(t.arrive, |f|);
      Exchange(x, t).flight == f[m..] && forall k :: 0 <= k < |f| ==> (f[k].age >= 2 <==> k < m)
  {
    hide Served, Travelling, Bytes, Meeting;
    var m, y := Least(t.arrive, |f|), Exchange(x, t);
    assert forall k :: m <= k < |f| ==> f[k] == f[m..][k - m] == y.flight[k - m];
  }

  /** How much comes in, when n bytes are two turns old. */
  lemma Comes(x: Line, t: Tick, f: seq<Flying>, n: nat)
    requires x.loop.core.Shape() && t.others.Shape() && Exact(x, t, 2) && Travelling(x, t) == f && n <= |f|
    requires forall k :: 0 <= k < |f| ==> (f[k].age >= 2 <==> k < n)
    ensures Least(t.arrive, |f|) == n && Exchange(x, t).flight == f[n..]
  {
    hide Exchange, Travelling, Exact;
    var m := Least(t.arrive, |f|);
    var next := if m < |f| then f[m].age else 0;
    var other := if n < |f| then f[n].age else 0;
    ComesOrStays(x, t, f);
  }

  lemma DrainTurn(l: Loop, bytes: seq<Byte>, now: int)
    requires l.core.Shape() && l.phase == DRAIN && !l.deadline.armed && l.core.epoch == Low32(now) && |bytes| < RX_QUOTA
    ensures var o := Served(l, Lines(false, true, bytes));
      Timed(o.loop, now) && o.rest == [] && o.loop.tx == o.loop.rx == 0 && o.loop.beats == l.beats
  {
    hide Low32, Inc;
    NotDue(Armed(l), now, now);
  }

  lemma LitteredTurn(x: Line, t: Tick)
    requires x.loop.core.Shape() && t.others.Shape() && t.others.epoch == Low32(t.epoch)
    requires Littered(x) && Exact(x, t, 2)
    ensures Behind(Exchange(x, t), t.epoch) && Exchange(x, t).loop.beats == x.loop.beats
  {
    hide Served, Merged, Low32, Exact, Timed;
    MeetingEpoch(x, t);
    var f := Travelling(x, t);
    assert f == Aged(x.flight);
    Comes(x, t, f, |f| - 1);
    DrainTurn(Meeting(x, t), x.fifo + Bytes(f[..|f| - 1]), t.epoch);
  }

  /** A turn of a transfer whose deadline has not come: what it puts on the line, and what it makes of the bytes. */
  lemma TimedTurn(x: Line, t: Tick, start: int, bytes: seq<Byte>)
    requires x.loop.core.Shape() && t.others.Shape() && t.others.epoch == Low32(t.epoch)
    requires Timed(x.loop, start) && 0 <= t.epoch - start < PROVIDER_BUDGET && x.loop.tx < FRAME
    ensures var l := Meeting(x, t);
      && Travelling(x, t) == Aged(x.flight) + [Flying(TokenByte(l.number, l.tx), 0)]
      && Served(l, Lines(false, true, bytes)) == Received(Transmitted(l, true), bytes, RX_QUOTA)
      && Timed(Transmitted(l, true), start) && Transmitted(l, true).tx == l.tx + 1
  {
    hide Merged, Low32, TokenByte, Received;
    MeetingEpoch(x, t);
    NotDue(Meeting(x, t), start, t.epoch);
  }

  lemma WrongByte(l: Loop, byte: Byte)
    requires l.core.Shape() && byte != TokenByte(l.number, l.rx)
    ensures var o := Received(l, [byte], RX_QUOTA);
      o.rest == [] && o.loop.phase == DRAIN && !o.loop.deadline.armed && o.loop.beats == l.beats
  {
    hide Reported, TokenByte, MismatchDetail;
  }

  lemma RightByte(l: Loop, byte: Byte)
    requires l.core.Shape() && byte == TokenByte(l.number, l.rx) && l.rx + 1 < FRAME
    ensures Received(l, [byte], RX_QUOTA) == Outcome(l.(rx := l.rx + 1, frame := l.frame + [byte]), [])
  {
    hide TokenByte, Failed;
    ReadsOne(l, [byte], RX_QUOTA);
    ReadsNone(l.(rx := l.rx + 1, frame := l.frame + [byte]), [], RX_QUOTA - 1);
  }

  lemma BehindTurn(x: Line, t: Tick, start: int)
    requires x.loop.core.Shape() && t.others.Shape() && t.others.epoch == Low32(t.epoch)
    requires Behind(x, start) && Exact(x, t, 2) && 0 <= t.epoch - start < PROVIDER_BUDGET
    ensures var y := Exchange(x, t); (Misled(y, start) || Littered(y)) && y.loop.beats == x.loop.beats
  {
    hide Served, Merged, Low32, Exact, Received;
    var byte, m := x.flight[0].byte, Transmitted(Meeting(x, t), true);
    TimedTurn(x, t, start, [byte]);
    assert Travelling(x, t) == [Flying(byte, 2), Flying(0xa5, 0)];
    Comes(x, t, [Flying(byte, 2), Flying(0xa5, 0)], 1);
    assert x.fifo + Bytes([Flying(byte, 2), Flying(0xa5, 0)][..1]) == [byte];
    if byte == 0xa5 {
      RightByte(m, byte);
    } else {
      WrongByte(m, byte);
    }
  }

  lemma MisledTurn(x: Line, t: Tick, start: int)
    requires x.loop.core.Shape() && t.others.Shape() && t.others.epoch == Low32(t.epoch)
    requires Misled(x, start) && Exact(x, t, 2) && 0 <= t.epoch - start < PROVIDER_BUDGET
    ensures var y := Exchange(x, t); Overtaken(y, start) && y.loop.beats == x.loop.beats
  {
    hide Served, Merged, Low32, Exact, Received;
    TimedTurn(x, t, start, []);
    ReadsNone(Transmitted(Meeting(x, t), true), [], RX_QUOTA);
    var f := [Flying(0xa5, 1), Flying(0x5a, 0)];
    assert Travelling(x, t) == f;
    Comes(x, t, f, 0);
    assert x.fifo + Bytes(f[..0]) == [];
  }

  lemma OvertakenTurn(x: Line, t: Tick, start: int)
    requires x.loop.core.Shape() && t.others.Shape() && t.others.epoch == Low32(t.epoch)
    requires Overtaken(x, start) && Exact(x, t, 2) && 0 <= t.epoch - start < PROVIDER_BUDGET
    ensures var y := Exchange(x, t); Littered(y) && y.loop.beats == x.loop.beats
  {
    hide Served, Merged, Low32, Exact, Received;
    var m := Transmitted(Meeting(x, t), true);
    TimedTurn(x, t, start, [0xa5]);
    WrongByte(m, 0xa5);
    var f := [Flying(0xa5, 2), Flying(0x5a, 1), Flying(TokenByte(x.loop.number, 2), 0)];
    assert Travelling(x, t) == f;
    Comes(x, t, f, 1);
    assert x.fifo + Bytes(f[..1]) == [0xa5];
  }

  /** A transfer that has just begun on a clean line, and a byte in the receiver that is not its first. */
  predicate Disturbed(x: Line, start: int) {
    && Timed(x.loop, start) && x.loop.tx == x.loop.rx == 0
    && |x.fifo| == 1 && x.fifo[0] != 0xa5 && x.flight == []
  }

  lemma DisturbedTurn(x: Line, t: Tick, start: int)
    requires x.loop.core.Shape() && t.others.Shape() && t.others.epoch == Low32(t.epoch)
    requires Disturbed(x, start) && Exact(x, t, 2) && 0 <= t.epoch - start < PROVIDER_BUDGET
    ensures var y := Exchange(x, t); Littered(y) && y.loop.beats == x.loop.beats
  {
    hide Served, Merged, Low32, Exact, Received;
    TimedTurn(x, t, start, [x.fifo[0]]);
    var f := [Flying(0xa5, 0)];
    assert Travelling(x, t) == f;
    Comes(x, t, f, 0);
    assert x.fifo + Bytes(f[..0]) == [x.fifo[0]];
    WrongByte(Transmitted(Meeting(x, t), true), x.fifo[0]);
  }

  /** Each of the turns is in time, and the line takes two turns for every byte. */
  predicate TwoTurns(x: Line, ticks: seq<Tick>)
    requires x.loop.core.Shape() && Shaped(ticks)
  {
    InTime(ticks, 2) && forall k :: 0 <= k < |ticks| ==> Exact(At(x, ticks, k), ticks[k], 2)
  }

  lemma JammedTurn(x: Line, t: Tick, j: nat, start: int) returns (i: nat)
    requires x.loop.core.Shape() && t.others.Shape() && t.others.epoch == Low32(t.epoch)
    requires Jammed(x, j, start) && Exact(x, t, 2) && (j < 3 ==> 0 <= t.epoch - start < PROVIDER_BUDGET)
    ensures var y := Exchange(x, t);
      Jammed(y, i, if i == 0 then t.epoch else start) && i <= 3 && (i < 3 ==> i == 0 || i == j + 1)
        && y.loop.beats == x.loop.beats
  {
    hide Exchange, Behind, Misled, Overtaken, Littered, Exact, Low32;
    match j
    case 0 =>
      BehindTurn(x, t, start);
      i := if Misled(Exchange(x, t), start) then 1 else 3;
    case 1 =>
      MisledTurn(x, t, start);
      i := 2;
    case 2 =>
      OvertakenTurn(x, t, start);
      i := 3;
    case _ =>
      LitteredTurn(x, t);
      i := 0;
  }

  /** When the transfer in progress began: at the end of turn k, or that many turns before. */
  function Beginning(ticks: seq<Tick>, k: nat, j: nat): int
    requires 0 < k <= |ticks|
  {
    if j < k then ticks[k - 1 - j].epoch else 0
  }

  lemma {:induction false} StaysJammed(x: Line, ticks: seq<Tick>, start: int, k: nat) returns (j: nat)
    requires x.loop.core.Shape() && Shaped(ticks) && TwoTurns(x, ticks) && Disturbed(x, start) && 0 < k <= |ticks|
    requires 0 <= ticks[0].epoch - start < PROVIDER_BUDGET
    ensures Jammed(At(x, ticks, k), j, Beginning(ticks, k, j)) && j <= 3 && (j < 3 ==> j < k)
    ensures At(x, ticks, k).loop.beats == x.loop.beats
  {
    hide At, Exchange, Exact, Disturbed, Jammed, Low32;
    AtNext(x, ticks, k - 1);
    var t := ticks[k - 1];
    if k == 1 {
      AtFirst(x, ticks);
      DisturbedTurn(x, t, start);
      JammedIs(At(x, ticks, 1), 0);
      j := 3;
    } else {
      var i := StaysJammed(x, ticks, start, k - 1);
      JammedIs(At(x, ticks, k - 1), Beginning(ticks, k - 1, i));
      j := JammedTurn(At(x, ticks, k - 1), t, i, Beginning(ticks, k - 1, i));
      JammedIs(At(x, ticks, k), Beginning(ticks, k, j));
      JammedIs(At(x, ticks, k), Beginning(ticks, k - 1, i));
    }
  }

  lemma JammedIs(x: Line, start: int)
    ensures forall j: nat, other: int :: j >= 3 ==> (Jammed(x, j, other) <==> Littered(x))
  {
  }

  /** On a line of exactly two turns, one stray byte at the start of a transfer and no transfer is ever completed
      again, though the line loses nothing and no other byte disturbs it: every resynchronisation leaves bytes on
      the line that break the next transfer. */
  lemma StrayByteJams(x: Line, ticks: seq<Tick>, start: int, k: nat)
    requires Sound(x) && Shaped(ticks) && TwoTurns(x, ticks) && Disturbed(x, start) && 0 < k <= |ticks|
    requires 0 <= ticks[0].epoch - start < PROVIDER_BUDGET
    ensures var y := At(x, ticks, k);
      && y.loop.beats == x.loop.beats && !Resting(y)
      && y.loop.core.ip[UART_LOOP].heartbeats == x.loop.core.ip[UART_LOOP].heartbeats
  {
    hide At, TwoTurns, Disturbed, Tally, Frame;
    var j := StaysJammed(x, ticks, start, k);
    SoundThroughout(x, ticks, k);
  }

  lemma {:induction false} SoundThroughout(x: Line, ticks: seq<Tick>, k: nat)
    requires Sound(x) && Shaped(ticks) && k <= |ticks|
    ensures Sound(At(x, ticks, k))
  {
    hide At, Exchange, Sound;
    AtFirst(x, ticks);
    if k > 0 {
      SoundThroughout(x, ticks, k - 1);
      AtNext(x, ticks, k - 1);
      ExchangeSound(At(x, ticks, k - 1), ticks[k - 1]);
    }
  }
}
