/** The serial loopback over a line that loses nothing and gives every byte back, in order, within a
    bounded number of turns. */
module LosslessLine {
  import opened Words
  import opened Health
  import opened ByteValues
  import opened UartLoop

  /** A byte on its way, and for how many turns it has been. */
  datatype Flying = Flying(byte: Byte, age: nat)

  /** The loopback, the bytes the receiver holds, and those still on the line. */
  datatype Line = Line(loop: Loop, fifo: seq<Byte>, flight: seq<Flying>)

  /** What happens from one turn to the next: what the others have made of the health core, the true
      epoch, and how many more bytes have come through by the time the receiver is read. */
  datatype Tick = Tick(others: Core, epoch: int, arrive: nat)

  /** What a turn with a ready transmitter puts on the line. */
  function Echo(l: Loop): (s: seq<Byte>)
    requires l.core.Shape()
    ensures |s| <= 1
  {
    if l.phase == TRANSFER && l.tx < FRAME && !UartLoop.Polled(if l.deadline.armed then l else Armed(l)).1
    then [TokenByte(l.number, l.tx)] else []
  }

  function Bytes(f: seq<Flying>): (s: seq<Byte>)
    ensures |s| == |f|
  {
    seq(|f|, k requires 0 <= k < |f| => f[k].byte)
  }

  function Aged(f: seq<Flying>): (g: seq<Flying>)
    ensures |g| == |f| && Bytes(g) == Bytes(f)
  {
    seq(|f|, k requires 0 <= k < |f| => Flying(f[k].byte, f[k].age + 1))
  }

  function JustSent(s: seq<Byte>): (g: seq<Flying>)
    ensures |g| == |s| && Bytes(g) == s
  {
    seq(|s|, k requires 0 <= k < |s| => Flying(s[k], 0))
  }

  function Meeting(x: Line, t: Tick): (l: Loop)
    requires x.loop.core.Shape() && t.others.Shape()
    ensures l.core.Shape()
  {
    x.loop.(core := Merged(x.loop.core, t.others, UART_LOOP))
  }

  /** What is on the line during a turn. */
  function Travelling(x: Line, t: Tick): seq<Flying>
    requires x.loop.core.Shape() && t.others.Shape()
  {
    Aged(x.flight) + JustSent(Echo(Meeting(x, t)))
  }

  /** One turn with the transmitter ready and no receive error. */
  function Exchange(x: Line, t: Tick): (y: Line)
    requires x.loop.core.Shape() && t.others.Shape()
    ensures y.loop.core.Shape()
  {
    var flight := Travelling(x, t);
    var n := Least(t.arrive, |flight|);
    var o := Served(Meeting(x, t), Lines(false, true, x.fifo + Bytes(flight[..n])));
    Line(o.loop, o.rest, flight[n..])
  }

  predicate Shaped(ticks: seq<Tick>) {
    forall k :: 0 <= k < |ticks| ==> ticks[k].others.Shape()
  }

  function Exchanges(x: Line, ticks: seq<Tick>): (y: Line)
    requires x.loop.core.Shape() && Shaped(ticks)
    ensures y.loop.core.Shape()
  {
    if ticks == [] then x else Exchange(Exchanges(x, ticks[..|ticks| - 1]), ticks[|ticks| - 1])
  }

  lemma ShapedPart(ticks: seq<Tick>, i: nat, m: nat)
    requires i <= m <= |ticks| && Shaped(ticks)
    ensures Shaped(ticks[i..m])
  {
    assert forall k :: 0 <= k < m - i ==> ticks[i..m][k] == ticks[i + k];
  }

  lemma {:induction false} ExchangesAgain(x: Line, a: seq<Tick>, b: seq<Tick>)
    requires x.loop.core.Shape() && Shaped(a) && Shaped(b) && Shaped(a + b)
    ensures Exchanges(x, a + b) == Exchanges(Exchanges(x, a), b)
  {
    hide Exchange;
    if b == [] {
      assert a + b == a;
    } else {
      var n := |b| - 1;
      assert (a + b)[..|a| + n] == a + b[..n];
      ShapedPart(a + b, 0, |a| + n);
      ShapedPart(b, 0, n);
      ExchangesAgain(x, a, b[..n]);
    }
  }

  /** No byte is on its way for more than d turns. */
  predicate Prompt(x: Line, d: nat) {
    forall k :: 0 <= k < |x.flight| ==> x.flight[k].age < d
  }

  // ---------------------------------------------------------------- the two states between turns

  /** Between transfers, with nothing in the receiver and nothing on the line. */
  predicate Resting(x: Line) {
    x.fifo == [] && x.flight == [] && x.loop.phase == DRAIN && !x.loop.deadline.armed
  }

  /** The bytes sent and not yet read. */
  predicate Unread(fifo: seq<Byte>, flight: seq<Flying>, number: U32, rx: nat, tx: nat) {
    rx + |fifo| + |flight| == tx <= FRAME && fifo + Bytes(flight) == Frame(number)[rx..tx]
  }

  /** Byte i of a transfer was sent in its turn i. */
  predicate AgesRight(flight: seq<Flying>, tx: nat, j: nat) {
    tx == Least(j, FRAME) && forall k :: 0 <= k < |flight| ==> flight[k].age == j - 1 - (tx - |flight| + k)
  }

  predicate OnTheWay(x: Line, number: U32, rx: nat, tx: nat, j: nat) {
    Unread(x.fifo, x.flight, number, rx, tx) && AgesRight(x.flight, tx, j)
  }

  /** After j turns of the transfer that began at epoch start. */
  predicate Transferring(x: Line, j: nat, d: nat, start: int) {
    var l := x.loop;
    && l.phase == TRANSFER && l.rx < FRAME && j <= l.rx + d && OnTheWay(x, l.number, l.rx, l.tx, j)
    && l.deadline.armed && l.deadline.start == Low32(start) && l.deadline.budget == PROVIDER_BUDGET
  }

  /** n transfers so far, numbered 1, 2, 3, ..., each a heartbeat, and neither a failure nor a miss. */
  predicate Beaten(l: Loop, n: nat)
    requires l.core.Shape()
  {
    && l.core.ip[UART_LOOP].heartbeats == Low32(n) && |l.beats| == n
    && l.core.ip[UART_LOOP].misses == 0 && l.core.ip[UART_LOOP].state == (if n == 0 then Unknown else Pass)
    && l.core.progress[UART_LOOP] == (if n == 0 then Stream(0, false) else Stream(Low32(n), true))
  }

  predicate Flawless(l: Loop)
    requires l.core.Shape()
  {
    Beaten(l, |l.beats|) && l.number == Low32(|l.beats| + if l.phase == TRANSFER then 1 else 0)
  }

  /** A turn that does not report anything. */
  predicate Went(l: Loop, m: Loop) {
    m.core == l.core && m.beats == l.beats
  }

  /** A turn that completes a transfer. */
  predicate Finished(l: Loop, m: Loop)
    requires l.core.Shape()
  {
    && m.core == Reported(l.core, Report(UART_LOOP, STEP_PROGRESS, l.number, Bits(l.number)))
    && |m.beats| == |l.beats| + 1 && m.beats[..|l.beats|] == l.beats && m.beats[|l.beats|].number == l.number
    && m.number == l.number && m.phase == DRAIN
  }

  lemma MeetingEpoch(x: Line, t: Tick)
    requires x.loop.core.Shape() && t.others.Shape()
    ensures Meeting(x, t).core.epoch == t.others.epoch
  {
  }

  lemma MeetingFlawless(x: Line, t: Tick)
    requires x.loop.core.Shape() && t.others.Shape() && Flawless(x.loop)
    ensures Flawless(Meeting(x, t))
  {
  }

  lemma BegunFlawless(l: Loop, m: Loop)
    requires l.core.Shape() && Flawless(l) && l.phase == DRAIN
    requires Went(l, m) && m.phase == TRANSFER && m.number == Inc(l.number)
    ensures Flawless(m)
  {
    hide Low32, Inc;
    IncOfLow(|l.beats|);
  }

  lemma FinishedFlawless(l: Loop, m: Loop)
    requires l.core.Shape() && Flawless(l) && l.phase == TRANSFER && Finished(l, m)
    ensures m.core.Shape() && Flawless(m)
  {
    hide Bits;
    IncOfLow(|l.beats|);
  }

  /** Not due at less than the budget after the start. */
  lemma NotDue(l: Loop, start: int, now: int)
    requires l.core.Shape() && l.core.epoch == Low32(now) && 0 <= now - start < PROVIDER_BUDGET
    requires l.deadline.armed && l.deadline.start == Low32(start) && l.deadline.budget == PROVIDER_BUDGET
    ensures UartLoop.Polled(l) == (l, false)
  {
  }

  /** The deadline of this turn: armed now, if it was not. */
  function Watched(l: Loop): (m: Loop)
    requires l.core.Shape()
    ensures m.core == l.core && m.deadline.armed
  {
    if l.deadline.armed then l else Armed(l)
  }

  /** Fewer than four bytes are left, and nothing on the line: the next transfer begins on a clean line. */
  lemma Begins(x: Line, t: Tick, d: nat)
    requires x.loop.core.Shape() && t.others.Shape() && t.others.epoch == Low32(t.epoch)
    requires x.loop.phase == DRAIN && |x.fifo| + |x.flight| < RX_QUOTA && Least(t.arrive, |x.flight|) == |x.flight|
    requires !UartLoop.Polled(Watched(Meeting(x, t))).1
    ensures var y, l := Exchange(x, t), Meeting(x, t);
      Transferring(y, 0, d, t.epoch) && Went(l, y.loop) && y.loop.number == Inc(l.number)
  {
    hide Merged, Low32, Inc;
    MeetingEpoch(x, t);
    assert Travelling(x, t)[..|x.flight|] == Travelling(x, t);
  }

  lemma RestExchange(x: Line, t: Tick, d: nat)
    requires x.loop.core.Shape() && t.others.Shape() && Resting(x) && t.others.epoch == Low32(t.epoch)
    ensures var y, l := Exchange(x, t), Meeting(x, t);
      Transferring(y, 0, d, t.epoch) && Went(l, y.loop) && y.loop.number == Inc(l.number)
  {
    hide Exchange, Transferring, Went, UartLoop.Polled, Low32, Inc, Merged;
    MeetingEpoch(x, t);
    NotDue(Armed(Meeting(x, t)), t.epoch, t.epoch);
    Begins(x, t, d);
  }

  // ---------------------------------------------------------------- one turn of a transfer

  /** Reading m bytes of the frame that are there. */
  lemma {:induction false} ReadsFrame(l: Loop, bytes: seq<Byte>, quota: nat)
    requires l.core.Shape() && l.rx < FRAME && l.rx + |bytes| <= FRAME
    requires bytes == Frame(l.number)[l.rx..l.rx + |bytes|]
    ensures var m := Least(|bytes|, quota);
      var r := l.(rx := l.rx + m, frame := l.frame + bytes[..m]);
      Received(l, bytes, quota) == Outcome(if r.rx == FRAME then Completed(r) else r, bytes[m..])
    decreases quota
  {
    hide Completed, TokenByte, Frame, Received;
    if quota > 0 && bytes != [] {
      var b, rest := bytes[0], bytes[1..];
      FrameHead(l.number, l.rx, bytes);
      ReadsOne(l, bytes, quota);
      var r := l.(rx := l.rx + 1, frame := l.frame + [b]);
      if r.rx == FRAME {
        assert bytes == [b] && bytes[..1] == [b] && rest == [];
      } else {
        ReadsFrame(r, rest, quota - 1);
        FirstOff(l.frame, bytes, Least(|bytes|, quota));
      }
    } else {
      ReadsNone(l, bytes, quota);
      assert bytes[..0] == [] && l.frame + [] == l.frame && bytes[0..] == bytes;
    }
  }

  lemma ReadsOne(l: Loop, bytes: seq<Byte>, quota: nat)
    requires l.core.Shape() && quota > 0 && bytes != [] && bytes[0] == TokenByte(l.number, l.rx)
    ensures var m := l.(rx := l.rx + 1, frame := l.frame + [bytes[0]]);
      Received(l, bytes, quota) ==
        if m.rx == FRAME then Outcome(Completed(m), bytes[1..]) else Received(m, bytes[1..], quota - 1)
  {
    hide Completed, TokenByte, Resynced, Failed;
  }

  lemma ReadsNone(l: Loop, bytes: seq<Byte>, quota: nat)
    requires l.core.Shape() && (quota == 0 || bytes == [])
    ensures Received(l, bytes, quota) == Outcome(l, bytes)
  {
    hide Completed, TokenByte, Resynced, Failed;
  }

  lemma FrameHead(number: U32, rx: nat, bytes: seq<Byte>)
    requires bytes != [] && rx + |bytes| <= FRAME && bytes == Frame(number)[rx..rx + |bytes|]
    ensures bytes[0] == TokenByte(number, rx)
    ensures bytes[1..] == Frame(number)[rx + 1..rx + 1 + |bytes[1..]|]
  {
    hide TokenByte;
    assert bytes[0] == Frame(number)[rx];
  }

  lemma FirstOff(frame: seq<Byte>, bytes: seq<Byte>, k: nat)
    requires 1 <= k <= |bytes|
    ensures frame + [bytes[0]] + bytes[1..][..k - 1] == frame + bytes[..k] && bytes[1..][k - 1..] == bytes[k..]
  {
    assert [bytes[0]] + bytes[1..][..k - 1] == bytes[..k];
  }

  /** The line during a turn: the transfer's next byte is on it, everything is a turn older, and the first
      n bytes are through. */
  lemma LineMoves(x: Line, number: U32, rx: nat, tx: nat, j: nat, e: seq<Byte>, n: nat)
    requires OnTheWay(x, number, rx, tx, j)
    requires e == if tx < FRAME then [TokenByte(number, tx)] else []
    requires n <= |x.flight| + |e|
    ensures var flight := Aged(x.flight) + JustSent(e);
      OnTheWay(Line(x.loop, x.fifo + Bytes(flight[..n]), flight[n..]), number, rx, tx + |e|, j + 1)
  {
    hide TokenByte, Unread, AgesRight;
    assert |x.flight| <= tx <= FRAME by {
      UnreadFits(x.fifo, x.flight, number, rx, tx);
    }
    AgesMove(x.flight, tx, j, e, n);
    BytesMove(x.fifo, x.flight, number, rx, tx, e, n);
  }

  lemma UnreadFits(fifo: seq<Byte>, flight: seq<Flying>, number: U32, rx: nat, tx: nat)
    requires Unread(fifo, flight, number, rx, tx)
    ensures rx + |fifo| + |flight| == tx <= FRAME
  {
  }

  lemma AgesMove(flight: seq<Flying>, tx: nat, j: nat, e: seq<Byte>, n: nat)
    requires AgesRight(flight, tx, j) && |flight| <= tx <= FRAME
    requires |e| == (if tx < FRAME then 1 else 0) && n <= |flight| + |e|
    ensures AgesRight((Aged(flight) + JustSent(e))[n..], tx + |e|, j + 1)
  {
  }

  lemma BytesMove(fifo: seq<Byte>, flight: seq<Flying>, number: U32, rx: nat, tx: nat, e: seq<Byte>, n: nat)
    requires Unread(fifo, flight, number, rx, tx) && n <= |flight| + |e|
    requires e == if tx < FRAME then [TokenByte(number, tx)] else []
    ensures var more := Aged(flight) + JustSent(e);
      Unread(fifo + Bytes(more[..n]), more[n..], number, rx, tx + |e|)
  {
    hide TokenByte, Bytes, Aged, JustSent;
    var more := Aged(flight) + JustSent(e);
    BytesJoin(Aged(flight), JustSent(e));
    BytesJoin(more[..n], more[n..]);
    assert more[..n] + more[n..] == more;
    assert Bytes(more) == Bytes(flight) + e;
    assert fifo + Bytes(more[..n]) + Bytes(more[n..]) == fifo + Bytes(more);
    assert fifo + Bytes(flight) + e == fifo + Bytes(more);
  }

  lemma BytesJoin(f: seq<Flying>, g: seq<Flying>)
    ensures Bytes(f + g) == Bytes(f) + Bytes(g)
  {
  }

  /** Reading m bytes off the front of what the receiver holds. */
  lemma LineRead(y: Line, number: U32, rx: nat, tx: nat, j: nat, m: nat, l: Loop)
    requires OnTheWay(y, number, rx, tx, j) && m <= |y.fifo|
    ensures rx + |y.fifo| <= tx <= FRAME && y.fifo == Frame(number)[rx..rx + |y.fifo|]
    ensures OnTheWay(Line(l, y.fifo[m..], y.flight), number, rx + m, tx, j)
  {
    hide TokenByte, Bytes, AgesRight;
    var f := Frame(number);
    assert (y.fifo + Bytes(y.flight))[..|y.fifo|] == y.fifo;
    assert f[rx..tx][..|y.fifo|] == f[rx..rx + |y.fifo|];
    assert y.fifo[m..] + Bytes(y.flight) == (y.fifo + Bytes(y.flight))[m..];
    assert f[rx..tx][m..] == f[rx + m..tx];
  }

  /** What has been on the line for d turns has come through, so at least that much is read. */
  lemma ComesThrough(y: Line, number: U32, rx: nat, tx: nat, j: nat, d: nat)
    requires OnTheWay(y, number, rx, tx, j) && Prompt(y, d) && j - 1 <= rx + d && rx < FRAME
    ensures var m := Least(|y.fifo|, RX_QUOTA);
      && (rx + m < FRAME ==> j <= rx + m + d)
      && (rx + m == FRAME ==> y.fifo[m..] == [] && y.flight == [] && tx == FRAME && j >= FRAME)
  {
    if |y.flight| > 0 {
      assert y.flight[0].age == j - 1 - (tx - |y.flight|) < d;
    }
  }

  /** The receiving half of a turn, with the line as it then is. */
  lemma Receives(m: Loop, y: Line, j: nat, d: nat)
    requires m.core.Shape() && m.rx < FRAME && m.phase == TRANSFER
    requires OnTheWay(y, m.number, m.rx, m.tx, j) && j - 1 <= m.rx + d && Prompt(y, d)
    ensures var o := Received(m, y.fifo, RX_QUOTA);
      var z := Line(o.loop, o.rest, y.flight);
      if o.loop.phase == DRAIN then FRAME <= j && Resting(z) && Finished(m, o.loop)
      else
        && o.loop == m.(rx := o.loop.rx, frame := o.loop.frame) && o.loop.rx < FRAME && j <= o.loop.rx + d
        && OnTheWay(z, m.number, o.loop.rx, m.tx, j)
  {
    hide TokenByte, Completed, OnTheWay, Prompt, Frame, Received, Finished;
    var r := Least(|y.fifo|, RX_QUOTA);
    LineRead(y, m.number, m.rx, m.tx, j, r, m);
    ReadsFrame(m, y.fifo, RX_QUOTA);
    var z := m.(rx := m.rx + r, frame := m.frame + y.fifo[..r]);
    ComesThrough(y, m.number, m.rx, m.tx, j, d);
    if z.rx == FRAME {
      WholeFrame(z);
      assert Finished(z, Completed(z)) ==> Finished(m, Completed(z)) by {
        FinishedSame(m, z, Completed(z));
      }
    } else {
      LineOnly(Line(m, y.fifo[r..], y.flight), Line(z, y.fifo[r..], y.flight), m.number, z.rx, z.tx, j);
    }
  }

  lemma WholeFrame(z: Loop)
    requires z.core.Shape() && z.tx == FRAME
    ensures Finished(z, Completed(z)) && Completed(z).phase == DRAIN && !Completed(z).deadline.armed
  {
    hide Reported, Bits, Accepts;
  }

  lemma FinishedSame(l: Loop, z: Loop, m: Loop)
    requires l.core.Shape() && z.core == l.core && Finished(z, m) && z.beats == l.beats && z.number == l.number
    ensures Finished(l, m)
  {
    hide Reported, Bits;
  }

  lemma TransferExchange(x: Line, t: Tick, j: nat, d: nat, start: int)
    requires x.loop.core.Shape() && t.others.Shape() && Transferring(x, j, d, start)
    requires t.others.epoch == Low32(t.epoch) && 0 <= t.epoch - start < PROVIDER_BUDGET && Prompt(Exchange(x, t), d)
    ensures var y, l := Exchange(x, t), Meeting(x, t);
      || (Transferring(y, j + 1, d, start) && Went(l, y.loop) && y.loop.number == l.number)
      || (Resting(y) && FRAME <= j + 1 && Finished(l, y.loop))
  {
    hide Merged, UartLoop.Polled, TokenByte, Low32, OnTheWay, Prompt, Frame, Aged, JustSent, Bytes, Received, Finished;
    var l := Meeting(x, t);
    MeetingEpoch(x, t);
    NotDue(l, start, t.epoch);
    var e := Echo(l);
    var flight := Aged(x.flight) + JustSent(e);
    var k := Least(t.arrive, |flight|);
    LineMoves(x, l.number, l.rx, l.tx, j, e, k);
    var m := l.(tx := l.tx + |e|, sent := l.sent + e);
    assert l.sent + [] == l.sent;
    var y := Line(x.loop, x.fifo + Bytes(flight[..k]), flight[k..]);
    PromptFlight(Exchange(x, t), y, d);
    Receives(m, y, j + 1, d);
    var o := Received(m, y.fifo, RX_QUOTA);
    assert Exchange(x, t) == Line(o.loop, o.rest, y.flight);
    if o.loop.phase == DRAIN {
      FinishedSame(l, m, o.loop);
    }
  }

  lemma PromptFlight(x: Line, y: Line, d: nat)
    requires x.flight == y.flight && Prompt(x, d)
    ensures Prompt(y, d)
  {
  }

  lemma LineOnly(x: Line, y: Line, number: U32, rx: nat, tx: nat, j: nat)
    requires OnTheWay(x, number, rx, tx, j) && y.fifo == x.fifo && y.flight == x.flight
    ensures OnTheWay(y, number, rx, tx, j)
  {
  }

  // ---------------------------------------------------------------- the pace

  /** Epochs go on, and slowly enough to leave a transfer its time: no d + 12 turns take as long as the budget. */
  predicate InTime(ticks: seq<Tick>, d: nat) {
    && Shaped(ticks) && (forall k :: 0 <= k < |ticks| ==> ticks[k].others.epoch == Low32(ticks[k].epoch))
    && forall j, k :: 0 <= j <= k < |ticks| && k - j <= FRAME + d ==>
         0 <= ticks[k].epoch - ticks[j].epoch < PROVIDER_BUDGET
  }

  /** After every one of the turns, no byte is on its way for more than d turns. */
  predicate AlwaysPrompt(x: Line, ticks: seq<Tick>, d: nat)
    requires x.loop.core.Shape() && Shaped(ticks)
  {
    forall k :: 0 <= k <= |ticks| ==> Prompt(Exchanges(x, ticks[..k]), d)
  }

  /** n transfers take from 13 to 13 + d turns each. */
  predicate Took(turns: int, n: int, d: nat) {
    n >= 0 && (FRAME + 1) * n <= turns <= (FRAME + 1 + d) * n
  }

  lemma TookOneMore(turns: int, n: nat, d: nat, j: nat)
    requires Took(turns, n, d) && FRAME <= j <= FRAME + d
    ensures Took(turns + 1 + j, n + 1, d)
  {
  }

  /** At rest after whole transfers, n of them, or in the next one. */
  predicate Rests(x: Line, turns: int, n: int, d: nat) {
    Resting(x) && Took(turns, n, d)
  }

  predicate Underway(x: Line, ticks: seq<Tick>, n: int, j: nat, d: nat) {
    && j < |ticks| && Took(|ticks| - 1 - j, n, d) && Transferring(x, j, d, ticks[|ticks| - 1 - j].epoch)
  }

  ghost predicate AtPace(x: Line, ticks: seq<Tick>, n: int, d: nat) {
    Rests(x, |ticks|, n, d) || exists j: nat :: Underway(x, ticks, n, j, d)
  }

  lemma RestStep(x: Line, ticks: seq<Tick>, t: Tick, n: int, d: nat)
    requires x.loop.core.Shape() && t.others.Shape() && t.others.epoch == Low32(t.epoch) && Rests(x, |ticks|, n, d)
    ensures var y := Exchange(x, t);
      Underway(y, ticks + [t], n, 0, d) && |y.loop.beats| == |x.loop.beats| && (Flawless(x.loop) ==> Flawless(y.loop))
  {
    hide Exchange, Took, Transferring, Low32, Flawless, Inc, Merged;
    RestExchange(x, t, d);
    assert Transferring(Exchange(x, t), 0, d, t.epoch) ==> Exchange(x, t).loop.phase == TRANSFER by {
      InPhase(Exchange(x, t), 0, d, t.epoch);
    }
    if Flawless(x.loop) {
      MeetingFlawless(x, t);
      BegunFlawless(Meeting(x, t), Exchange(x, t).loop);
    }
  }

  lemma InPhase(x: Line, j: nat, d: nat, start: int)
    ensures Transferring(x, j, d, start) ==> x.loop.phase == TRANSFER && j < FRAME + d
  {
  }

  lemma UnderwayStep(x: Line, ticks: seq<Tick>, t: Tick, n: int, j: nat, d: nat)
    requires x.loop.core.Shape() && Underway(x, ticks, n, j, d) && InTime(ticks + [t], d) && t.others.Shape()
    requires Prompt(Exchange(x, t), d)
    ensures var y, more := Exchange(x, t), ticks + [t];
      && (if |y.loop.beats| == |x.loop.beats| then Underway(y, more, n, j + 1, d)
          else |y.loop.beats| == |x.loop.beats| + 1 && Rests(y, |more|, n + 1, d))
      && (Flawless(x.loop) ==> Flawless(y.loop))
  {
    hide Exchange, Took, Transferring, Low32, Prompt, Flawless, Merged, Reported;
    var i, more := |ticks| - 1 - j, ticks + [t];
    InPhase(x, j, d, ticks[i].epoch);
    assert more[i] == ticks[i] && more[|ticks|] == t;
    TransferExchange(x, t, j, d, ticks[i].epoch);
    var y := Exchange(x, t);
    InPhase(y, j + 1, d, ticks[i].epoch);
    if Flawless(x.loop) {
      MeetingFlawless(x, t);
    }
    if Finished(Meeting(x, t), y.loop) {
      assert n >= 0 by {
        TookSome(i, n, d);
      }
      TookOneMore(i, n, d, j + 1);
      if Flawless(x.loop) {
        FinishedFlawless(Meeting(x, t), y.loop);
      }
    } else if Flawless(x.loop) {
      WentFlawless(Meeting(x, t), y.loop);
    }
  }

  lemma TookSome(turns: int, n: int, d: nat)
    requires Took(turns, n, d)
    ensures n >= 0
  {
  }

  lemma WentFlawless(l: Loop, m: Loop)
    requires l.core.Shape() && Flawless(l) && Went(l, m) && m.number == l.number && m.phase == l.phase
    ensures Flawless(m)
  {
  }

  /** From rest on, transfer follows transfer: of the first N turns, n whole transfers take up all but those of
      the one in progress, where n is the number of the transfers recorded. */
  lemma {:induction false} KeepsPace(x: Line, ticks: seq<Tick>, d: nat)
    requires x.loop.core.Shape() && Resting(x) && InTime(ticks, d) && AlwaysPrompt(x, ticks, d)
    ensures var y := Exchanges(x, ticks);
      AtPace(y, ticks, |y.loop.beats| - |x.loop.beats|, d) && (Flawless(x.loop) ==> Flawless(y.loop))
  {
    hide Exchange, Prompt, Low32, Rests, Underway, Flawless, InTime;
    FirstInTime(ticks, d);
    if ticks == [] {
      RestsAtFirst(x, d);
    } else {
      var m := |ticks| - 1;
      var before, t := ticks[..m], ticks[m];
      assert before + [t] == ticks && ticks[..|ticks|] == ticks;
      EarlierTicks(x, ticks, m, d);
      PartInTime(ticks, 0, m, d);
      KeepsPace(x, before, d);
      var y := Exchanges(x, before);
      var n := |y.loop.beats| - |x.loop.beats|;
      if Rests(y, m, n, d) {
        RestStep(y, before, t, n, d);
      } else {
        var j: nat :| Underway(y, before, n, j, d);
        UnderwayStep(y, before, t, n, j, d);
      }
    }
  }

  lemma RestsAtFirst(x: Line, d: nat)
    requires Resting(x)
    ensures Rests(x, 0, 0, d)
  {
  }

  lemma PaceBounds(x: Line, ticks: seq<Tick>, n: int, d: nat)
    requires AtPace(x, ticks, n, d)
    ensures (FRAME + 1) * n <= |ticks| < (FRAME + 1 + d) * (n + 1)
  {
    hide OnTheWay;
    if !Rests(x, |ticks|, n, d) {
      var j: nat :| Underway(x, ticks, n, j, d);
      InPhase(x, j, d, ticks[|ticks| - 1 - j].epoch);
    }
  }

  lemma OneExchange(x: Line, t: Tick)
    requires x.loop.core.Shape() && t.others.Shape()
    ensures Exchanges(x, [t]) == Exchange(x, t)
  {
    assert [t][..0] == [];
  }

  lemma FirstInTime(ticks: seq<Tick>, d: nat)
    requires InTime(ticks, d)
    ensures Shaped(ticks)
    ensures forall k :: 0 <= k < |ticks| ==> ticks[k].others.epoch == Low32(ticks[k].epoch)
  {
  }

  lemma PartInTime(ticks: seq<Tick>, i: nat, m: nat, d: nat)
    requires i <= m <= |ticks| && InTime(ticks, d)
    ensures InTime(ticks[i..m], d)
  {
    hide Low32;
    var part := ticks[i..m];
    assert forall k :: 0 <= k < |part| ==> part[k] == ticks[i + k];
  }

  lemma EarlierTicks(x: Line, ticks: seq<Tick>, m: nat, d: nat)
    requires x.loop.core.Shape() && m <= |ticks| && Shaped(ticks) && AlwaysPrompt(x, ticks, d)
    ensures Shaped(ticks[..m]) && AlwaysPrompt(x, ticks[..m], d)
  {
    hide *;
    ShapedPart(ticks, 0, m);
    forall k: nat | k <= m
      ensures Shaped(ticks[..m][..k]) && Prompt(Exchanges(x, ticks[..m][..k]), d)
    {
      assert ticks[..m][..k] == ticks[..k];
      PromptAt(x, ticks, k, d);
    }
    EachPrompt(x, ticks[..m], d);
  }

  /** What holds of the turns holds of those after the first i. */
  lemma LaterTicks(x: Line, ticks: seq<Tick>, i: nat, d: nat)
    requires x.loop.core.Shape() && i <= |ticks| && InTime(ticks, d) && AlwaysPrompt(x, ticks, d)
    ensures InTime(ticks[i..], d) && AlwaysPrompt(Exchanges(x, ticks[..i]), ticks[i..], d)
  {
    hide *;
    assert ticks[i..|ticks|] == ticks[i..];
    FirstInTime(ticks, d);
    PartInTime(ticks, i, |ticks|, d);
    ShapedPart(ticks, 0, i);
    ShapedPart(ticks, i, |ticks|);
    var y, rest := Exchanges(x, ticks[..i]), ticks[i..];
    forall k: nat | k <= |rest|
      ensures Shaped(rest[..k]) && Prompt(Exchanges(y, rest[..k]), d)
    {
      LaterTick(x, ticks, i, k, d);
    }
    EachPrompt(y, rest, d);
  }

  lemma EachPrompt(x: Line, ticks: seq<Tick>, d: nat)
    requires x.loop.core.Shape() && Shaped(ticks)
    requires forall k: nat :: k <= |ticks| ==> Shaped(ticks[..k]) && Prompt(Exchanges(x, ticks[..k]), d)
    ensures AlwaysPrompt(x, ticks, d)
  {
    hide Exchanges, Prompt, Shaped;
  }

  lemma LaterTick(x: Line, ticks: seq<Tick>, i: nat, k: nat, d: nat)
    requires x.loop.core.Shape() && i + k <= |ticks| && Shaped(ticks) && AlwaysPrompt(x, ticks, d)
    ensures Shaped(ticks[..i]) && Shaped(ticks[i..][..k])
    ensures Prompt(Exchanges(Exchanges(x, ticks[..i]), ticks[i..][..k]), d)
  {
    hide *;
    ShapedPart(ticks, 0, i);
    ShapedPart(ticks, 0, i + k);
    ShapedPart(ticks, i, i + k);
    PromptAt(x, ticks, i + k, d);
    assert ticks[i..][..k] == ticks[i..i + k] && ticks[..i] + ticks[i..][..k] == ticks[..i + k];
    ExchangesAgain(x, ticks[..i], ticks[i..][..k]);
  }

  lemma PromptAt(x: Line, ticks: seq<Tick>, k: nat, d: nat)
    requires x.loop.core.Shape() && k <= |ticks| && Shaped(ticks) && AlwaysPrompt(x, ticks, d)
    ensures Shaped(ticks[..k]) && Prompt(Exchanges(x, ticks[..k]), d)
  {
    hide Exchanges, Prompt;
  }

  /** The loopback before its first turn. */
  function Quiet(c: Core): Line {
    Line(Idle(c), [], [])
  }

  lemma FirstExchange(c: Core, t: Tick)
    requires Initial(c) && t.others.Shape()
    ensures var y := Exchange(Quiet(c), t); Resting(y) && y.loop.beats == [] && Flawless(y.loop)
  {
    QuietFlawless(c);
    MeetingFlawless(Quiet(c), t);
    hide Merged;
    assert Exchange(Quiet(c), t).loop == Resynced(Meeting(Quiet(c), t));
  }

  lemma QuietFlawless(c: Core)
    requires Initial(c)
    ensures Flawless(Idle(c))
  {
  }

  /** For a line that gives every byte back within d turns (in the turn it is sent, if d is 0), starting from
      a fresh core: after N turns there are n heartbeats where 13 n <= N - 1 < (13 + d) (n + 1), one for every
      completed transfer, each counted, and there has been neither a failure nor a missed deadline. */
  lemma LosslessHeartbeats(c: Core, ticks: seq<Tick>, d: nat)
    requires Initial(c) && ticks != [] && InTime(ticks, d) && AlwaysPrompt(Quiet(c), ticks, d)
    ensures var y := Exchanges(Quiet(c), ticks);
      var n, h := |y.loop.beats|, y.loop.core.ip[UART_LOOP];
      && (FRAME + 1) * n <= |ticks| - 1 < (FRAME + 1 + d) * (n + 1)
      && h.heartbeats == Low32(n) && h.misses == 0 && h.state == if n == 0 then Unknown else Pass
  {
    hide Exchange, Exchanges, AtPace, Resting, Prompt, InTime;
    var first, rest := ticks[..1], ticks[1..];
    assert first == [ticks[0]] && first + rest == ticks;
    FirstInTime(ticks, d);
    OneExchange(Quiet(c), ticks[0]);
    FirstExchange(c, ticks[0]);
    LaterTicks(Quiet(c), ticks, 1, d);
    var x := Exchanges(Quiet(c), first);
    ExchangesAgain(Quiet(c), first, rest);
    KeepsPace(x, rest, d);
    var y := Exchanges(x, rest);
    PaceBounds(y, rest, |y.loop.beats|, d);
  }
}
