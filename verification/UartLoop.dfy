/** The serial loopback: twelve bytes derived from a sequence number go out on one line and must come
    back on the other. */
module UartLoop {
  import opened Words
  import opened Health
  import opened ByteValues

  const RX_QUOTA: nat := 4
  const FRAME: nat := 12

  const INIT: nat := 0
  const DRAIN: nat := 1
  const TRANSFER: nat := 2

  // ---------------------------------------------------------------- frames

  /** token_byte */
  function TokenByte(k: U32, index: nat): Byte {
    if index == 0 then 0xa5
    else if index == 1 then 0x5a
    else if index < 6 then WordByte(k, index - 2)
    else if index < 10 then WordByte(Complement(k), index - 6)
    else if index == 10 then 0xc3 else 0x3c
  }

  /** The frame of sequence number k. */
  function Frame(k: U32): (f: seq<Byte>)
    ensures |f| == FRAME
  {
    seq(FRAME, i requires 0 <= i => TokenByte(k, i))
  }

  function Number(b0: Byte, b1: Byte, b2: Byte, b3: Byte): nat {
    Val(b0) + 0x100 * Val(b1) + 0x1_0000 * Val(b2) + 0x100_0000 * Val(b3)
  }

  /** A frame is two marks, the number and its complement, lowest byte first, and two marks. */
  lemma FrameTells(k: U32)
    ensures var f := Frame(k);
      && f[0] == 0xa5 && f[1] == 0x5a && f[10] == 0xc3 && f[11] == 0x3c
      && Number(f[2], f[3], f[4], f[5]) == k && Number(f[6], f[7], f[8], f[9]) == 0xffff_ffff - k
  {
    hide ByteOf, Val;
    FourDigits(k);
    FourDigits(Complement(k));
  }

  /** Different sequence numbers have different frames. */
  lemma FramesInjective(j: U32, k: U32)
    ensures Frame(j) == Frame(k) <==> j == k
  {
    hide WordByte;
    if Frame(j) == Frame(k) {
      assert Frame(j)[2] == Frame(k)[2] && Frame(j)[3] == Frame(k)[3];
      assert Frame(j)[4] == Frame(k)[4] && Frame(j)[5] == Frame(k)[5];
      WordBytesDetermine(j, k);
    }
  }

  // ---------------------------------------------------------------- the state

  /** A completed transfer: its number, what had come in and gone out since it began, and whether the core
      counted it. */
  datatype Beat = Beat(number: U32, received: seq<Byte>, sent: seq<Byte>, counted: bool)

  /** The serial part of soc_health_providers_t, with two histories: the bytes sent since the transfer
      began, and the completed transfers. */
  datatype Loop = Loop(
    core: Core, phase: nat, attempt: U32, deadline: Deadline,
    number: U32, tx: nat, rx: nat, frame: seq<Byte>, sent: seq<Byte>, beats: seq<Beat>)

  function Idle(c: Core): Loop {
    Loop(c, INIT, 0, Deadline(0, 0, 0, false), 0, 0, 0, [], [], [])
  }

  /** What the lines answer in one turn: the receive error flag, the transmitter's readiness, and the
      bytes that can be read, one after the other, until the receiver says it has none. */
  datatype Lines = Lines(error: bool, ready: bool, bytes: seq<Byte>)

  /** The state after a turn, and the bytes not read. */
  datatype Outcome = Outcome(loop: Loop, rest: seq<Byte>)

  // ---------------------------------------------------------------- the step

  /** arm */
  function Armed(l: Loop): Loop {
    l.(attempt := Inc(l.attempt), deadline := DeadlineBegun(l.deadline, l.core.epoch, PROVIDER_BUDGET, Inc(l.attempt)))
  }

  /** uart_resync */
  function Resynced(l: Loop): Loop {
    l.(phase := DRAIN, tx := 0, rx := 0, frame := [], sent := [], deadline := l.deadline.(armed := false))
  }

  function Failed(l: Loop, detail: bv32): (l': Loop)
    requires l.core.Shape()
    ensures l'.core.Shape() && l' == l.(core := l'.core)
  {
    l.(core := Reported(l.core, Report(UART_LOOP, STEP_FAIL, 0, detail)))
  }

  function MismatchDetail(rx: nat, b: Byte): bv32 {
    Or(Or(0x21000000, Bits(Low32(rx * 256))), b as bv32)
  }

  /** Twelve matching bytes are in. */
  function Completed(l: Loop): (l': Loop)
    requires l.core.Shape()
    ensures l'.core.Shape()
  {
    if l.tx != FRAME then Resynced(Failed(l, 0x2003))
    else
      var r := Report(UART_LOOP, STEP_PROGRESS, l.number, Bits(l.number));
      var b := Beat(l.number, l.frame, l.sent, Accepts(l.core, r));
      Resynced(l.(core := Reported(l.core, r), beats := l.beats + [b]))
  }

  /** Up to quota bytes are read and compared. */
  function Received(l: Loop, bytes: seq<Byte>, quota: nat): (o: Outcome)
    requires l.core.Shape()
    ensures o.loop.core.Shape()
    decreases quota
  {
    if quota == 0 || bytes == [] then Outcome(l, bytes)
    else if bytes[0] != TokenByte(l.number, l.rx) then
      Outcome(Resynced(Failed(l, MismatchDetail(l.rx, bytes[0]))), bytes[1..])
    else
      var m := l.(rx := l.rx + 1, frame := l.frame + [bytes[0]]);
      if m.rx == FRAME then Outcome(Completed(m), bytes[1..]) else Received(m, bytes[1..], quota - 1)
  }

  /** Up to four stale bytes are thrown away; once there are none, a new transfer begins. */
  function Drained(l: Loop, bytes: seq<Byte>): (o: Outcome)
    requires l.core.Shape()
    ensures o.loop.core.Shape()
  {
    if |bytes| >= RX_QUOTA then Outcome(l, bytes[RX_QUOTA..])
    else Outcome(Armed(l.(number := Inc(l.number), tx := 0, rx := 0, frame := [], sent := [])).(phase := TRANSFER), [])
  }

  function Transmitted(l: Loop, ready: bool): Loop {
    if l.tx < FRAME && ready then l.(tx := l.tx + 1, sent := l.sent + [TokenByte(l.number, l.tx)]) else l
  }

  function Polled(l: Loop): (r: (Loop, bool))
    requires l.core.Shape()
    ensures r.0.core.Shape() && r.0 == l.(core := r.0.core, deadline := r.0.deadline)
  {
    var q := DeadlinePolled(l.core, UART_LOOP, l.deadline);
    (l.(core := q.core, deadline := q.deadline), q.expired)
  }

  /** Past the deadline and the error flag. */
  function PhaseServed(l: Loop, a: Lines): (o: Outcome)
    requires l.core.Shape()
    ensures o.loop.core.Shape()
  {
    if a.error then Outcome(Resynced(Failed(l, 0x2002)), a.bytes)
    else if l.phase == DRAIN then Drained(l, a.bytes)
    else Received(Transmitted(l, a.ready), a.bytes, RX_QUOTA)
  }

  /** soc_health_uart_service; the divisor it sets is within the driver's limits, so setting it succeeds. */
  function Served(l: Loop, a: Lines): (o: Outcome)
    requires l.core.Shape()
    ensures o.loop.core.Shape()
  {
    if l.phase == INIT then Outcome(Resynced(l), a.bytes)
    else
      var p := Polled(if l.deadline.armed then l else Armed(l));
      if p.1 then Outcome(Resynced(p.0), a.bytes) else PhaseServed(p.0, a)
  }

  // ---------------------------------------------------------------- what a heartbeat vouches for

  /** How many of the transfers the core counted. */
  function Tally(beats: seq<Beat>): nat {
    if beats == [] then 0
    else Tally(beats[..|beats| - 1]) + if beats[|beats| - 1].counted then 1 else 0
  }

  /** What came in and what went out since the transfer began are beginnings of the frame, every completed
      transfer was of a whole one, and the heartbeats of the record count completed transfers. */
  predicate Receiving(l: Loop) {
    && l.core.Shape() && l.phase <= TRANSFER
    && l.tx <= FRAME && l.rx <= FRAME && |l.frame| == l.rx && |l.sent| == l.tx
    && l.frame == Frame(l.number)[..l.rx] && l.sent == Frame(l.number)[..l.tx]
    && (forall k :: 0 <= k < |l.beats| ==> l.beats[k].received == l.beats[k].sent == Frame(l.beats[k].number))
    && l.core.ip[UART_LOOP].heartbeats == Low32(Tally(l.beats))
  }

  predicate Kept(l: Loop) {
    Receiving(l) && l.rx < FRAME
  }

  lemma ResyncedKept(l: Loop)
    requires Receiving(l)
    ensures Kept(Resynced(l))
  {
    hide TokenByte;
  }

  /** Failures and misses are not heartbeats. */
  lemma ReportKeepsBeats(c: Core, r: Report)
    requires c.Shape() && r.step != STEP_PROGRESS
    ensures Reported(c, r).ip[UART_LOOP].heartbeats == c.ip[UART_LOOP].heartbeats
  {
  }

  lemma FailedKept(l: Loop, detail: bv32)
    requires Receiving(l)
    ensures Receiving(Failed(l, detail)) && Kept(Resynced(Failed(l, detail)))
  {
    hide Reported, Frame, Resynced;
    ReportKeepsBeats(l.core, Report(UART_LOOP, STEP_FAIL, 0, detail));
    ResyncedKept(Failed(l, detail));
  }

  lemma ProgressTallied(c: Core, r: Report, beats: seq<Beat>, b: Beat)
    requires c.Shape() && r.id == UART_LOOP && r.step == STEP_PROGRESS && b.counted == Accepts(c, r)
    requires c.ip[UART_LOOP].heartbeats == Low32(Tally(beats))
    ensures Reported(c, r).ip[UART_LOOP].heartbeats == Low32(Tally(beats + [b]))
  {
    hide Accepts;
    assert (beats + [b])[..|beats|] == beats;
    IncOfLow(Tally(beats));
    assert Accepts(c, r) ==> Reported(c, r).ip[UART_LOOP] == NewRecord(c, r);
  }

  lemma CompletedKept(l: Loop)
    requires Receiving(l) && l.rx == FRAME
    ensures Kept(Completed(l))
  {
    hide Reported, Resynced, Frame, Bits, Accepts, Tally;
    var r := Report(UART_LOOP, STEP_PROGRESS, l.number, Bits(l.number));
    var b := Beat(l.number, l.frame, l.sent, Accepts(l.core, r));
    var m := l.(core := Reported(l.core, r), beats := l.beats + [b]);
    assert Frame(l.number)[..FRAME] == Frame(l.number);
    FailedKept(l, 0x2003);
    if l.tx == FRAME {
      ProgressTallied(l.core, r, l.beats, b);
      assert Receiving(m);
      ResyncedKept(m);
    }
  }

  lemma {:induction false} ReceivedKept(l: Loop, bytes: seq<Byte>, quota: nat)
    requires Kept(l)
    ensures Kept(Received(l, bytes, quota).loop)
    decreases quota
  {
    hide Resynced, Completed, MismatchDetail, TokenByte, Tally, Failed;
    if quota > 0 && bytes != [] {
      FailedKept(l, MismatchDetail(l.rx, bytes[0]));
      if bytes[0] == TokenByte(l.number, l.rx) {
        var m := l.(rx := l.rx + 1, frame := l.frame + [bytes[0]]);
        assert Frame(l.number)[..l.rx + 1] == Frame(l.number)[..l.rx] + [TokenByte(l.number, l.rx)];
        if m.rx == FRAME {
          CompletedKept(m);
        } else {
          ReceivedKept(m, bytes[1..], quota - 1);
        }
      }
    }
  }

  lemma TransmittedKept(l: Loop, ready: bool)
    requires Kept(l)
    ensures Kept(Transmitted(l, ready))
  {
    hide TokenByte, Tally;
    if l.tx < FRAME {
      assert Frame(l.number)[..l.tx + 1] == Frame(l.number)[..l.tx] + [TokenByte(l.number, l.tx)];
    }
  }

  lemma PhaseKept(l: Loop, a: Lines)
    requires Kept(l)
    ensures Kept(PhaseServed(l, a).loop)
  {
    hide Resynced, Received, Transmitted, TokenByte, Failed, Tally;
    FailedKept(l, 0x2002);
    TransmittedKept(l, a.ready);
    ReceivedKept(Transmitted(l, a.ready), a.bytes, RX_QUOTA);
  }

  lemma PolledKept(l: Loop)
    requires Kept(l)
    ensures Kept(Polled(l).0)
  {
    hide Reported, Accepts, Frame, Tally;
    ReportKeepsBeats(l.core, Report(UART_LOOP, STEP_DEADLINE_MISS, l.deadline.token, Bits(l.deadline.budget)));
  }

  lemma ServedKept(l: Loop, a: Lines)
    requires Kept(l)
    ensures Kept(Served(l, a).loop)
  {
    hide Resynced, PhaseServed, Polled, Frame, Tally;
    ResyncedKept(l);
    var m := if l.deadline.armed then l else Armed(l);
    var p := Polled(m).0;
    assert Kept(m);
    PolledKept(m);
    ResyncedKept(p);
    PhaseKept(p, a);
  }

  /** A turn of the loopback, or anything the rest of the program does to the health core. */
  datatype Turn = Turn(lines: Lines) | Elsewhere(core: Core)
  {
    predicate Shape() {
      Elsewhere? ==> core.Shape()
    }
  }

  function Applied(l: Loop, t: Turn): (l': Loop)
    requires l.core.Shape() && t.Shape()
    ensures l'.core.Shape()
  {
    match t
    case Turn(a) => Served(l, a).loop
    case Elsewhere(c) => l.(core := Merged(l.core, c, UART_LOOP))
  }

  function Run(l: Loop, ts: seq<Turn>): (l': Loop)
    requires l.core.Shape() && forall k :: 0 <= k < |ts| ==> ts[k].Shape()
    ensures l'.core.Shape()
  {
    if ts == [] then l else Applied(Run(l, ts[..|ts| - 1]), ts[|ts| - 1])
  }

  lemma {:induction false} RunKept(l: Loop, ts: seq<Turn>)
    requires Kept(l) && forall k :: 0 <= k < |ts| ==> ts[k].Shape()
    ensures Kept(Run(l, ts))
  {
    hide Served, Frame, Tally;
    if ts != [] {
      var n := |ts| - 1;
      RunKept(l, ts[..n]);
      if ts[n].Turn? {
        ServedKept(Run(l, ts[..n]), ts[n].lines);
      }
    }
  }

  /** Whatever the lines do: the heartbeats of the record count completed transfers; a completed transfer
      numbered k is one in which exactly the twelve bytes of frame k came in and exactly these went out;
      and neither counter ever exceeds twelve. */
  lemma {:induction false} HeartbeatsVouch(c: Core, ts: seq<Turn>)
    requires c.Shape() && c.ip[UART_LOOP].heartbeats == 0 && forall k :: 0 <= k < |ts| ==> ts[k].Shape()
    ensures var l := Run(Idle(c), ts);
      && l.tx <= FRAME && l.rx <= FRAME
      && l.core.ip[UART_LOOP].heartbeats == Low32(Tally(l.beats))
      && forall k :: 0 <= k < |l.beats| ==> l.beats[k].received == l.beats[k].sent == Frame(l.beats[k].number)
  {
    hide Run, Frame;
    assert Kept(Idle(c));
    RunKept(Idle(c), ts);
  }

  // ---------------------------------------------------------------- what goes wrong is reported

  predicate Failing(l: Loop)
    requires l.core.Shape()
  {
    l.core.ip[UART_LOOP].state == Fail
  }

  /** What one turn's reading makes of a transfer: it goes on, is completed, or has failed. */
  predicate Goes(l: Loop, m: Loop)
    requires l.core.Shape() && m.core.Shape()
  {
    if m.phase == TRANSFER then m.core == l.core && m.beats == l.beats
    else m.phase == DRAIN && !m.deadline.armed && (|m.beats| == |l.beats| + 1 || (m.beats == l.beats && Failing(m)))
  }

  lemma FailureShows(l: Loop, detail: bv32)
    requires l.core.Shape()
    ensures Failing(Resynced(Failed(l, detail))) && Resynced(Failed(l, detail)).beats == l.beats
  {
    hide WithBit;
  }

  lemma {:induction false} ReceivedGoes(l: Loop, bytes: seq<Byte>, quota: nat)
    requires l.core.Shape() && l.phase == TRANSFER
    ensures Goes(l, Received(l, bytes, quota).loop)
    decreases quota
  {
    hide Reported, Accepts, Failed, Failing, TokenByte, MismatchDetail;
    if quota > 0 && bytes != [] {
      FailureShows(l, MismatchDetail(l.rx, bytes[0]));
      var m := l.(rx := l.rx + 1, frame := l.frame + [bytes[0]]);
      FailureShows(m, 0x2003);
      if bytes[0] == TokenByte(l.number, l.rx) && m.rx != FRAME {
        ReceivedGoes(m, bytes[1..], quota - 1);
      }
    }
  }

  /** A wrong byte among those a turn reads is a failure. */
  lemma {:induction false} WrongByteFails(l: Loop, bytes: seq<Byte>, quota: nat, k: nat)
    requires l.core.Shape() && k < |bytes| && k < quota && l.rx + k < FRAME
    requires forall j :: 0 <= j < k ==> bytes[j] == TokenByte(l.number, l.rx + j)
    requires bytes[k] != TokenByte(l.number, l.rx + k)
    ensures var o := Received(l, bytes, quota); Failing(o.loop) && o.loop.phase == DRAIN && o.rest == bytes[k + 1..]
    decreases quota
  {
    hide Reported, Accepts, Failed, Failing, TokenByte, MismatchDetail;
    if k == 0 {
      FailureShows(l, MismatchDetail(l.rx, bytes[0]));
    } else {
      var m := l.(rx := l.rx + 1, frame := l.frame + [bytes[0]]);
      assert bytes[0] == TokenByte(l.number, l.rx + 0);
      forall j | 0 <= j < k - 1
        ensures bytes[1..][j] == TokenByte(m.number, m.rx + j)
      {
        assert bytes[1 + j] == TokenByte(l.number, l.rx + (1 + j));
      }
      WrongByteFails(m, bytes[1..], quota - 1, k - 1);
      assert bytes[1..][k..] == bytes[k + 1..];
    }
  }

  lemma {:induction false} AtMostQuota(l: Loop, bytes: seq<Byte>, quota: nat)
    requires l.core.Shape()
    ensures exists k :: 0 <= k <= quota && k <= |bytes| && Received(l, bytes, quota).rest == bytes[k..]
    decreases quota
  {
    hide Completed, Failed, Resynced, TokenByte, MismatchDetail;
    if quota == 0 || bytes == [] {
      assert Received(l, bytes, quota).rest == bytes[0..];
    } else {
      var m := l.(rx := l.rx + 1, frame := l.frame + [bytes[0]]);
      if bytes[0] == TokenByte(l.number, l.rx) && m.rx != FRAME {
        AtMostQuota(m, bytes[1..], quota - 1);
        var k :| 0 <= k <= quota - 1 && k <= |bytes[1..]| && Received(m, bytes[1..], quota - 1).rest == bytes[1..][k..];
        assert bytes[1..][k..] == bytes[k + 1..];
      } else {
        assert Received(l, bytes, quota).rest == bytes[1..];
      }
    }
  }

  /** No turn reads more than four bytes, whatever it does with them. */
  lemma BoundedTurn(l: Loop, a: Lines)
    requires l.core.Shape()
    ensures exists k :: 0 <= k <= 4 && k <= |a.bytes| && Served(l, a).rest == a.bytes[k..]
  {
    hide Received, TokenByte, Failed, Resynced, Reported, Accepts;
    assert a.bytes[0..] == a.bytes && a.bytes[|a.bytes|..] == [];
    var p := Polled(if l.deadline.armed then l else Armed(l)).0;
    AtMostQuota(Transmitted(p, a.ready), a.bytes, RX_QUOTA);
  }

  /** A turn of a transfer leaves it in progress, or completes it, or leaves the record failed; so does a turn with
      the error flag of the receiver, in any phase but the first. */
  lemma EndsInBeatOrFailure(l: Loop, a: Lines)
    requires l.core.Shape() && l.phase != INIT
    ensures var m := Served(l, a).loop;
      && (a.error ==> Failing(m) && m.phase == DRAIN)
      && (l.phase == TRANSFER ==>
            || (m.phase == TRANSFER && m.beats == l.beats)
            || (m.phase == DRAIN && (|m.beats| == |l.beats| + 1 || (m.beats == l.beats && Failing(m)))))
  {
    hide Received, Failed, TokenByte, Drained, Reported, Accepts;
    var w := if l.deadline.armed then l else Armed(l);
    var p := Polled(w).0;
    MissShows(w);
    FailureShows(p, 0x2002);
    if l.phase == TRANSFER {
      ReceivedGoes(Transmitted(p, a.ready), a.bytes, RX_QUOTA);
    }
  }

  lemma MissShows(l: Loop)
    requires l.core.Shape()
    ensures Polled(l).1 ==> Failing(Polled(l).0)
  {
    hide WithBit;
  }
}
