/** The serial loopback as the firmware keeps it, with its receive buffer filled in place; its service is
    proved to be the step of `UartLoop`. */
module UartService {
  import opened Words
  import opened Health
  import opened ByteValues
  import opened UartLoop
  import HealthCore

  class SerialLoop {
    var phase: nat
    var attempt: U32
    var deadline: Deadline
    var number: U32
    var tx: nat
    var rx: nat
    const frame: array<Byte>
    ghost var sent: seq<Byte>
    ghost var beats: seq<Beat>

    constructor (ghost c: HealthCore.Core)
      ensures Valid() && fresh(frame) && rx == 0 && State(c) == Idle(c.State())
    {
      phase, attempt, deadline := INIT, 0, Deadline(0, 0, 0, false);
      number, tx, rx, sent, beats := 0, 0, 0, [], [];
      frame := new Byte[FRAME];
    }

    predicate Valid()
      reads this
    {
      frame.Length == FRAME && rx <= FRAME
    }

    ghost function State(c: HealthCore.Core): Loop
      requires Valid()
      reads this, frame, c
    {
      Loop(c.State(), phase, attempt, deadline, number, tx, rx, frame[..rx], sent, beats)
    }

    /** arm */
    method Arm(c: HealthCore.Core)
      requires Valid()
      modifies this`attempt, this`deadline
      ensures Valid() && State(c) == Armed(old(State(c)))
    {
      hide Inc;
      attempt := Inc(attempt);
      var ok;
      deadline, ok := HealthCore.DeadlineBegin(deadline, c.epoch, PROVIDER_BUDGET, attempt);
    }

    /** uart_resync */
    method Resync(c: HealthCore.Core)
      requires Valid()
      modifies this`phase, this`tx, this`rx, this`deadline, this`sent
      ensures Valid() && rx == 0 && State(c) == Resynced(old(State(c)))
    {
      phase := DRAIN;
      tx, rx := 0, 0;
      sent := [];
      deadline := deadline.(armed := false);
      assert frame[..0] == [];
    }

    /** fail and uart_resync */
    method FailAndResync(c: HealthCore.Core, detail: bv32)
      requires Valid() && c.Valid()
      modifies c, this`phase, this`tx, this`rx, this`deadline, this`sent
      ensures Valid() && c.Valid() && rx == 0 && State(c) == Resynced(Failed(old(State(c)), detail))
    {
      hide Reported, Resynced;
      var _ := c.Report(UART_LOOP, STEP_FAIL, 0, detail);
      Resync(c);
    }

    /** The twelfth byte is in. */
    method Complete(c: HealthCore.Core)
      requires Valid() && c.Valid()
      modifies c, this`phase, this`tx, this`rx, this`deadline, this`sent, this`beats
      ensures Valid() && c.Valid() && rx == 0 && State(c) == Completed(old(State(c)))
    {
      hide Reported, Resynced, Failed, Bits, Accepts;
      if tx != FRAME {
        FailAndResync(c, 0x2003);
        return;
      }
      var counted := c.Report(UART_LOOP, STEP_PROGRESS, number, Bits(number));
      beats := beats + [Beat(number, frame[..rx], sent, counted)];
      Resync(c);
    }

    /** The receive loop of a transfer. */
    method Receive(c: HealthCore.Core, bytes: seq<Byte>) returns (rest: seq<Byte>)
      requires Valid() && c.Valid() && rx < FRAME
      modifies c, frame, this`phase, this`tx, this`rx, this`deadline, this`sent, this`beats
      ensures Valid() && c.Valid() && rx < FRAME
      ensures Outcome(State(c), rest) == Received(old(State(c)), bytes, RX_QUOTA)
    {
      hide TokenByte, Resynced, Completed, Failed, MismatchDetail;
      rest := bytes;
      ghost var l := State(c);
      for i := 0 to RX_QUOTA
        invariant Valid() && c.Valid() && rx < FRAME
        invariant Received(l, bytes, RX_QUOTA) == Received(State(c), rest, RX_QUOTA - i)
      {
        if rest == [] {
          break;
        }
        var byte := rest[0];
        rest := rest[1..];
        if byte != TokenByte(number, rx) {
          FailAndResync(c, MismatchDetail(rx, byte));
          return;
        }
        frame[rx] := byte;
        rx := rx + 1;
        assert frame[..rx] == frame[..rx - 1] + [byte];
        if rx == FRAME {
          Complete(c);
          return;
        }
      }
    }

    /** The drain loop, at most four bytes in one turn. */
    method Drain(c: HealthCore.Core, bytes: seq<Byte>) returns (rest: seq<Byte>)
      requires Valid() && c.Valid()
      modifies this`phase, this`attempt, this`deadline, this`number, this`tx, this`rx, this`sent
      ensures Valid() && (old(rx) < FRAME ==> rx < FRAME)
      ensures Outcome(State(c), rest) == Drained(old(State(c)), bytes)
    {
      hide Inc, Armed;
      rest := bytes;
      for i := 0 to RX_QUOTA
        invariant State(c) == old(State(c)) && rx == old(rx)
        invariant i <= |bytes| && rest == bytes[i..]
      {
        if rest == [] {
          number := Inc(number);
          tx, rx := 0, 0;
          sent := [];
          assert frame[..0] == [];
          Arm(c);
          phase := TRANSFER;
          return;
        }
        rest := rest[1..];
      }
    }

    /** One byte onto the line, if the transmitter takes it. */
    method Transmit(c: HealthCore.Core, ready: bool)
      requires Valid()
      modifies this`tx, this`sent
      ensures Valid() && State(c) == Transmitted(old(State(c)), ready)
    {
      hide TokenByte;
      if tx < FRAME && ready {
        sent := sent + [TokenByte(number, tx)];
        tx := tx + 1;
      }
    }

    /** soc_health_uart_service */
    method Service(c: HealthCore.Core, a: Lines) returns (rest: seq<Byte>)
      requires Valid() && c.Valid() && rx < FRAME
      modifies this, frame, c
      ensures Valid() && c.Valid() && rx < FRAME
      ensures Outcome(State(c), rest) == Served(old(State(c)), a)
    {
      hide Resynced, Armed, PhaseServed, DeadlinePolled, Reported;
      rest := a.bytes;
      if phase == INIT {
        Resync(c);
        return;
      }
      if !deadline.armed {
        Arm(c);
      }
      ghost var m := State(c);
      var expired;
      deadline, expired := c.DeadlinePoll(UART_LOOP, deadline);
      assert (State(c), expired) == UartLoop.Polled(m);
      if expired {
        Resync(c);
        return;
      }
      rest := Phase(c, a);
    }

    method Phase(c: HealthCore.Core, a: Lines) returns (rest: seq<Byte>)
      requires Valid() && c.Valid() && rx < FRAME
      modifies this, frame, c
      ensures Valid() && c.Valid() && rx < FRAME
      ensures Outcome(State(c), rest) == PhaseServed(old(State(c)), a)
    {
      hide Resynced, Failed, Drained, Received, Transmitted;
      rest := a.bytes;
      if a.error {
        FailAndResync(c, 0x2002);
        return;
      }
      if phase == DRAIN {
        rest := Drain(c, a.bytes);
        return;
      }
      Transmit(c, a.ready);
      rest := Receive(c, a.bytes);
    }
  }
}
