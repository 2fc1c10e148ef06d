/** The observers as the firmware keeps them: cursors and buffers advanced in place, each method proved
    to be the corresponding step of `Observing`. */
module Observers {
  import opened Wrappers
  import opened Words
  import opened Health
  import opened HealthText
  import opened VgaText
  import opened Observing
  import HealthCore
  import Screen

  class Observers {
    var vgaSlot: nat
    var uartSlot: nat
    var pending: Readers
    var start: U32
    var clearWord: nat
    var vgaLine: nat
    var vgaColumn: nat
    var uartStage: nat
    var uartLine: nat
    var uartColumn: nat
    var uartLength: nat
    const vgaBuffer: array<char>
    const uartBuffer: array<char>

    predicate Valid()
      reads this
    {
      && vgaBuffer.Length == uartBuffer.Length == LINE_SIZE && vgaBuffer != uartBuffer
      && vgaSlot <= NO_SLOT && uartSlot <= NO_SLOT && uartLength <= LINE_SIZE && vgaLine <= TEXT_LINES
    }

    function State(): (o: Obs)
      requires Valid()
      reads this, uartBuffer
      ensures o.Shape()
    {
      Obs(vgaSlot, uartSlot, pending, start, clearWord, vgaLine, vgaColumn,
          uartStage, uartLine, uartColumn, uartLength, uartBuffer[..uartLength])
    }

    /** soc_health_observers_init */
    constructor ()
      ensures Valid() && State() == IDLE && fresh(vgaBuffer) && fresh(uartBuffer)
    {
      vgaSlot, uartSlot, pending, start := NO_SLOT, NO_SLOT, Readers(false, false), 0;
      clearWord, vgaLine, vgaColumn := 0, 0, 0;
      uartStage, uartLine, uartColumn, uartLength := 0, 0, 0, 0;
      vgaBuffer := new char[LINE_SIZE];
      uartBuffer := new char[LINE_SIZE];
      new;
      vgaBuffer[0] := '\0';
      uartBuffer[0] := '\0';
    }

    /** soc_health_observers_begin */
    method Begin(slot: nat, epoch: U32) returns (ok: bool)
      requires Valid() && slot <= NO_SLOT
      modifies this
      ensures Valid() && State() == Begun(old(State()), slot, epoch)
      ensures ok <==> slot < 2 && old(pending).None()
    {
      if slot == NO_SLOT || !pending.None() {
        return false;
      }
      vgaSlot, uartSlot, pending, start := slot, slot, Readers(true, true), epoch;
      clearWord, vgaLine, vgaColumn := 0, 0, 0;
      uartStage, uartLine, uartColumn, uartLength := 0, 0, 0, 0;
      return true;
    }

    // -------------------------------------------------------------- the screen

    /** soc_health_observers_vga_release */
    method VgaRelease(c: HealthCore.Core, completed: bool)
      requires Valid() && c.Valid()
      modifies this`vgaSlot, this`pending, c
      ensures Valid() && c.Valid()
      ensures Holding(c.State(), State()) == VgaReleased(old(c.State()), old(State()), completed)
    {
      hide Released;
      if vgaSlot == NO_SLOT {
        return;
      }
      var _ := c.SnapshotRelease(vgaSlot, 1, completed);
      vgaSlot := NO_SLOT;
      pending := pending.Without(Vga);
    }

    /** Eight more words are cleared, as far as the screen goes. */
    method ClearSome(fb: array<bv32>)
      requires Valid() && fb.Length == WORDS && clearWord < WORDS
      modifies this`clearWord, fb
      ensures Valid()
      ensures clearWord == Least(old(clearWord) + CLEAR_QUOTA, WORDS)
      ensures fb[..] == Cleared(old(fb[..]), old(clearWord), clearWord)
    {
      var i := 0;
      while i < CLEAR_QUOTA && clearWord < WORDS
        invariant i <= CLEAR_QUOTA && Valid()
        invariant clearWord == old(clearWord) + i <= WORDS
        invariant forall w :: 0 <= w < WORDS ==> fb[w] == if old(clearWord) <= w < clearWord then 0 else old(fb[w])
      {
        fb[clearWord] := 0;
        clearWord := clearWord + 1;
        i := i + 1;
      }
      assert fb[..] == Cleared(old(fb[..]), old(clearWord), clearWord);
    }

    /** soc_health_observers_vga_prepare */
    method VgaPrepare(c: HealthCore.Core, fb: array<bv32>) returns (result: int)
      requires Valid() && c.Valid() && fb.Length == WORDS
      requires vgaSlot < 2 ==> |c.slot[vgaSlot].snapshot.ip| == IP_COUNT
      modifies this`vgaSlot, this`pending, this`clearWord, this`vgaLine, this`vgaColumn, c, fb, vgaBuffer
      ensures Valid() && c.Valid()
      ensures Prepared(c.State(), State(), fb[..], result) == VgaPrepared(old(c.State()), old(State()), old(fb[..]))
    {
      hide Released, Line, Cleared, ChunkWritten;
      if vgaSlot == NO_SLOT {
        return -1;
      }
      if Sub(c.epoch, start) >= OBSERVER_BUDGET {
        VgaRelease(c, false);
        return -1;
      }
      if clearWord < WORDS {
        ClearSome(fb);
        return 0;
      }
      if vgaLine == TEXT_LINES {
        return 1;
      }
      result := WriteChunk(c, fb);
    }

    /** The next chunk of the current line. */
    method WriteChunk(c: HealthCore.Core, fb: array<bv32>) returns (result: int)
      requires Valid() && c.Valid() && fb.Length == WORDS
      requires vgaSlot < 2 && |c.slot[vgaSlot].snapshot.ip| == IP_COUNT && vgaLine < TEXT_LINES
      modifies this`vgaLine, this`vgaColumn, fb, vgaBuffer
      ensures Valid()
      ensures Prepared(c.State(), State(), fb[..], result)
        == ChunkWritten(c.State(), old(State()), old(fb[..]), Line(c.slot[vgaSlot].snapshot, old(vgaLine)))
    {
      hide Line, PutsWord, Put, Screen.Chunk;
      ghost var line := Line(c.slot[vgaSlot].snapshot, vgaLine);
      var length := FormatCurrent(c.slot[vgaSlot].snapshot);
      if vgaColumn < length {
        var i := ShowChunk(fb, line, length);
        vgaColumn := vgaColumn + i;
      }
      if vgaColumn >= length {
        vgaColumn := 0;
        vgaLine := vgaLine + 1;
      }
      result := if vgaLine == TEXT_LINES then 1 else 0;
    }

    method FormatCurrent(s: Snapshot) returns (length: nat)
      requires Valid() && |s.ip| == IP_COUNT
      modifies vgaBuffer
      ensures length == |Line(s, vgaLine)| < LINE_SIZE && vgaBuffer[..length] == Line(s, vgaLine)
      ensures Plain(Line(s, vgaLine))
    {
      hide Line, Plain;
      length := FormatLine(Some(s), vgaLine, vgaBuffer, LINE_SIZE);
      LinePlain(s, vgaLine);
    }

    method ShowChunk(fb: array<bv32>, ghost line: string, length: nat) returns (i: nat)
      requires Valid() && fb.Length == WORDS && vgaColumn < length == |line| < LINE_SIZE && Plain(line)
      requires vgaBuffer[..length] == line
      modifies fb
      ensures i == |Screen.Chunk(line, vgaColumn)|
      ensures fb[..] == Put(old(fb[..]), Screen.TEXT_X + vgaColumn / 4, Screen.TEXT_Y + vgaLine * Screen.PITCH,
        Screen.Chunk(line, vgaColumn))
    {
      hide PutsWord, CString;
      var chunk := new char[5];
      i := 0;
      while i < 4 && vgaColumn + i < length
        invariant i <= 4 && vgaColumn + i <= length
        invariant chunk[..i] == line[vgaColumn..vgaColumn + i]
        invariant fb[..] == old(fb[..]) && vgaBuffer[..length] == line
      {
        assert vgaBuffer[vgaColumn + i] == line[vgaColumn + i];
        chunk[i] := vgaBuffer[vgaColumn + i];
        i := i + 1;
      }
      chunk[i] := '\0';
      ghost var str := Screen.Chunk(line, vgaColumn);
      assert chunk[..][..i] == str;
      CStringIs(chunk[..], i);
      Puts(fb, Screen.TEXT_X + vgaColumn / 4, Screen.TEXT_Y + vgaLine * Screen.PITCH, chunk[..]);
      assert fb[..] == Put(old(fb[..]), Screen.TEXT_X + vgaColumn / 4, Screen.TEXT_Y + vgaLine * Screen.PITCH, str);
    }

    // -------------------------------------------------------------- the serial line

    method UartRelease(c: HealthCore.Core, completed: bool)
      requires Valid() && c.Valid()
      modifies this`uartSlot, this`pending, c
      ensures Valid() && c.Valid()
      ensures Uarted(c.State(), State(), "") == UartReleased(old(c.State()), old(State()), completed)
    {
      hide Released;
      var _ := c.SnapshotRelease(uartSlot, 2, completed);
      uartSlot := NO_SLOT;
      pending := pending.Without(Uart);
    }

    /** The piece that is due next, with its line end, into the buffer. */
    method FillBuffer(s: Snapshot)
      requires Valid() && |s.ip| == IP_COUNT && uartLength == 0
      modifies this`uartLength, this`uartColumn, uartBuffer
      ensures Valid() && State() == Filled(s, old(State()))
    {
      hide Line;
      var t: Text;
      if uartStage == 0 {
        t := new Text(uartBuffer, LINE_SIZE);
        t.String(HEADER);
      } else if uartStage == 2 {
        t := new Text(uartBuffer, LINE_SIZE);
        t.String(SEPARATOR);
      } else {
        var length := FormatLine(Some(s), uartLine, uartBuffer, LINE_SIZE);
        t := new Text.At(uartBuffer, LINE_SIZE, length, Line(s, uartLine));
      }
      t.String(CRLF);
      assert t.content == StageText(s, old(State()));
      uartLength := t.length;
      uartColumn := 0;
      assert uartBuffer[..uartLength] == t.content;
    }

    /** soc_health_observers_uart_service; ready is the answer of the transmitter's status register in
        this turn, and sent what went into its data register. */
    method UartService(c: HealthCore.Core, ready: bool) returns (sent: string)
      requires Valid() && c.Valid()
      requires uartSlot < 2 ==>
        |c.slot[uartSlot].snapshot.ip| == IP_COUNT && (uartLength > 0 ==> uartColumn < uartLength)
      modifies this`uartSlot, this`pending, this`uartStage, this`uartLine, this`uartColumn, this`uartLength, c,
        uartBuffer
      ensures Valid() && c.Valid()
      ensures Uarted(c.State(), State(), sent) == UartServed(old(c.State()), old(State()), ready)
    {
      hide Released, StageText, Filled, Advanced;
      sent := "";
      if uartSlot == NO_SLOT {
        return;
      }
      if Sub(c.epoch, start) >= OBSERVER_BUDGET {
        UartRelease(c, false);
        return;
      }
      if uartStage == 3 {
        if ready {
          UartRelease(c, true);
        }
        return;
      }
      if uartLength == 0 {
        FillBuffer(c.slot[uartSlot].snapshot);
      }
      if !ready {
        return;
      }
      sent := [uartBuffer[uartColumn]];
      Advance();
    }

    /** The counters after a character. */
    method Advance()
      requires Valid()
      modifies this`uartStage, this`uartLine, this`uartColumn, this`uartLength
      ensures Valid() && State() == Observing.Advanced(old(State()))
    {
      uartColumn := uartColumn + 1;
      if uartColumn == uartLength {
        uartLength := 0;
        assert uartBuffer[..0] == "";
        if uartStage == 0 {
          uartStage := 1;
        } else if uartStage == 2 {
          uartStage := 3;
        } else {
          uartLine := uartLine + 1;
          if uartLine == TEXT_LINES {
            uartStage := 2;
          }
        }
      }
    }
  }
}
