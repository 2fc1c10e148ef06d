/** The two observers of a published snapshot, one bounded step at a time: the screen renderer and the
    serial text. */
module Observing {
  import opened Words
  import opened Health
  import opened HealthText
  import opened VgaText
  import Screen

  const OBSERVER_BUDGET: nat := 262144
  const CLEAR_QUOTA: nat := 8
  const NO_SLOT: nat := 2

  type Framebuffer = f: seq<bv32> | |f| == WORDS witness seq(WORDS, i => 0)

  /** soc_health_observers_t; a snapshot pointer is the index of its slot, or NO_SLOT for null. */
  datatype Obs = Obs(
    vgaSlot: nat, uartSlot: nat, pending: Readers, start: U32,
    clearWord: nat, vgaLine: nat, vgaColumn: nat,
    uartStage: nat, uartLine: nat, uartColumn: nat, uartLength: nat, uartBuffer: string)
  {
    predicate Shape() {
      vgaSlot <= NO_SLOT && uartSlot <= NO_SLOT && uartLength == |uartBuffer| && vgaLine <= TEXT_LINES
    }
  }

  const IDLE: Obs := Obs(NO_SLOT, NO_SLOT, Readers(false, false), 0, 0, 0, 0, 0, 0, 0, 0, "")

  /** soc_health_observers_begin */
  function Begun(o: Obs, slot: nat, epoch: U32): Obs {
    if slot == NO_SLOT || !o.pending.None() then o
    else Obs(slot, slot, Readers(true, true), epoch, 0, 0, 0, 0, 0, 0, 0, "")
  }

  predicate Expired(c: Core, o: Obs) {
    Sub(c.epoch, o.start) >= OBSERVER_BUDGET
  }

  /** The store and the observers agree: each holds exactly what the other says it holds, and a slot
      no observer holds has no readers. */
  predicate Agree(c: Core, o: Obs) {
    && c.Shape() && o.Shape()
    && o.pending == Readers(o.vgaSlot < 2, o.uartSlot < 2)
    && (forall i :: 0 <= i < 2 ==> c.slot[i].readers == Readers(o.vgaSlot == i, o.uartSlot == i))
    && (o.vgaSlot < 2 && o.uartSlot < 2 ==> o.vgaSlot == o.uartSlot)
    && (o.vgaSlot < 2 ==> |c.slot[o.vgaSlot].snapshot.ip| == IP_COUNT)
    && (o.uartSlot < 2 ==> |c.slot[o.uartSlot].snapshot.ip| == IP_COUNT)
  }

  // ---------------------------------------------------------------- the screen

  datatype Holding = Holding(core: Core, obs: Obs)

  /** soc_health_observers_vga_release */
  function VgaReleased(c: Core, o: Obs, completed: bool): (h: Holding)
    requires c.Shape() && o.Shape()
    ensures h.core.Shape() && h.obs.Shape() && h.obs.vgaSlot == NO_SLOT
  {
    if o.vgaSlot == NO_SLOT then Holding(c, o)
    else
      Holding(Released(c, o.vgaSlot, Vga, completed), o.(vgaSlot := NO_SLOT, pending := o.pending.Without(Vga)))
  }

  function Cleared(fb: Framebuffer, from: nat, to: nat): (f: Framebuffer)
    ensures forall w :: 0 <= w < WORDS ==> f[w] == if from <= w < to then 0 else fb[w]
  {
    seq(WORDS, w requires 0 <= w < WORDS => if from <= w < to then 0 else fb[w])
  }

  function Put(fb: Framebuffer, x: nat, y: nat, str: string): (f: Framebuffer)
    ensures forall w :: 0 <= w < WORDS ==> f[w] == PutsWord(fb[w], x, y, str, w)
  {
    seq(WORDS, w requires 0 <= w < WORDS => PutsWord(fb[w], x, y, str, w))
  }

  datatype Prepared = Prepared(core: Core, obs: Obs, fb: Framebuffer, result: int)

  /** Writing the next chunk of the current line, and going on to the next line after its end. */
  function ChunkWritten(c: Core, o: Obs, fb: Framebuffer, line: string): Prepared {
    var str := if o.vgaColumn < |line| then Screen.Chunk(line, o.vgaColumn) else "";
    var fb' := if o.vgaColumn < |line| then
                 Put(fb, Screen.TEXT_X + o.vgaColumn / 4, Screen.TEXT_Y + o.vgaLine * Screen.PITCH, str)
               else fb;
    var column := o.vgaColumn + |str|;
    var o' := if column >= |line| then o.(vgaColumn := 0, vgaLine := o.vgaLine + 1) else o.(vgaColumn := column);
    Prepared(c, o', fb', if o'.vgaLine == TEXT_LINES then 1 else 0)
  }

  /** soc_health_observers_vga_prepare: -1 without a lease, 0 for more to do, 1 when done. */
  function VgaPrepared(c: Core, o: Obs, fb: Framebuffer): (p: Prepared)
    requires c.Shape() && o.Shape() && (o.vgaSlot < 2 ==> |c.slot[o.vgaSlot].snapshot.ip| == IP_COUNT)
    ensures p.core.Shape() && p.obs.Shape()
  {
    if o.vgaSlot == NO_SLOT then Prepared(c, o, fb, -1)
    else if Expired(c, o) then
      var h := VgaReleased(c, o, false);
      Prepared(h.core, h.obs, fb, -1)
    else if o.clearWord < WORDS then
      var to := Least(o.clearWord + CLEAR_QUOTA, WORDS);
      Prepared(c, o.(clearWord := to), Cleared(fb, o.clearWord, to), 0)
    else if o.vgaLine == TEXT_LINES then Prepared(c, o, fb, 1)
    else ChunkWritten(c, o, fb, Line(c.slot[o.vgaSlot].snapshot, o.vgaLine))
  }

  /** How much of the text the framebuffer shows: the cleared part, then everything painted so far. */
  ghost predicate Drawn(text: Screen.Report, o: Obs, fb: Framebuffer) {
    if o.clearWord < WORDS then
      o.vgaLine == o.vgaColumn == 0 && forall w :: 0 <= w < o.clearWord ==> fb[w] == 0
    else
      && o.clearWord == WORDS && o.vgaLine <= TEXT_LINES && o.vgaColumn % 4 == 0
      && (o.vgaColumn > 0 ==> o.vgaLine < TEXT_LINES && o.vgaColumn < |text[o.vgaLine]|)
      && forall w :: 0 <= w < WORDS ==> fb[w] == Screen.Painted(text, o.vgaLine, o.vgaColumn, w)
  }

  /** All 9600 words show the complete picture. */
  ghost predicate Shows(text: Screen.Report, fb: Framebuffer) {
    forall w :: 0 <= w < WORDS ==> fb[w] == Screen.Picture(text, w)
  }

  /** The calls a line takes: one for every four characters, and one for an empty line. */
  function LineCalls(line: string): (n: nat)
    ensures n >= 1
  {
    if line == "" then 1 else (|line| + 3) / 4
  }

  function CallsFrom(text: Screen.Report, line: nat): (n: nat)
    requires line <= TEXT_LINES
    ensures n >= TEXT_LINES - line
    decreases TEXT_LINES - line
  {
    if line == TEXT_LINES then 0 else LineCalls(text[line]) + CallsFrom(text, line + 1)
  }

  /** How many more calls the rendering needs. */
  function CallsLeft(text: Screen.Report, o: Obs): int {
    if o.clearWord < WORDS then (WORDS - o.clearWord + CLEAR_QUOTA - 1) / CLEAR_QUOTA + CallsFrom(text, 0)
    else if o.vgaLine > TEXT_LINES then 0
    else CallsFrom(text, o.vgaLine) - o.vgaColumn / 4
  }

  lemma ClearStep(text: Screen.Report, c: Core, o: Obs, fb: Framebuffer)
    requires Agree(c, o) && o.vgaSlot < 2 && !Expired(c, o) && o.clearWord < WORDS && Drawn(text, o, fb)
    ensures var p := VgaPrepared(c, o, fb);
      && Drawn(text, p.obs, p.fb) && p.result == 0
      && CallsLeft(text, p.obs) == CallsLeft(text, o) - 1 > 0
  {
    hide Line, Expired, Screen.Painted, CallsFrom;
    var p := VgaPrepared(c, o, fb);
    if p.obs.clearWord == WORDS {
      forall w | 0 <= w < WORDS
        ensures p.fb[w] == Screen.Painted(text, 0, 0, w)
      {
        Screen.NothingPainted(text, w);
      }
    }
  }

  lemma LineStep(text: Screen.Report, c: Core, o: Obs, fb: Framebuffer)
    requires Drawn(text, o, fb) && o.clearWord == WORDS && o.vgaLine < TEXT_LINES
    ensures var p := ChunkWritten(c, o, fb, text[o.vgaLine]);
      && Drawn(text, p.obs, p.fb) && p.result == (if p.obs.vgaLine == TEXT_LINES then 1 else 0)
      && CallsLeft(text, p.obs) == CallsLeft(text, o) - 1
  {
    hide Screen.Painted, PutsWord;
    var line := text[o.vgaLine];
    var p := ChunkWritten(c, o, fb, line);
    forall w | 0 <= w < WORDS
      ensures p.fb[w] == Screen.Painted(text, p.obs.vgaLine, p.obs.vgaColumn, w)
    {
      if o.vgaColumn < |line| {
        Screen.ChunkPainted(text, o.vgaLine, o.vgaColumn, w);
      }
      Screen.LineDone(text, o.vgaLine, w);
    }
  }

  /** One call of the renderer: it gives up exactly when the budget has run out, and otherwise gets
      exactly one call closer to the complete picture; it reports 1 exactly when nothing is left, and
      then every word of the screen is right. */
  lemma PrepareStep(c: Core, o: Obs, fb: Framebuffer)
    requires Agree(c, o) && o.vgaSlot < 2
    requires Drawn(Lines(c.slot[o.vgaSlot].snapshot), o, fb)
    ensures var p, text := VgaPrepared(c, o, fb), Lines(c.slot[o.vgaSlot].snapshot);
      if Expired(c, o) then
        p.result == -1 && p.fb == fb && Holding(p.core, p.obs) == VgaReleased(c, o, false)
      else
        && p.core == c && p.obs.vgaSlot == o.vgaSlot && p.obs.start == o.start
        && Drawn(text, p.obs, p.fb)
        && CallsLeft(text, p.obs) == (if CallsLeft(text, o) > 0 then CallsLeft(text, o) - 1 else 0)
        && p.result == (if CallsLeft(text, p.obs) == 0 then 1 else 0)
        && (p.result == 1 ==> p.obs.clearWord == WORDS && p.obs.vgaLine == TEXT_LINES && Shows(text, p.fb))
  {
    hide Expired, Line, Screen.Painted, Drawn, ChunkWritten;
    var s := c.slot[o.vgaSlot].snapshot;
    var text, p := Lines(s), VgaPrepared(c, o, fb);
    if !Expired(c, o) {
      DrawnBounds(text, o, fb);
      if o.clearWord < WORDS {
        ClearStep(text, c, o, fb);
      } else if o.vgaLine < TEXT_LINES {
        LineStep(text, c, o, fb);
        assert p == ChunkWritten(c, o, fb, text[o.vgaLine]);
        ChunkKeeps(c, o, fb, text[o.vgaLine]);
      }
      DrawnBounds(text, p.obs, p.fb);
    }
  }

  lemma ChunkKeeps(c: Core, o: Obs, fb: Framebuffer, line: string)
    ensures var p := ChunkWritten(c, o, fb, line);
      p.core == c && p.obs.vgaSlot == o.vgaSlot && p.obs.start == o.start && p.obs.clearWord == o.clearWord
  {
  }

  lemma DrawnBounds(text: Screen.Report, o: Obs, fb: Framebuffer)
    requires Drawn(text, o, fb)
    ensures o.clearWord <= WORDS && o.vgaLine <= TEXT_LINES
    ensures CallsLeft(text, o) >= 0
    ensures CallsLeft(text, o) == 0 <==> o.vgaLine == TEXT_LINES
    ensures o.vgaLine == TEXT_LINES ==> o.clearWord == WORDS && Shows(text, fb)
  {
    hide Screen.Painted;
    if o.clearWord == WORDS && o.vgaLine < TEXT_LINES {
      assert o.vgaColumn / 4 < LineCalls(text[o.vgaLine]);
    }
  }

  /** From the beginning of a rendering at most 1371 calls are needed: 1200 to clear the screen and at
      most nine for each line. */
  lemma CallsBounded(s: Snapshot, o: Obs)
    requires |s.ip| == IP_COUNT && o.clearWord == o.vgaLine == o.vgaColumn == 0
    ensures 1219 <= CallsLeft(Lines(s), o) <= 1371
  {
    hide Line;
    CallsFromBounded(Lines(s), 0);
  }

  lemma {:induction false} CallsFromBounded(text: Screen.Report, line: nat)
    requires line <= TEXT_LINES && forall n :: 0 <= n < TEXT_LINES ==> |text[n]| <= 35
    ensures CallsFrom(text, line) <= 9 * (TEXT_LINES - line)
    decreases TEXT_LINES - line
  {
    if line < TEXT_LINES {
      CallsFromBounded(text, line + 1);
    }
  }

  // ---------------------------------------------------------------- the serial line

  datatype Uarted = Uarted(core: Core, obs: Obs, sent: string)

  function UartReleased(c: Core, o: Obs, completed: bool): (u: Uarted)
    requires c.Shape() && o.Shape()
    ensures u.core.Shape() && u.obs.Shape()
  {
    Uarted(Released(c, o.uartSlot, Uart, completed), o.(uartSlot := NO_SLOT, pending := o.pending.Without(Uart)), "")
  }

  /** The piece of text that the stage and line counters stand for. */
  function StageText(s: Snapshot, o: Obs): (t: string)
    requires |s.ip| == IP_COUNT
    ensures 2 <= |t| < LINE_SIZE
  {
    (if o.uartStage == 0 then HEADER else if o.uartStage == 2 then SEPARATOR else Line(s, o.uartLine)) + CRLF
  }

  /** The buffer before a character is sent: filled with the next piece if it was used up. */
  function Filled(s: Snapshot, o: Obs): (o': Obs)
    requires |s.ip| == IP_COUNT && o.Shape()
    ensures o.uartLength > 0 ==> o' == o
    ensures o.uartLength == 0 ==> o'.uartColumn == 0
    ensures o'.Shape() && o'.uartLength > 0
    ensures o' == o.(uartBuffer := o'.uartBuffer, uartLength := o'.uartLength, uartColumn := o'.uartColumn)
  {
    if o.uartLength == 0 then o.(uartBuffer := StageText(s, o), uartLength := |StageText(s, o)|, uartColumn := 0) else o
  }

  /** The counters after a character has been sent. */
  function Advanced(o: Obs): (o': Obs)
    requires o.Shape()
    ensures o'.Shape()
  {
    var o1 := o.(uartColumn := o.uartColumn + 1);
    if o1.uartColumn != o1.uartLength then o1
    else if o.uartStage == 0 then o1.(uartLength := 0, uartBuffer := "", uartStage := 1)
    else if o.uartStage == 2 then o1.(uartLength := 0, uartBuffer := "", uartStage := 3)
    else if o.uartLine + 1 == TEXT_LINES then
      o1.(uartLength := 0, uartBuffer := "", uartLine := TEXT_LINES, uartStage := 2)
    else o1.(uartLength := 0, uartBuffer := "", uartLine := o.uartLine + 1)
  }

  /** soc_health_observers_uart_service, where ready is the transmitter's answer in this turn. */
  function UartServed(c: Core, o: Obs, ready: bool): (u: Uarted)
    requires c.Shape() && o.Shape()
    requires o.uartSlot < 2 ==>
      |c.slot[o.uartSlot].snapshot.ip| == IP_COUNT && (o.uartLength > 0 ==> o.uartColumn < o.uartLength)
    ensures u.core.Shape() && u.obs.Shape()
    ensures |u.sent| <= 1
  {
    if o.uartSlot == NO_SLOT then Uarted(c, o, "")
    else if Expired(c, o) then UartReleased(c, o, false)
    else if o.uartStage == 3 then if ready then UartReleased(c, o, true) else Uarted(c, o, "")
    else
      var f := Filled(c.slot[o.uartSlot].snapshot, o);
      if !ready then Uarted(c, f, "") else Uarted(c, Advanced(f), [f.uartBuffer[f.uartColumn]])
  }

  /** Which piece of the report is being sent. */
  function PieceIndex(o: Obs): nat {
    if o.uartStage == 0 then 0
    else if o.uartStage == 1 then 1 + o.uartLine
    else if o.uartStage == 2 then PIECES - 1
    else PIECES
  }

  /** What has gone out since the snapshot was published: whole pieces, and the beginning of the one
      in the buffer. */
  ghost predicate Sent(s: Snapshot, o: Obs, sent: string)
    requires |s.ip| == IP_COUNT && o.Shape()
  {
    && o.uartStage <= 3 && (o.uartStage == 0 ==> o.uartLine == 0) && (o.uartStage == 1 ==> o.uartLine < TEXT_LINES)
    && (o.uartStage == 3 ==> o.uartLength == 0)
    && (o.uartLength == 0 ==> sent == Pieces(s, PieceIndex(o)))
    && (o.uartLength > 0 ==>
          && o.uartBuffer == Piece(s, PieceIndex(o)) && o.uartColumn < o.uartLength
          && sent == Pieces(s, PieceIndex(o)) + Piece(s, PieceIndex(o))[..o.uartColumn])
  }

  lemma {:induction false} PiecesGrow(s: Snapshot, k: nat, n: nat)
    requires |s.ip| == IP_COUNT && k <= n
    ensures Pieces(s, k) <= Pieces(s, n)
  {
    hide Piece;
    if k < n {
      PiecesGrow(s, k, n - 1);
      assert Pieces(s, n - 1) <= Pieces(s, n);
    }
  }

  /** However slow the transmitter, what is out is always a beginning of the report. */
  lemma SentIsPrefix(s: Snapshot, o: Obs, sent: string)
    requires |s.ip| == IP_COUNT && o.Shape() && Sent(s, o, sent)
    ensures sent <= ReportText(s)
  {
    hide Piece;
    var k := PieceIndex(o);
    if o.uartLength == 0 {
      PiecesGrow(s, k, PIECES);
    } else {
      assert Pieces(s, k + 1) == Pieces(s, k) + Piece(s, k);
      assert sent <= Pieces(s, k + 1);
      PiecesGrow(s, k + 1, PIECES);
    }
  }

  lemma StageTextIsPiece(s: Snapshot, o: Obs)
    requires |s.ip| == IP_COUNT && o.uartStage < 3
    requires (o.uartStage == 0 ==> o.uartLine == 0) && (o.uartStage == 1 ==> o.uartLine < TEXT_LINES)
    ensures StageText(s, o) == Piece(s, PieceIndex(o))
  {
    hide Line;
  }

  lemma FilledSent(s: Snapshot, o: Obs, sent: string)
    requires |s.ip| == IP_COUNT && o.Shape() && Sent(s, o, sent) && o.uartStage < 3
    ensures Sent(s, Filled(s, o), sent)
  {
    hide Piece, StageText;
    StageTextIsPiece(s, o);
  }

  lemma AdvancedSent(s: Snapshot, o: Obs, sent: string)
    requires |s.ip| == IP_COUNT && o.Shape() && Sent(s, o, sent) && o.uartLength > 0
    ensures Sent(s, Advanced(o), sent + [o.uartBuffer[o.uartColumn]])
  {
    hide Piece;
    var k, x := PieceIndex(o), o.uartColumn;
    var p := Piece(s, k);
    assert p[..x + 1] == p[..x] + [p[x]];
    if x + 1 == o.uartLength {
      assert p[..x + 1] == p;
      assert PieceIndex(Advanced(o)) == k + 1;
      assert Pieces(s, k + 1) == Pieces(s, k) + p;
    }
  }

  /** One turn of the serial observer sends at most one character, always the next one of the report;
      the lease ends as missed exactly when the budget has run out, and as completed only when the
      whole report is out.  Each turn with a ready transmitter sends one or ends the lease. */
  lemma UartStep(c: Core, o: Obs, ready: bool, sent: string)
    requires Agree(c, o) && o.uartSlot < 2 && Sent(c.slot[o.uartSlot].snapshot, o, sent)
    ensures var u, s := UartServed(c, o, ready), c.slot[o.uartSlot].snapshot;
      if Expired(c, o) then u == UartReleased(c, o, false)
      else if u.obs.uartSlot == NO_SLOT then u == UartReleased(c, o, true) && sent == ReportText(s)
      else
        && u.core == c && u.obs.uartSlot == o.uartSlot && Sent(s, u.obs, sent + u.sent)
        && |u.sent| == (if ready then 1 else 0)
  {
    hide Expired, Piece, StageText, Filled, Advanced, Pieces;
    var s := c.slot[o.uartSlot].snapshot;
    if !Expired(c, o) && o.uartStage < 3 {
      FilledSent(s, o, sent);
      var f := Filled(s, o);
      AdvancedSent(s, f, sent);
      AdvancedKeeps(f);
      assert sent + "" == sent;
    }
  }

  lemma AdvancedKeeps(o: Obs)
    requires o.Shape()
    ensures var a := Advanced(o);
      a == o.(uartStage := a.uartStage, uartLine := a.uartLine, uartColumn := a.uartColumn, uartLength := a.uartLength,
              uartBuffer := a.uartBuffer)
  {
  }
}
