/** What a report looks like on the screen, word by word and pixel by pixel. */
module Screen {
  import opened HealthText
  import opened VgaText

  const TEXT_X: nat := 1
  const TEXT_Y: nat := 16
  const PITCH: nat := 16

  type Report = t: seq<string> | |t| == TEXT_LINES witness seq(TEXT_LINES, i => "")

  /** The pixel at column px of screen row py: text line n stands 16 pixels below line n - 1, its
      characters 8 pixels apart from column 32 on, and all else is dark. */
  predicate Pixel(text: Report, px: nat, py: nat) {
    && py >= TEXT_Y && px >= 32
    && (py - TEXT_Y) / PITCH < TEXT_LINES && (py - TEXT_Y) % PITCH < 8
    && (px - 32) / 8 < |text[(py - TEXT_Y) / PITCH]|
    && GlyphPixel(text[(py - TEXT_Y) / PITCH][(px - 32) / 8], px % 8, (py - TEXT_Y) % PITCH)
  }

  /** Whether the group of four characters that word w shows has been written once the lines before
      `line` are done, and `column` characters of that one. */
  predicate Written(text: Report, line: nat, column: nat, w: nat) {
    var y, c := w / ROW_WORDS - TEXT_Y, w % ROW_WORDS - TEXT_X;
    && y >= 0 && c >= 0 && y % PITCH < 8 && y / PITCH < TEXT_LINES
    && 4 * c < |text[y / PITCH]|
    && (y / PITCH < line || (y / PITCH == line && 4 * c < column))
  }

  /** The word at place w when the report has been written that far onto a dark screen. */
  function Painted(text: Report, line: nat, column: nat, w: nat): bv32 {
    if Written(text, line, column, w) then
      RowWord(text[(w / ROW_WORDS - TEXT_Y) / PITCH], 4 * (w % ROW_WORDS - TEXT_X), (w / ROW_WORDS - TEXT_Y) % PITCH)
    else 0
  }

  /** The word at place w of the complete picture. */
  function Picture(text: Report, w: nat): bv32 {
    Painted(text, TEXT_LINES, 0, w)
  }

  /** Bit for bit, the words of the picture are the pixels of the report. */
  lemma PictureIsPixels(text: Report, w: nat, b: nat)
    requires w < WORDS && b < 32
    ensures WordPixel(Picture(text, w), b) == Pixel(text, 32 * (w % ROW_WORDS) + b, w / ROW_WORDS)
  {
    hide WordPixel, RowWord, GlyphPixel;
    var px, py := 32 * (w % ROW_WORDS) + b, w / ROW_WORDS;
    ZeroIsDark(b);
    if py >= TEXT_Y && px >= 32 && (py - TEXT_Y) / PITCH < TEXT_LINES && (py - TEXT_Y) % PITCH < 8 {
      var n, dy, c := (py - TEXT_Y) / PITCH, (py - TEXT_Y) % PITCH, w % ROW_WORDS - TEXT_X;
      assert (px - 32) / 8 == 4 * c + b / 8;
      if 4 * c < |text[n]| {
        RowWordPixels(text[n], 4 * c, dy, b);
        SpaceIsDark(b % 8, dy);
      }
    }
  }

  // ---------------------------------------------------------------- painting step by step

  /** The next group of at most four characters of a line. */
  function Chunk(s: string, column: nat): (c: string)
    requires column <= |s|
    ensures |c| == if |s| - column < 4 then |s| - column else 4
  {
    s[column..if |s| - column < 4 then |s| else column + 4]
  }

  lemma ChunkRow(s: string, column: nat, dy: nat)
    requires column < |s| && dy < 8
    ensures RowWord(Chunk(s, column), 0, dy) == RowWord(s, column, dy)
  {
    hide GlyphRow, Pack, ReverseBits;
    var c := Chunk(s, column);
    assert CharAt(c, 0) == CharAt(s, column);
    assert CharAt(c, 1) == CharAt(s, column + 1);
    assert CharAt(c, 2) == CharAt(s, column + 2);
    assert CharAt(c, 3) == CharAt(s, column + 3);
  }

  /** Writing one chunk where the firmware puts it paints exactly that chunk. */
  lemma ChunkPainted(text: Report, line: nat, column: nat, w: nat)
    requires line < TEXT_LINES && column < |text[line]| && column % 4 == 0 && w < WORDS
    ensures var c := Chunk(text[line], column);
      PutsWord(Painted(text, line, column, w), TEXT_X + column / 4, TEXT_Y + line * PITCH, c, w)
      == Painted(text, line, column + |c|, w)
  {
    hide RowWord;
    var c := Chunk(text[line], column);
    var dy, g := w / ROW_WORDS - (TEXT_Y + line * PITCH), w % ROW_WORDS - (TEXT_X + column / 4);
    if 0 <= dy < 8 && g == 0 {
      ChunkRow(text[line], column, dy);
    }
  }

  lemma LineDone(text: Report, line: nat, w: nat)
    requires line < TEXT_LINES
    ensures Painted(text, line, |text[line]|, w) == Painted(text, line + 1, 0, w)
  {
    hide RowWord;
  }

  lemma NothingPainted(text: Report, w: nat)
    ensures Painted(text, 0, 0, w) == 0
  {
    hide RowWord;
  }
}
