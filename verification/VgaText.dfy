/** Text on the 640x480 one-bit framebuffer: 20 words of 32 pixels to a row, bit 0 leftmost. */
module VgaText {
  import opened ByteValues
  import opened Words

  const ROW_WORDS: nat := 20
  const ROWS: nat := 480
  const WORDS: nat := 9600

  /** font8x8: eight rows of eight pixels, the leftmost pixel in the highest bit. */
  function Glyph(idx: nat): (rows: seq<Byte>)
    ensures |rows| == 8
  {
    match idx
    case 0 => [0x00, 0x00, 0x00, 0x00, 0x00, 0x00, 0x00, 0x00]
    case 1 => [0x18, 0x3c, 0x3c, 0x18, 0x18, 0x00, 0x18, 0x00]
    case 2 => [0x66, 0x66, 0x24, 0x00, 0x00, 0x00, 0x00, 0x00]
    case 3 => [0x6c, 0x6c, 0xfe, 0x6c, 0xfe, 0x6c, 0x6c, 0x00]
    case 4 => [0x18, 0x3e, 0x60, 0x3c, 0x06, 0x7c, 0x18, 0x00]
    case 5 => [0x00, 0x66, 0x6c, 0x18, 0x30, 0x66, 0x00, 0x00]
    case 6 => [0x38, 0x6c, 0x68, 0x76, 0x6c, 0xcc, 0x76, 0x00]
    case 7 => [0x18, 0x18, 0x30, 0x00, 0x00, 0x00, 0x00, 0x00]
    case 8 => [0x0c, 0x18, 0x30, 0x30, 0x30, 0x18, 0x0c, 0x00]
    case 9 => [0x30, 0x18, 0x0c, 0x0c, 0x0c, 0x18, 0x30, 0x00]
    case 10 => [0x00, 0x18, 0x7e, 0x3c, 0x7e, 0x18, 0x00, 0x00]
    case 11 => [0x00, 0x18, 0x18, 0x7e, 0x18, 0x18, 0x00, 0x00]
    case 12 => [0x00, 0x00, 0x00, 0x00, 0x00, 0x18, 0x18, 0x30]
    case 13 => [0x00, 0x00, 0x00, 0x7e, 0x00, 0x00, 0x00, 0x00]
    case 14 => [0x00, 0x00, 0x00, 0x00, 0x00, 0x18, 0x18, 0x00]
    case 15 => [0x00, 0x06, 0x0c, 0x18, 0x30, 0x60, 0x00, 0x00]
    case 16 => [0x3c, 0x66, 0x6e, 0x76, 0x66, 0x66, 0x3c, 0x00]
    case 17 => [0x18, 0x38, 0x18, 0x18, 0x18, 0x18, 0x7e, 0x00]
    case 18 => [0x3c, 0x66, 0x06, 0x0c, 0x30, 0x60, 0x7e, 0x00]
    case 19 => [0x3c, 0x66, 0x06, 0x1c, 0x06, 0x66, 0x3c, 0x00]
    case 20 => [0x0c, 0x1c, 0x3c, 0x6c, 0x7e, 0x0c, 0x0c, 0x00]
    case 21 => [0x7e, 0x60, 0x7c, 0x06, 0x06, 0x66, 0x3c, 0x00]
    case 22 => [0x3c, 0x60, 0x7c, 0x66, 0x66, 0x66, 0x3c, 0x00]
    case 23 => [0x7e, 0x06, 0x0c, 0x18, 0x30, 0x30, 0x30, 0x00]
    case 24 => [0x3c, 0x66, 0x66, 0x3c, 0x66, 0x66, 0x3c, 0x00]
    case 25 => [0x3c, 0x66, 0x66, 0x66, 0x3e, 0x06, 0x3c, 0x00]
    case 26 => [0x00, 0x18, 0x18, 0x00, 0x00, 0x18, 0x18, 0x00]
    case 27 => [0x00, 0x18, 0x18, 0x00, 0x00, 0x18, 0x18, 0x30]
    case 28 => [0x06, 0x0c, 0x18, 0x30, 0x18, 0x0c, 0x06, 0x00]
    case 29 => [0x00, 0x00, 0x7e, 0x00, 0x7e, 0x00, 0x00, 0x00]
    case 30 => [0x60, 0x30, 0x18, 0x0c, 0x18, 0x30, 0x60, 0x00]
    case 31 => [0x3c, 0x66, 0x06, 0x0c, 0x18, 0x00, 0x18, 0x00]
    case 32 => [0x3c, 0x66, 0x6e, 0x6e, 0x60, 0x3e, 0x00, 0x00]
    case 33 => [0x3c, 0x66, 0x66, 0x7e, 0x66, 0x66, 0x66, 0x00]
    case 34 => [0x7c, 0x66, 0x66, 0x7c, 0x66, 0x66, 0x7c, 0x00]
    case 35 => [0x3c, 0x66, 0x60, 0x60, 0x60, 0x66, 0x3c, 0x00]
    case 36 => [0x78, 0x6c, 0x66, 0x66, 0x66, 0x6c, 0x78, 0x00]
    case 37 => [0x7e, 0x60, 0x60, 0x7c, 0x60, 0x60, 0x7e, 0x00]
    case 38 => [0x7e, 0x60, 0x60, 0x7c, 0x60, 0x60, 0x60, 0x00]
    case 39 => [0x3c, 0x66, 0x60, 0x6e, 0x66, 0x66, 0x3e, 0x00]
    case 40 => [0x66, 0x66, 0x66, 0x7e, 0x66, 0x66, 0x66, 0x00]
    case 41 => [0x3c, 0x18, 0x18, 0x18, 0x18, 0x18, 0x3c, 0x00]
    case 42 => [0x06, 0x06, 0x06, 0x06, 0x06, 0x66, 0x3c, 0x00]
    case 43 => [0x66, 0x6c, 0x78, 0x70, 0x78, 0x6c, 0x66, 0x00]
    case 44 => [0x60, 0x60, 0x60, 0x60, 0x60, 0x60, 0x7e, 0x00]
    case 45 => [0x63, 0x77, 0x7f, 0x6b, 0x63, 0x63, 0x63, 0x00]
    case 46 => [0x66, 0x76, 0x7e, 0x7e, 0x6e, 0x66, 0x66, 0x00]
    case 47 => [0x3c, 0x66, 0x66, 0x66, 0x66, 0x66, 0x3c, 0x00]
    case 48 => [0x7c, 0x66, 0x66, 0x7c, 0x60, 0x60, 0x60, 0x00]
    case 49 => [0x3c, 0x66, 0x66, 0x66, 0x6a, 0x6c, 0x3a, 0x00]
    case 50 => [0x7c, 0x66, 0x66, 0x7c, 0x78, 0x6c, 0x66, 0x00]
    case 51 => [0x3c, 0x66, 0x60, 0x3c, 0x06, 0x66, 0x3c, 0x00]
    case 52 => [0x7e, 0x18, 0x18, 0x18, 0x18, 0x18, 0x18, 0x00]
    case 53 => [0x66, 0x66, 0x66, 0x66, 0x66, 0x66, 0x3c, 0x00]
    case 54 => [0x66, 0x66, 0x66, 0x66, 0x66, 0x3c, 0x18, 0x00]
    case 55 => [0x63, 0x63, 0x63, 0x6b, 0x7f, 0x77, 0x63, 0x00]
    case 56 => [0x66, 0x66, 0x3c, 0x18, 0x3c, 0x66, 0x66, 0x00]
    case 57 => [0x66, 0x66, 0x66, 0x3c, 0x18, 0x18, 0x18, 0x00]
    case _ => [0x7e, 0x06, 0x0c, 0x18, 0x30, 0x60, 0x7e, 0x00]
  }

  /** Only the characters from space to Z have a glyph; all others are shown as a space. */
  function GlyphIndex(c: char): nat {
    if ' ' <= c <= 'Z' then c as nat - 32 else 0
  }

  function GlyphRow(c: char, dy: nat): Byte
    requires dy < 8
  {
    Glyph(GlyphIndex(c))[dy]
  }

  /** Character i of a string, spaces beyond its end. */
  function CharAt(str: string, i: nat): char {
    if i < |str| then str[i] else ' '
  }

  // ---------------------------------------------------------------- words of pixels

  /** reverse_bits */
  function ReverseBits(b: Byte): Byte {
    var b1 := ((b & 0xf0) >> 4) | ((b & 0x0f) << 4);
    var b2 := ((b1 & 0xcc) >> 2) | ((b1 & 0x33) << 2);
    ((b2 & 0xaa) >> 1) | ((b2 & 0x55) << 1)
  }

  /** A byte shifted left by 8 * j places. */
  function Placed(b: Byte, j: nat): bv32
    requires j < 4
  {
    match j
    case 0 => b as bv32
    case 1 => (b as bv32) << 8
    case 2 => (b as bv32) << 16
    case 3 => (b as bv32) << 24
  }

  function Pack(b0: Byte, b1: Byte, b2: Byte, b3: Byte): bv32 {
    Placed(b0, 0) | Placed(b1, 1) | Placed(b2, 2) | Placed(b3, 3)
  }

  /** Row dy of the four characters of a string from place i on. */
  function RowWord(str: string, i: nat, dy: nat): bv32
    requires dy < 8
  {
    Pack(ReverseBits(GlyphRow(CharAt(str, i), dy)), ReverseBits(GlyphRow(CharAt(str, i + 1), dy)),
         ReverseBits(GlyphRow(CharAt(str, i + 2), dy)), ReverseBits(GlyphRow(CharAt(str, i + 3), dy)))
  }

  /** Bit k of a byte, lowest first. */
  function ByteMask(k: nat): Byte
    requires k < 8
  {
    match k
    case 0 => 0x01 case 1 => 0x02 case 2 => 0x04 case 3 => 0x08
    case 4 => 0x10 case 5 => 0x20 case 6 => 0x40 case 7 => 0x80
  }

  predicate ByteBit(b: Byte, k: nat)
    requires k < 8
  {
    b & ByteMask(k) != 0
  }

  /** Byte j of a word, lowest first. */
  function ByteOfWord(w: bv32, j: nat): Byte
    requires j < 4
  {
    match j
    case 0 => (w & 0xff) as Byte
    case 1 => ((w >> 8) & 0xff) as Byte
    case 2 => ((w >> 16) & 0xff) as Byte
    case 3 => ((w >> 24) & 0xff) as Byte
  }

  /** Whether the pixel b places right of a word's leftmost pixel is on. */
  predicate WordPixel(w: bv32, b: nat)
    requires b < 32
  {
    ByteBit(ByteOfWord(w, b / 8), b % 8)
  }

  lemma Unpack(b0: Byte, b1: Byte, b2: Byte, b3: Byte)
    ensures ByteOfWord(Pack(b0, b1, b2, b3), 0) == b0
    ensures ByteOfWord(Pack(b0, b1, b2, b3), 1) == b1
    ensures ByteOfWord(Pack(b0, b1, b2, b3), 2) == b2
    ensures ByteOfWord(Pack(b0, b1, b2, b3), 3) == b3
  {
  }

  lemma Mirrored(b: Byte, k: nat)
    requires k < 8
    ensures ByteBit(ReverseBits(b), k) == ByteBit(b, 7 - k)
  {
    match k {
      case 0 => case 1 => case 2 => case 3 => case 4 => case 5 => case 6 => case 7 =>
    }
  }

  /** The pixel of character c at column k of row dy of its cell. */
  predicate GlyphPixel(c: char, k: nat, dy: nat)
    requires k < 8 && dy < 8
  {
    ByteBit(GlyphRow(c, dy), 7 - k)
  }

  lemma RowWordPixels(str: string, i: nat, dy: nat, b: nat)
    requires dy < 8 && b < 32
    ensures WordPixel(RowWord(str, i, dy), b) == GlyphPixel(CharAt(str, i + b / 8), b % 8, dy)
  {
    hide Pack, ReverseBits, GlyphRow, ByteOfWord, ByteBit, CharAt;
    var r0, r1 := GlyphRow(CharAt(str, i), dy), GlyphRow(CharAt(str, i + 1), dy);
    var r2, r3 := GlyphRow(CharAt(str, i + 2), dy), GlyphRow(CharAt(str, i + 3), dy);
    Unpack(ReverseBits(r0), ReverseBits(r1), ReverseBits(r2), ReverseBits(r3));
    Mirrored(r0, b % 8);
    Mirrored(r1, b % 8);
    Mirrored(r2, b % 8);
    Mirrored(r3, b % 8);
    var j := b / 8;
    assert j == 0 || j == 1 || j == 2 || j == 3;
  }

  lemma SpaceIsDark(k: nat, dy: nat)
    requires k < 8 && dy < 8
    ensures !GlyphPixel(' ', k, dy)
  {
    assert Glyph(0)[dy] == 0;
  }

  lemma ZeroIsDark(b: nat)
    requires b < 32
    ensures !WordPixel(0, b)
  {
  }

  // ---------------------------------------------------------------- writing a string

  /** The word at place w after str is written at word x of row y: eight rows of each group of four
      characters, as far as the screen goes. */
  function PutsWord(before: bv32, x: nat, y: nat, str: string, w: nat): bv32
    requires w < WORDS
  {
    var dy, c := w / ROW_WORDS - y, w % ROW_WORDS - x;
    if 0 <= dy < 8 && 0 <= c && 4 * c < |str| then RowWord(str, 4 * c, dy) else before
  }

  lemma Place(py: nat, x: nat)
    requires x < ROW_WORDS
    ensures (py * ROW_WORDS + x) / ROW_WORDS == py && (py * ROW_WORDS + x) % ROW_WORDS == x
  {
  }

  /** One group of four characters: its eight rows, stopping at the bottom of the screen.  The row number
      wraps, but a row that could make it wrap is already past the bottom. */
  method PutGroup(fb: array<bv32>, x: nat, y: U32, str: string, i: nat)
    requires fb.Length == WORDS && x < ROW_WORDS
    modifies fb
    ensures forall w :: 0 <= w < WORDS ==>
      fb[w] ==
        if w % ROW_WORDS == x && 0 <= w / ROW_WORDS - y < 8 then RowWord(str, i, w / ROW_WORDS - y) else old(fb[w])
  {
    hide RowWord;
    for dy := 0 to 8
      invariant dy > 0 ==> y < ROWS
      invariant forall w :: 0 <= w < WORDS ==>
        fb[w] ==
          if w % ROW_WORDS == x && 0 <= w / ROW_WORDS - y < dy then RowWord(str, i, w / ROW_WORDS - y) else old(fb[w])
    {
      var py := Low32(y + dy);
      if py >= ROWS {
        break;
      }
      Place(py, x);
      fb[py * ROW_WORDS + x] := BuildRow(str, i, dy);
    }
  }

  method BuildRow(str: string, i: nat, dy: nat) returns (row: bv32)
    requires dy < 8
    ensures row == RowWord(str, i, dy)
  {
    hide ReverseBits, GlyphRow;
    row := 0;
    ghost var b := seq(4, j requires 0 <= j < 4 => ReverseBits(GlyphRow(CharAt(str, i + j), dy)));
    for j := 0 to 4
      invariant row == Partial(b, j)
    {
      row := row | Placed(ReverseBits(GlyphRow(CharAt(str, i + j), dy)), j);
      PartialNext(b, j);
    }
  }

  function Partial(b: seq<Byte>, j: nat): bv32
    requires |b| == 4 && j <= 4
  {
    Pack(if j > 0 then b[0] else 0, if j > 1 then b[1] else 0, if j > 2 then b[2] else 0, if j > 3 then b[3] else 0)
  }

  lemma PartialNext(b: seq<Byte>, j: nat)
    requires |b| == 4 && j < 4
    ensures Partial(b, j + 1) == Partial(b, j) | Placed(b[j], j)
  {
    match j {
      case 0 => case 1 => case 2 => case 3 =>
    }
  }

  /** A string in memory, up to its terminating NUL. */
  function CString(str: string): (s: string)
    requires '\0' in str
    ensures |s| < |str| && s == str[..|s|] && str[|s|] == '\0' && '\0' !in s
  {
    if str[0] == '\0' then "" else [str[0]] + CString(str[1..])
  }

  lemma {:induction false} CStringIs(str: string, n: nat)
    requires n < |str| && str[n] == '\0' && '\0' !in str[..n]
    ensures CString(str) == str[..n]
  {
    if n == 0 {
    } else {
      assert str[..n][0] == str[0];
      assert str[1..][..n - 1] == str[..n][1..];
      CStringIs(str[1..], n - 1);
    }
  }

  /** vga_text_puts */
  method Puts(fb: array<bv32>, x: U32, y: U32, str: string)
    requires fb.Length == WORDS && '\0' in str
    modifies fb
    ensures forall w :: 0 <= w < WORDS ==> fb[w] == PutsWord(old(fb[w]), x, y, CString(str), w)
  {
    hide CString;
    var len := 0;
    while str[len] != '\0'
      invariant len <= |CString(str)|
      decreases |CString(str)| - len
    {
      len := len + 1;
    }
    PutsAll(fb, x, y, str[..len]);
  }

  /** The part of vga_text_puts after the length is known. */
  method PutsAll(fb: array<bv32>, x: U32, y: U32, str: string)
    requires fb.Length == WORDS
    modifies fb
    ensures forall w :: 0 <= w < WORDS ==> fb[w] == PutsWord(old(fb[w]), x, y, str, w)
  {
    hide RowWord;
    var i, wx := 0, x;
    while i < |str|
      invariant i == 4 * (wx - x) && wx >= x
      invariant forall w :: 0 <= w < WORDS ==>
        fb[w] == if w % ROW_WORDS < wx then PutsWord(old(fb[w]), x, y, str, w) else old(fb[w])
    {
      if wx >= ROW_WORDS {
        break;
      }
      PutGroup(fb, wx, y, str, i);
      wx := wx + 1;
      i := i + 4;
    }
    forall w | 0 <= w < WORDS
      ensures fb[w] == PutsWord(old(fb[w]), x, y, str, w)
    {
      if w % ROW_WORDS >= wx {
        assert 4 * (w % ROW_WORDS - x) >= 4 * (wx - x);
      }
    }
  }
}
