/** The nineteen lines of text that present a snapshot, and the bounded buffer they are written
    through. */
module HealthText {
  import opened Words
  import opened Health
  import opened Wrappers

  const TEXT_LINES: nat := 19
  const LINE_SIZE: nat := 48

  // ---------------------------------------------------------------- what the lines say

  function ShiftNibbles(value: bv32, n: nat): bv32 {
    if n == 0 then value else ShiftNibbles(value, n - 1) >> 4
  }

  function HexDigit(nibble: bv32): (c: char)
    ensures c != '\0'
  {
    "0123456789ABCDEF"[(nibble & 15) as nat]
  }

  /** The low digits of a word in hexadecimal, most significant first. */
  function Hex(value: bv32, digits: nat): (s: string)
    ensures |s| == digits
  {
    if digits == 0 then "" else [HexDigit(ShiftNibbles(value, digits - 1))] + Hex(value, digits - 1)
  }

  function Name(id: nat): (s: string)
    requires id < IP_COUNT
    ensures |s| == 6
  {
    match id
    case 0 => "SYS   " case 1 => "TMR   " case 2 => "UART  " case 3 => "GPIO  "
    case 4 => "GSEN  " case 5 => "ADC   " case 6 => "JOY   " case 7 => "VGA   "
    case 8 => "SW    " case 9 => "LED   " case 10 => "HEX   " case 11 => "AES   "
  }

  function StateChar(st: HbState): char {
    match st
    case Unknown => '?'
    case Pass => 'P'
    case Warn => 'W'
    case Fail => 'F'
    case Excluded => 'X'
  }

  /** What a passing record without a number says. */
  function Verdict(id: nat): (s: string)
    ensures |s| <= 5
  {
    match id
    case 0 => "RUN"
    case 1 => "READY"
    case 3 => "LOOP"
    case 6 => "MATCH"
    case _ => "SWAP"
  }

  function HexDetail(detail: bv32): (s: string)
    ensures |s| == 9
  {
    "M=" + Hex((detail >> 9) & 1, 1) + (" P=" + Hex(detail & 0x1ff, 3))
  }

  function Detail(id: nat, h: IpHealth): (s: string)
    requires id < IP_COUNT
    ensures |s| <= 12
  {
    if id == AES_GCM then "PENDING"
    else if h.state != Pass then "D=" + Hex(h.detail, 8)
    else if id == 2 || id == 4 || id == 5 then "SEQ=" + Hex(h.detail, 8)
    else if id == SW || id == LED then "V=" + Hex(h.detail & 0x3ff, 3)
    else if id == HEX then HexDetail(h.detail)
    else Verdict(id)
  }

  function IpLine(id: nat, h: IpHealth): (s: string)
    requires id < IP_COUNT
    ensures |s| <= 35
  {
    Name(id) + [StateChar(h.state)] + "  " + Hex(Bits(h.heartbeats), 8) + " " + Hex(Bits(h.misses), 4) + " " +
      Detail(id, h)
  }

  function EpochLine(s: Snapshot): (t: string)
    ensures |t| == 35
  {
    "SOC HEALTH EP=" + Hex(Bits(s.epoch), 8) + " SIG=" + Hex(Bits(s.signature), 8)
  }

  function MaskLine(s: Snapshot): (t: string)
    ensures |t| == 32
  {
    "P=" + Hex(s.passMask, 8) + " W=" + Hex(s.warnMask, 8) + (" F=" + Hex(s.failMask, 8))
  }

  function StickyLine(s: Snapshot): (t: string)
    ensures |t| == 21
  {
    "S=" + Hex(s.stickyFailMask, 8) + " X=" + Hex(s.excludedMask, 8)
  }

  function VerdictLine(s: Snapshot): (t: string)
    ensures |t| <= 34
  {
    "SYSTEM: " + if s.failMask != 0 then "FAIL F=" + Hex(s.failMask, 8) + " S=" + Hex(s.stickyFailMask, 8) else "PASS"
  }

  /** Line n of a snapshot; lines 3 and 17 and all lines from 19 on are empty. */
  function Line(s: Snapshot, n: nat): (t: string)
    requires |s.ip| == IP_COUNT
    ensures |t| <= 35
  {
    if n == 0 then EpochLine(s)
    else if n == 1 then MaskLine(s)
    else if n == 2 then StickyLine(s)
    else if n == 4 then "IP    ST HB       MISS DETAIL"
    else if 5 <= n < 17 then IpLine(n - 5, s.ip[n - 5])
    else if n == 18 then VerdictLine(s)
    else ""
  }

  function Lines(s: Snapshot): (t: seq<string>)
    requires |s.ip| == IP_COUNT
    ensures |t| == TEXT_LINES && forall n :: 0 <= n < TEXT_LINES ==> t[n] == Line(s, n)
  {
    seq(TEXT_LINES, n requires 0 <= n => Line(s, n))
  }

  predicate Plain(s: string) {
    '\0' !in s
  }

  lemma Joined(a: string, b: string)
    requires Plain(a) && Plain(b)
    ensures Plain(a + b)
  {
  }

  lemma {:induction false} HexPlain(value: bv32, digits: nat)
    ensures Plain(Hex(value, digits))
  {
    if digits > 0 {
      HexPlain(value, digits - 1);
    }
  }

  /** A label and a word. */
  lemma FieldPlain(a: string, value: bv32, digits: nat)
    requires Plain(a)
    ensures Plain(a + Hex(value, digits))
  {
    HexPlain(value, digits);
    Joined(a, Hex(value, digits));
  }

  lemma TwoFieldsPlain(a: string, x: bv32, b: string, y: bv32)
    requires Plain(a) && Plain(b)
    ensures Plain(a + Hex(x, 8) + b + Hex(y, 8))
  {
    hide Plain, Hex;
    FieldPlain(a, x, 8);
    Joined(a + Hex(x, 8), b);
    FieldPlain(a + Hex(x, 8) + b, y, 8);
  }

  /** No line contains a NUL, so a terminated copy of one is read back whole. */
  lemma LinePlain(s: Snapshot, n: nat)
    requires |s.ip| == IP_COUNT
    ensures Plain(Line(s, n))
  {
    hide Hex, IpLine;
    if n == 0 {
      TwoFieldsPlain("SOC HEALTH EP=", Bits(s.epoch), " SIG=", Bits(s.signature));
    } else if n == 1 {
      TwoFieldsPlain("P=", s.passMask, " W=", s.warnMask);
      FieldPlain(" F=", s.failMask, 8);
      Joined("P=" + Hex(s.passMask, 8) + " W=" + Hex(s.warnMask, 8), " F=" + Hex(s.failMask, 8));
    } else if n == 2 {
      TwoFieldsPlain("S=", s.stickyFailMask, " X=", s.excludedMask);
    } else if 5 <= n < 17 {
      IpLinePlain(n - 5, s.ip[n - 5]);
    } else if n == 18 {
      TwoFieldsPlain("FAIL F=", s.failMask, " S=", s.stickyFailMask);
      Joined("SYSTEM: ", "FAIL F=" + Hex(s.failMask, 8) + " S=" + Hex(s.stickyFailMask, 8));
    }
  }

  lemma IpLinePlain(id: nat, h: IpHealth)
    requires id < IP_COUNT
    ensures Plain(IpLine(id, h))
  {
    hide Hex, Detail, Bits, Name, StateChar, Plain;
    var a := Name(id) + [StateChar(h.state)] + "  ";
    var b := a + Hex(Bits(h.heartbeats), 8) + " ";
    HeadPlain(id, h.state);
    FieldPlain(a, Bits(h.heartbeats), 8);
    Joined(a + Hex(Bits(h.heartbeats), 8), " ");
    FieldPlain(b, Bits(h.misses), 4);
    Joined(b + Hex(Bits(h.misses), 4), " ");
    DetailPlain(id, h);
    Joined(b + Hex(Bits(h.misses), 4) + " ", Detail(id, h));
  }

  lemma HeadPlain(id: nat, st: HbState)
    requires id < IP_COUNT
    ensures Plain(Name(id) + [StateChar(st)] + "  ")
  {
    hide StateChar;
    assert Plain([StateChar(st)]) by {
      StatePlain(st);
    }
    Joined(Name(id), [StateChar(st)]);
    Joined(Name(id) + [StateChar(st)], "  ");
  }

  lemma StatePlain(st: HbState)
    ensures StateChar(st) != '\0'
  {
  }

  lemma DetailPlain(id: nat, h: IpHealth)
    requires id < IP_COUNT
    ensures Plain(Detail(id, h))
  {
    hide Hex;
    FieldPlain("D=", h.detail, 8);
    FieldPlain("SEQ=", h.detail, 8);
    FieldPlain("V=", h.detail & 0x3ff, 3);
    FieldPlain("M=", (h.detail >> 9) & 1, 1);
    FieldPlain(" P=", h.detail & 0x1ff, 3);
    Joined("M=" + Hex((h.detail >> 9) & 1, 1), " P=" + Hex(h.detail & 0x1ff, 3));
  }

  // ---------------------------------------------------------------- the whole report on the wire

  const CRLF: string := "\r\n"
  const HEADER: string := "=== SOC HEALTH SNAPSHOT ==="
  const SEPARATOR: string := "----------------------------------------"
  const PIECES: nat := 21

  /** Piece k of the report: the header, the nineteen lines and the separator, each with CRLF. */
  function Piece(s: Snapshot, k: nat): (t: string)
    requires |s.ip| == IP_COUNT
    ensures 2 <= |t| < LINE_SIZE
  {
    (if k == 0 then HEADER else if k <= TEXT_LINES then Line(s, k - 1) else SEPARATOR) + CRLF
  }

  /** The first k pieces, and the report as a whole. */
  function Pieces(s: Snapshot, k: nat): string
    requires |s.ip| == IP_COUNT
  {
    if k == 0 then "" else Pieces(s, k - 1) + Piece(s, k - 1)
  }

  function ReportText(s: Snapshot): string
    requires |s.ip| == IP_COUNT
  {
    Pieces(s, PIECES)
  }

  // ---------------------------------------------------------------- the bounded buffer

  /** text_t: characters beyond size - 1 are counted but not stored. */
  class Text {
    const buffer: array<char>
    const size: nat
    var length: nat
    ghost var content: string

    ghost predicate Valid()
      reads this, buffer
    {
      && size <= buffer.Length
      && length == |content|
      && forall i :: 0 <= i < length && i + 1 < size ==> buffer[i] == content[i]
    }

    constructor (buffer: array<char>, size: nat)
      requires size <= buffer.Length
      ensures Valid() && content == "" && this.buffer == buffer && this.size == size
    {
      this.buffer, this.size, length, content := buffer, size, 0, "";
    }

    /** A buffer that already holds a text. */
    constructor At(buffer: array<char>, size: nat, length: nat, ghost content: string)
      requires size <= buffer.Length && length == |content|
      requires forall i :: 0 <= i < length && i + 1 < size ==> buffer[i] == content[i]
      ensures Valid() && this.content == content && this.buffer == buffer && this.size == size
    {
      this.buffer, this.size, this.length, this.content := buffer, size, length, content;
    }

    method Character(c: char)
      requires Valid()
      modifies this, buffer
      ensures Valid() && content == old(content) + [c]
      ensures forall i :: size <= i < buffer.Length ==> buffer[i] == old(buffer[i])
    {
      if size != 0 && length < size - 1 {
        buffer[length] := c;
      }
      length := length + 1;
      content := content + [c];
    }

    method String(s: string)
      requires Valid()
      modifies this, buffer
      ensures Valid() && content == old(content) + s
    {
      for i := 0 to |s|
        invariant Valid() && content == old(content) + s[..i]
      {
        Character(s[i]);
        assert s[..i + 1] == s[..i] + [s[i]];
      }
      assert s[..|s|] == s;
    }

    method Number(value: bv32, digits: nat)
      requires Valid()
      modifies this, buffer
      ensures Valid() && content == old(content) + Hex(value, digits)
    {
      hide HexDigit, ShiftNibbles;
      var d := digits;
      while d > 0
        invariant Valid() && 0 <= d <= digits
        invariant content + Hex(value, d) == old(content) + Hex(value, digits)
      {
        d := d - 1;
        Character(HexDigit(ShiftNibbles(value, d)));
      }
    }
  }

  /** A label and the word it introduces. */
  method Field(t: Text, caption: string, value: bv32, digits: nat)
    requires t.Valid()
    modifies t, t.buffer
    ensures t.Valid() && t.content == old(t.content) + (caption + Hex(value, digits))
  {
    hide Hex;
    t.String(caption);
    t.Number(value, digits);
    assert old(t.content) + caption + Hex(value, digits) == old(t.content) + (caption + Hex(value, digits));
  }

  method TwoFields(t: Text, a: string, x: bv32, b: string, y: bv32)
    requires t.Valid()
    modifies t, t.buffer
    ensures t.Valid() && t.content == old(t.content) + (a + Hex(x, 8) + b + Hex(y, 8))
  {
    hide Hex;
    Field(t, a, x, 8);
    Field(t, b, y, 8);
    assert old(t.content) + (a + Hex(x, 8)) + (b + Hex(y, 8)) == old(t.content) + (a + Hex(x, 8) + b + Hex(y, 8));
  }

  /** soc_health_format_line: the logical line, cut to the buffer and always terminated, and its
      uncut length.  A missing snapshot gives an empty line. */
  method FormatLine(s: Option<Snapshot>, line: nat, buffer: array<char>, size: nat) returns (length: nat)
    requires size <= buffer.Length && (s.Some? ==> |s.value.ip| == IP_COUNT)
    modifies buffer
    ensures var text := if s.Some? then Line(s.value, line) else "";
      && length == |text|
      && (forall i :: 0 <= i < length && i + 1 < size ==> buffer[i] == text[i])
      && (size > 0 ==> buffer[if length < size then length else size - 1] == '\0')
  {
    var t := new Text(buffer, size);
    if s.Some? {
      WriteLine(s.value, line, t);
    }
    if size > 0 {
      buffer[if t.length < size then t.length else size - 1] := '\0';
    }
    length := t.length;
  }

  method WriteLine(s: Snapshot, line: nat, t: Text)
    requires |s.ip| == IP_COUNT && t.Valid() && t.content == ""
    modifies t, t.buffer
    ensures t.Valid() && t.content == Line(s, line)
  {
    hide IpLine, EpochLine, MaskLine, StickyLine, VerdictLine;
    if line == 0 {
      WriteEpochLine(s, t);
    } else if line == 1 {
      WriteMaskLine(s, t);
    } else if line == 2 {
      WriteStickyLine(s, t);
    } else if line == 4 {
      t.String("IP    ST HB       MISS DETAIL");
    } else if 5 <= line < 17 {
      WriteIpLine(line - 5, s.ip[line - 5], t);
    } else if line == 18 {
      WriteVerdictLine(s, t);
    }
  }

  method WriteEpochLine(s: Snapshot, t: Text)
    requires t.Valid() && t.content == ""
    modifies t, t.buffer
    ensures t.Valid() && t.content == EpochLine(s)
  {
    hide Hex, Bits;
    TwoFields(t, "SOC HEALTH EP=", Bits(s.epoch), " SIG=", Bits(s.signature));
  }

  method WriteMaskLine(s: Snapshot, t: Text)
    requires t.Valid() && t.content == ""
    modifies t, t.buffer
    ensures t.Valid() && t.content == MaskLine(s)
  {
    hide Hex;
    TwoFields(t, "P=", s.passMask, " W=", s.warnMask);
    Field(t, " F=", s.failMask, 8);
  }

  method WriteStickyLine(s: Snapshot, t: Text)
    requires t.Valid() && t.content == ""
    modifies t, t.buffer
    ensures t.Valid() && t.content == StickyLine(s)
  {
    hide Hex;
    TwoFields(t, "S=", s.stickyFailMask, " X=", s.excludedMask);
  }

  method WriteVerdictLine(s: Snapshot, t: Text)
    requires t.Valid() && t.content == ""
    modifies t, t.buffer
    ensures t.Valid() && t.content == VerdictLine(s)
  {
    hide Hex;
    t.String("SYSTEM: ");
    if s.failMask != 0 {
      TwoFields(t, "FAIL F=", s.failMask, " S=", s.stickyFailMask);
    } else {
      t.String("PASS");
    }
  }

  method WriteIpLine(id: nat, h: IpHealth, t: Text)
    requires id < IP_COUNT && t.Valid() && t.content == ""
    modifies t, t.buffer
    ensures t.Valid() && t.content == IpLine(id, h)
  {
    hide Hex, Name, StateChar, Bits, Detail;
    t.String(Name(id));
    t.Character(StateChar(h.state));
    t.String("  ");
    t.Number(Bits(h.heartbeats), 8);
    t.Character(' ');
    t.Number(Bits(h.misses), 4);
    t.Character(' ');
    WriteDetail(id, h, t);
  }

  method WriteDetail(id: nat, h: IpHealth, t: Text)
    requires id < IP_COUNT && t.Valid()
    modifies t, t.buffer
    ensures t.Valid() && t.content == old(t.content) + Detail(id, h)
  {
    hide Hex, Verdict, HexDetail;
    if id == AES_GCM {
      t.String("PENDING");
    } else if h.state != Pass {
      Field(t, "D=", h.detail, 8);
    } else if id == 2 || id == 4 || id == 5 {
      Field(t, "SEQ=", h.detail, 8);
    } else if id == SW || id == LED {
      Field(t, "V=", h.detail & 0x3ff, 3);
    } else if id == HEX {
      WriteHexDetail(h.detail, t);
    } else {
      t.String(Verdict(id));
    }
  }

  method WriteHexDetail(detail: bv32, t: Text)
    requires t.Valid()
    modifies t, t.buffer
    ensures t.Valid() && t.content == old(t.content) + HexDetail(detail)
  {
    hide Hex;
    Field(t, "M=", (detail >> 9) & 1, 1);
    Field(t, " P=", detail & 0x1ff, 3);
    var m, p := "M=" + Hex((detail >> 9) & 1, 1), " P=" + Hex(detail & 0x1ff, 3);
    assert old(t.content) + m + p == old(t.content) + (m + p);
  }
}
