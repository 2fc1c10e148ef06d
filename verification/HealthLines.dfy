/** The lines of text read back: what stands in which columns. */
module HealthLines {
  import opened Words
  import opened Health
  import opened HealthText

  // ---------------------------------------------------------------- hexadecimal numerals

  function DigitValue(c: char): bv32 {
    match c
    case '0' => 0 case '1' => 1 case '2' => 2 case '3' => 3 case '4' => 4 case '5' => 5 case '6' => 6 case '7' => 7
    case '8' => 8 case '9' => 9 case 'A' => 10 case 'B' => 11 case 'C' => 12 case 'D' => 13 case 'E' => 14
    case _ => 15
  }

  function Then(w: bv32, digit: bv32): bv32 {
    (w << 4) | digit
  }

  /** Reading digits on from a word. */
  function ReadOn(w: bv32, s: string): bv32
    decreases |s|
  {
    if s == "" then w else ReadOn(Then(w, DigitValue(s[0])), s[1..])
  }

  /** The value of a string of hexadecimal digits. */
  function ValueOf(s: string): bv32 {
    ReadOn(0, s)
  }

  lemma DigitRead(w: bv32)
    ensures DigitValue(HexDigit(w)) == w & 15
  {
  }

  lemma NibbleBack(w: bv32)
    ensures Then(w >> 4, w & 15) == w
  {
  }

  /** The digits of a word continue what stands before them. */
  lemma {:induction false} DigitsRead(w: bv32, n: nat)
    ensures ReadOn(ShiftNibbles(w, n), Hex(w, n)) == w
  {
    hide HexDigit, DigitValue, Then;
    if n > 0 {
      var x := ShiftNibbles(w, n - 1);
      DigitRead(x);
      NibbleBack(x);
      DigitsRead(w, n - 1);
      assert Hex(w, n)[1..] == Hex(w, n - 1);
    }
  }

  function Down(w: bv32): bv32 {
    w >> 4
  }

  lemma ShiftOnce(w: bv32, n: nat)
    ensures ShiftNibbles(w, n + 1) == Down(ShiftNibbles(w, n)) && ShiftNibbles(w, 0) == w
  {
  }

  lemma Shifts(w: bv32)
    ensures ShiftNibbles(w, 0) == w && ShiftNibbles(w, 1) == Down(w) && ShiftNibbles(w, 2) == Down(Down(w))
    ensures ShiftNibbles(w, 3) == Down(Down(Down(w))) && ShiftNibbles(w, 4) == Down(Down(Down(Down(w))))
    ensures ShiftNibbles(w, 8) == Down(Down(Down(Down(Down(Down(Down(Down(w))))))))
  {
    hide ShiftNibbles, Down;
    ShiftOnce(w, 0);
    ShiftOnce(w, 1);
    ShiftOnce(w, 2);
    ShiftOnce(w, 3);
    ShiftOnce(w, 4);
    ShiftOnce(w, 5);
    ShiftOnce(w, 6);
    ShiftOnce(w, 7);
  }

  lemma AllShiftedOut(w: bv32)
    ensures Down(Down(Down(Down(Down(Down(Down(Down(w)))))))) == 0
  {
  }

  lemma SmallShiftedOut(w: bv32)
    ensures w < 0x10 ==> Down(w) == 0
    ensures w < 0x1000 ==> Down(Down(Down(w))) == 0
    ensures w < 0x1_0000 ==> Down(Down(Down(Down(w)))) == 0
  {
  }

  /** Eight digits give the word. */
  lemma WordRead(w: bv32)
    ensures ValueOf(Hex(w, 8)) == w
  {
    hide Hex, ShiftNibbles, ReadOn, Down;
    DigitsRead(w, 8);
    Shifts(w);
    AllShiftedOut(w);
  }

  lemma SmallRead(w: bv32, n: nat)
    requires (n == 1 && w < 0x10) || (n == 3 && w < 0x1000) || (n == 4 && w < 0x1_0000)
    ensures ValueOf(Hex(w, n)) == w
  {
    hide Hex, ShiftNibbles, ReadOn, Down;
    DigitsRead(w, n);
    Shifts(w);
    SmallShiftedOut(w);
  }

  /** Four digits give the low half of the word. */
  lemma HalfRead(w: bv32)
    ensures ValueOf(Hex(w, 4)) == And(w, 0xffff) < 0x1_0000
  {
    hide Hex, ValueOf;
    LowHalfDigits(w);
    LowHalf(w);
    SmallRead(And(w, 0xffff), 4);
  }

  lemma LowHalf(w: bv32)
    ensures And(w, 0xffff) < 0x1_0000
    ensures And(w, 0xffff) & 15 == w & 15 && Down(And(w, 0xffff)) & 15 == Down(w) & 15
    ensures Down(Down(And(w, 0xffff))) & 15 == Down(Down(w)) & 15
    ensures Down(Down(Down(And(w, 0xffff)))) & 15 == Down(Down(Down(w))) & 15
  {
  }

  lemma FourHex(w: bv32)
    ensures Hex(w, 4) == [HexDigit(ShiftNibbles(w, 3)), HexDigit(ShiftNibbles(w, 2)), HexDigit(ShiftNibbles(w, 1)),
      HexDigit(ShiftNibbles(w, 0))]
  {
    hide HexDigit, ShiftNibbles;
    assert Hex(w, 1) == [HexDigit(ShiftNibbles(w, 0))];
    assert Hex(w, 2) == [HexDigit(ShiftNibbles(w, 1))] + Hex(w, 1);
    assert Hex(w, 3) == [HexDigit(ShiftNibbles(w, 2))] + Hex(w, 2);
  }

  lemma LowHalfDigits(w: bv32)
    ensures Hex(w, 4) == Hex(And(w, 0xffff), 4)
  {
    hide Hex, HexDigit, ShiftNibbles, Down;
    var v := And(w, 0xffff);
    FourHex(w);
    FourHex(v);
    Shifts(w);
    Shifts(v);
    LowHalf(w);
    DigitOfLow(w, v);
    DigitOfLow(Down(w), Down(v));
    DigitOfLow(Down(Down(w)), Down(Down(v)));
    DigitOfLow(Down(Down(Down(w))), Down(Down(Down(v))));
  }

  lemma DigitOfLow(w: bv32, v: bv32)
    requires w & 15 == v & 15
    ensures HexDigit(w) == HexDigit(v)
  {
  }

  // ---------------------------------------------------------------- the lines

  /** A caption at column k, and the word in the eight columns after it. */
  predicate Shows(t: string, k: nat, caption: string, w: bv32) {
    && k + |caption| + 8 <= |t|
    && t[k..k + |caption|] == caption && ValueOf(t[k + |caption|..k + |caption| + 8]) == w
  }

  lemma FieldShows(before: string, caption: string, w: bv32, after: string)
    ensures Shows(before + caption + Hex(w, 8) + after, |before|, caption, w)
  {
    hide Hex, ValueOf;
    var t, k := before + caption + Hex(w, 8) + after, |before|;
    assert t[k..k + |caption|] == caption && t[k + |caption|..k + |caption| + 8] == Hex(w, 8);
    WordRead(w);
  }

  lemma EpochLineReads(s: Snapshot)
    requires |s.ip| == IP_COUNT
    ensures var t := Line(s, 0);
      |t| == 35 && Shows(t, 0, "SOC HEALTH EP=", Bits(s.epoch)) && Shows(t, 22, " SIG=", Bits(s.signature))
  {
    hide Hex, Bits, Shows;
    var e, g := Hex(Bits(s.epoch), 8), Hex(Bits(s.signature), 8);
    FieldShows("", "SOC HEALTH EP=", Bits(s.epoch), " SIG=" + g);
    FieldShows("SOC HEALTH EP=" + e, " SIG=", Bits(s.signature), "");
    assert "" + "SOC HEALTH EP=" + e + (" SIG=" + g) == Line(s, 0) == "SOC HEALTH EP=" + e + " SIG=" + g + "";
  }

  lemma MaskLineReads(s: Snapshot)
    requires |s.ip| == IP_COUNT
    ensures var t := Line(s, 1);
      |t| == 32 && Shows(t, 0, "P=", s.passMask) && Shows(t, 10, " W=", s.warnMask) && Shows(t, 21, " F=", s.failMask)
  {
    hide Hex, Shows;
    var p, w, f := Hex(s.passMask, 8), Hex(s.warnMask, 8), Hex(s.failMask, 8);
    FieldShows("", "P=", s.passMask, " W=" + w + (" F=" + f));
    FieldShows("P=" + p, " W=", s.warnMask, " F=" + f);
    FieldShows("P=" + p + " W=" + w, " F=", s.failMask, "");
    assert "" + "P=" + p + (" W=" + w + (" F=" + f)) == Line(s, 1);
    assert "P=" + p + " W=" + w + " F=" + f + "" == Line(s, 1);
  }

  lemma StickyLineReads(s: Snapshot)
    requires |s.ip| == IP_COUNT
    ensures var t := Line(s, 2);
      |t| == 21 && Shows(t, 0, "S=", s.stickyFailMask) && Shows(t, 10, " X=", s.excludedMask)
  {
    hide Hex, Shows;
    var a, x := Hex(s.stickyFailMask, 8), Hex(s.excludedMask, 8);
    FieldShows("", "S=", s.stickyFailMask, " X=" + x);
    FieldShows("S=" + a, " X=", s.excludedMask, "");
    assert "" + "S=" + a + (" X=" + x) == Line(s, 2) == "S=" + a + " X=" + x + "";
  }

  /** The last line says PASS exactly if the failure mask is empty, and otherwise shows it and the sticky one. */
  lemma VerdictLineReads(s: Snapshot)
    requires |s.ip| == IP_COUNT
    ensures var t := Line(s, 18);
      && (t == "SYSTEM: PASS" <==> s.failMask == 0)
      && (s.failMask != 0 ==>
            |t| == 34 && Shows(t, 0, "SYSTEM: FAIL F=", s.failMask) && Shows(t, 23, " S=", s.stickyFailMask))
  {
    hide Hex, Shows;
    var f, a := Hex(s.failMask, 8), Hex(s.stickyFailMask, 8);
    if s.failMask != 0 {
      FieldShows("", "SYSTEM: FAIL F=", s.failMask, " S=" + a);
      FieldShows("SYSTEM: FAIL F=" + f, " S=", s.stickyFailMask, "");
      assert "SYSTEM: " + "FAIL F=" == "SYSTEM: FAIL F=";
      assert "" + "SYSTEM: FAIL F=" + f + (" S=" + a) == Line(s, 18);
      assert "SYSTEM: FAIL F=" + f + " S=" + a + "" == Line(s, 18);
    } else {
      assert "SYSTEM: " + "PASS" == "SYSTEM: PASS";
    }
  }

  // ---------------------------------------------------------------- the line of a record

  const NAMES: seq<string> :=
    ["SYS   ", "TMR   ", "UART  ", "GPIO  ", "GSEN  ", "ADC   ",
     "JOY   ", "VGA   ", "SW    ", "LED   ", "HEX   ", "AES   "]

  /** The state stands in column 6 as one letter, which no other state has. */
  predicate Letter(c: char, st: HbState) {
    && (c == 'P' <==> st == Pass) && (c == 'W' <==> st == Warn) && (c == 'F' <==> st == Fail)
    && (c == 'X' <==> st == Excluded) && (c == '?' <==> st == Unknown)
  }

  /** What stands from column 23 on. */
  predicate DetailReads(d: string, id: nat, h: IpHealth) {
    if id == AES_GCM then d == "PENDING"
    else if h.state != Pass then |d| == 10 && Shows(d, 0, "D=", h.detail)
    else if id == 2 || id == 4 || id == 5 then |d| == 12 && Shows(d, 0, "SEQ=", h.detail)
    else if id == SW || id == LED then |d| == 5 && d[..2] == "V=" && ValueOf(d[2..5]) == And(h.detail, 0x3ff)
    else if id == HEX then
      && |d| == 9 && d[..2] == "M=" && (ValueOf(d[2..3]) == 1 <==> And(h.detail, 0x200) != 0) && d[2] in "01"
      && d[3..6] == " P=" && ValueOf(d[6..9]) == And(h.detail, 0x1ff)
    else if id == SYSTEM_SERVICE then d == "RUN"
    else if id == 1 then d == "READY"
    else if id == GPIO then d == "LOOP"
    else if id == 6 then d == "MATCH"
    else d == "SWAP"
  }

  predicate RecordReads(t: string, id: nat, h: IpHealth)
    requires id < IP_COUNT
  {
    && 23 <= |t| <= 35 && t[..6] == NAMES[id] && Letter(t[6], h.state) && t[7..9] == "  "
    && ValueOf(t[9..17]) == Bits(h.heartbeats) && t[17] == ' '
    && ValueOf(t[18..22]) == And(Bits(h.misses), 0xffff) && t[22] == ' '
    && DetailReads(t[23..], id, h)
  }

  lemma SwitchBits(x: bv32)
    ensures x & 0x3ff == And(x, 0x3ff) < 0x1000 && x & 0x1ff == And(x, 0x1ff) < 0x1000
    ensures (x >> 9) & 1 < 0x10 && ((x >> 9) & 1 == 1 <==> And(x, 0x200) != 0)
    ensures (x >> 9) & 1 == 0 || (x >> 9) & 1 == 1
  {
  }

  lemma ModeDigit(b: bv32)
    requires b == 0 || b == 1
    ensures Hex(b, 1)[0] in "01"
  {
  }

  lemma HexDetailReads(x: bv32)
    ensures var d := HexDetail(x);
      && |d| == 9 && d[..2] == "M=" && (ValueOf(d[2..3]) == 1 <==> And(x, 0x200) != 0) && d[2] in "01"
      && d[3..6] == " P=" && ValueOf(d[6..9]) == And(x, 0x1ff)
  {
    hide Hex, ValueOf;
    var m, p := (x >> 9) & 1, x & 0x1ff;
    SwitchBits(x);
    ModeDigit(m);
    SmallRead(m, 1);
    SmallRead(p, 3);
    var d := HexDetail(x);
    assert d[2..3] == Hex(m, 1) && d[6..9] == Hex(p, 3);
  }

  lemma WordDetail(caption: string, w: bv32)
    ensures Shows(caption + Hex(w, 8), 0, caption, w)
  {
    hide Hex, Shows;
    FieldShows("", caption, w, "");
    assert "" + caption + Hex(w, 8) + "" == caption + Hex(w, 8);
  }

  lemma SwitchDetail(w: bv32)
    ensures var d := "V=" + Hex(w & 0x3ff, 3); d[..2] == "V=" && ValueOf(d[2..5]) == And(w, 0x3ff)
  {
    hide Hex, ValueOf;
    var v := w & 0x3ff;
    SwitchBits(w);
    SmallRead(v, 3);
    assert ("V=" + Hex(v, 3))[2..5] == Hex(v, 3);
  }

  lemma DetailIsRead(id: nat, h: IpHealth)
    requires id < IP_COUNT
    ensures DetailReads(Detail(id, h), id, h)
  {
    hide Hex, ValueOf, HexDetail, Shows, And;
    WordDetail("D=", h.detail);
    WordDetail("SEQ=", h.detail);
    SwitchDetail(h.detail);
    HexDetailReads(h.detail);
  }

  lemma NameIs(id: nat)
    requires id < IP_COUNT
    ensures Name(id) == NAMES[id]
  {
  }

  /** The line of a record: its name, its state, its heartbeats, the low half of its misses, and its detail as far
      as one is shown. */
  lemma RecordLineReads(s: Snapshot, id: nat)
    requires |s.ip| == IP_COUNT && id < IP_COUNT
    ensures RecordReads(Line(s, 5 + id), id, s.ip[id])
  {
    hide Hex, ValueOf, Detail, DetailReads, Name, Bits, And;
    var h := s.ip[id];
    var t, d := Line(s, 5 + id), Detail(id, h);
    var b, m := Hex(Bits(h.heartbeats), 8), Hex(Bits(h.misses), 4);
    NameIs(id);
    assert t == Name(id) + [StateChar(h.state)] + "  " + b + " " + m + " " + d;
    assert t[9..17] == b && t[18..22] == m && t[23..] == d && t[7..9] == "  " && t[..6] == Name(id);
    WordRead(Bits(h.heartbeats));
    HalfRead(Bits(h.misses));
    DetailIsRead(id, h);
  }

  // ---------------------------------------------------------------- the whole report

  /** Lines one after the other, each ended. */
  function AllEnded(lines: seq<string>): string {
    if lines == [] then "" else AllEnded(lines[..|lines| - 1]) + lines[|lines| - 1] + "\r\n"
  }

  lemma {:induction false} PiecesAreLines(s: Snapshot, n: nat)
    requires |s.ip| == IP_COUNT && n <= TEXT_LINES
    ensures Pieces(s, n + 1) == HEADER + CRLF + AllEnded(Lines(s)[..n])
  {
    hide Line, Lines;
    if n == 0 {
      assert Pieces(s, 0) == "" && Piece(s, 0) == HEADER + CRLF;
    } else {
      PiecesAreLines(s, n - 1);
      assert Lines(s)[..n][..n - 1] == Lines(s)[..n - 1];
      assert Piece(s, n) == Line(s, n - 1) + CRLF;
    }
  }

  /** The report on the wire: a header, the nineteen lines in order and a rule, each ended by CR LF. */
  lemma ReportIs(s: Snapshot)
    requires |s.ip| == IP_COUNT
    ensures ReportText(s) ==
      "=== SOC HEALTH SNAPSHOT ===\r\n" + AllEnded(Lines(s)) + "----------------------------------------\r\n"
  {
    hide Line, Lines;
    PiecesAreLines(s, TEXT_LINES);
    assert Lines(s)[..TEXT_LINES] == Lines(s);
    assert Piece(s, 20) == SEPARATOR + CRLF;
    assert Pieces(s, 21) == Pieces(s, 20) + Piece(s, 20);
  }

  // ---------------------------------------------------------------- what the text tells

  lemma MaskEmpty(mask: bv32, id: nat)
    requires id < IP_COUNT
    ensures WithBit(mask, id) != 0
  {
  }

  lemma {:induction false} NoneFailing(ip: seq<IpHealth>, n: nat)
    requires n <= |ip| == IP_COUNT
    ensures StateMask(ip, Fail, n) == 0 <==> forall i :: 0 <= i < n ==> ip[i].state != Fail
  {
    hide WithBit;
    if n > 0 {
      NoneFailing(ip, n - 1);
      MaskEmpty(StateMask(ip, Fail, n - 1), n - 1);
    }
  }

  /** The report of a snapshot just taken says PASS exactly if no record is failing. */
  lemma VerdictOfTaken(c: Core)
    requires c.Shape()
    ensures Line(Taken(c), 18) == "SYSTEM: PASS" <==> forall i :: 0 <= i < IP_COUNT ==> c.ip[i].state != Fail
  {
    hide Line, StateMask, Signature;
    VerdictLineReads(Taken(c));
    NoneFailing(c.ip, IP_COUNT);
  }

  /** Snapshots with the same text agree in epoch, signature, masks, states, heartbeats and the low halves of the
      misses. */
  lemma TextTells(s: Snapshot, t: Snapshot)
    requires |s.ip| == |t.ip| == IP_COUNT && Lines(s) == Lines(t)
    ensures s.epoch == t.epoch && s.signature == t.signature
    ensures s.passMask == t.passMask && s.warnMask == t.warnMask && s.failMask == t.failMask
    ensures s.excludedMask == t.excludedMask && s.stickyFailMask == t.stickyFailMask
    ensures forall i :: 0 <= i < IP_COUNT ==>
      && s.ip[i].state == t.ip[i].state && s.ip[i].heartbeats == t.ip[i].heartbeats
      && And(Bits(s.ip[i].misses), 0xffff) == And(Bits(t.ip[i].misses), 0xffff)
  {
    hide Line, ValueOf, Bits, And, DetailReads;
    assert Lines(s)[0] == Lines(t)[0] && Lines(s)[1] == Lines(t)[1] && Lines(s)[2] == Lines(t)[2];
    EpochLineReads(s);
    EpochLineReads(t);
    MaskLineReads(s);
    MaskLineReads(t);
    StickyLineReads(s);
    StickyLineReads(t);
    BitsInjective(s.epoch, t.epoch);
    BitsInjective(s.signature, t.signature);
    forall i | 0 <= i < IP_COUNT
      ensures s.ip[i].state == t.ip[i].state && s.ip[i].heartbeats == t.ip[i].heartbeats
      ensures And(Bits(s.ip[i].misses), 0xffff) == And(Bits(t.ip[i].misses), 0xffff)
    {
      assert Lines(s)[5 + i] == Lines(t)[5 + i];
      RecordLineReads(s, i);
      RecordLineReads(t, i);
      BitsInjective(s.ip[i].heartbeats, t.ip[i].heartbeats);
    }
  }
}
