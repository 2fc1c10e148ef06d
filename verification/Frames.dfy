/** The serial frame format shared by the firmware and its Python peer:
    SOF, type, length, payload, checksum, EOF.

    `Encode` is the printer and `Step` the parser, one byte at a time; the two classes at the end
    are the firmware's parser and the Python parser, each proved to be `Step`. */
module Frames {
  import opened ByteValues
  import opened Wrappers

  const SOF: Byte := 0x7e
  const EOF: Byte := 0x0a
  const MAX_PAYLOAD: nat := 64

  datatype Frame = Frame(typ: Byte, payload: seq<Byte>)

  /** The running checksum: acc plus all the bytes, modulo 256. */
  function SumFrom(acc: Byte, s: seq<Byte>): Byte {
    if s == [] then acc else Add(SumFrom(acc, s[..|s| - 1]), s[|s| - 1])
  }

  function Checksum(typ: Byte, payload: seq<Byte>): Byte
    requires |payload| < 256
  {
    SumFrom(Add(typ, ByteOf(|payload|)), payload)
  }

  function Encode(f: Frame): (s: seq<Byte>)
    requires |f.payload| < 256
    ensures |s| == 5 + |f.payload|
  {
    [SOF, f.typ, ByteOf(|f.payload|)] + f.payload + [Checksum(f.typ, f.payload), EOF]
  }

  // ---------------------------------------------------------------- the parser

  datatype State =
    | Idle
    | WantType
    | WantLength(typ: Byte)
    | Collecting(typ: Byte, len: nat, payload: seq<Byte>)
    | WantChecksum(typ: Byte, payload: seq<Byte>)
    | WantEof(typ: Byte, payload: seq<Byte>)
  {
    /** What the parser can be in after some stream of bytes. */
    ghost predicate Valid() {
      match this
      case Collecting(_, len, payload) => |payload| < len <= MAX_PAYLOAD
      case WantChecksum(_, payload) => |payload| <= MAX_PAYLOAD
      case WantEof(_, payload) => |payload| <= MAX_PAYLOAD
      case _ => true
    }

    /** The bytes taken in since the SOF of the frame in progress. */
    ghost function Consumed(): seq<Byte>
      requires Valid()
    {
      match this
      case Idle => []
      case WantType => [SOF]
      case WantLength(typ) => [SOF, typ]
      case Collecting(typ, len, payload) => [SOF, typ, ByteOf(len)] + payload
      case WantChecksum(typ, payload) => [SOF, typ, ByteOf(|payload|)] + payload
      case WantEof(typ, payload) => [SOF, typ, ByteOf(|payload|)] + payload + [Checksum(typ, payload)]
    }

    /** How many bytes the frame in progress can still take. */
    ghost function Remaining(): nat
      requires Valid()
    {
      match this
      case Idle => 0
      case WantType => 68
      case WantLength(_) => 67
      case Collecting(_, len, payload) => len - |payload| + 2
      case WantChecksum(_, _) => 2
      case WantEof(_, _) => 1
    }
  }

  /** What one byte does: the next state, the frame it completes, and whether it makes the parser
      drop a frame in progress. */
  datatype Outcome = Outcome(state: State, frame: Option<Frame>, bad: bool)
  function Step(s: State, byte: Byte): (o: Outcome) {
    match s
    case Idle => Outcome(if byte == SOF then WantType else Idle, None, false)
    case WantType => Outcome(WantLength(byte), None, false)
    case WantLength(typ) =>
      if Val(byte) > MAX_PAYLOAD then Outcome(Idle, None, true)
      else if Val(byte) == 0 then Outcome(WantChecksum(typ, []), None, false)
      else Outcome(Collecting(typ, Val(byte), []), None, false)
    case Collecting(typ, len, payload) =>
      var more := payload + [byte];
      Outcome(if |more| >= len then WantChecksum(typ, more) else Collecting(typ, len, more), None, false)
    case WantChecksum(typ, payload) =>
      if |payload| < 256 && byte == Checksum(typ, payload) then Outcome(WantEof(typ, payload), None, false)
      else Outcome(Idle, None, true)
    case WantEof(typ, payload) =>
      if byte == EOF then Outcome(Idle, Some(Frame(typ, payload)), false) else Outcome(Idle, None, true)
  }

  /** Where a whole stream takes the parser. */
  function Run(s: State, stream: seq<Byte>): State {
    if stream == [] then s else Step(Run(s, stream[..|stream| - 1]), stream[|stream| - 1]).state
  }

  /** The frames a whole stream emits, in order. */
  function Emitted(s: State, stream: seq<Byte>): seq<Frame> {
    if stream == [] then []
    else
      var n := |stream| - 1;
      var before := Emitted(s, stream[..n]);
      match Step(Run(s, stream[..n]), stream[n]).frame
      case None => before
      case Some(f) => before + [f]
  }

  lemma StepValid(s: State, byte: Byte)
    requires s.Valid()
    ensures Step(s, byte).state.Valid()
    ensures Step(s, byte).state == Idle || Step(s, byte).state.Remaining() < s.Remaining() || s == Idle
  {
  }

  lemma {:induction false} RunValid(s: State, stream: seq<Byte>)
    requires s.Valid()
    ensures Run(s, stream).Valid()
  {
    if stream != [] {
      RunValid(s, stream[..|stream| - 1]);
      StepValid(Run(s, stream[..|stream| - 1]), stream[|stream| - 1]);
    }
  }

  lemma {:induction false} RunConcat(s: State, a: seq<Byte>, b: seq<Byte>)
    ensures Run(s, a + b) == Run(Run(s, a), b)
    ensures Emitted(s, a + b) == Emitted(s, a) + Emitted(Run(s, a), b)
  {
    hide Step;
    if b == [] {
      assert a + b == a;
    } else {
      var n := |b| - 1;
      assert (a + b)[..|a + b| - 1] == a + b[..n];
      RunConcat(s, a, b[..n]);
    }
  }

  // ---------------------------------------------------------------- the parser undoes the printer

  lemma RunOne(s: State, byte: Byte)
    ensures Run(s, [byte]) == Step(s, byte).state
    ensures Emitted(s, [byte]) == match Step(s, byte).frame case None => [] case Some(f) => [f]
  {
    hide Step;
    assert [byte][..0] == [];
  }

  /** Bytes other than SOF are skipped between frames. */
  lemma {:induction false} NoiseIsSkipped(noise: seq<Byte>)
    requires SOF !in noise
    ensures Run(Idle, noise) == Idle && Emitted(Idle, noise) == []
  {
    if noise != [] {
      NoiseIsSkipped(noise[..|noise| - 1]);
    }
  }

  lemma CollectOne(typ: Byte, len: nat, collected: seq<Byte>, byte: Byte)
    requires |collected| < len
    ensures Step(Collecting(typ, len, collected), byte) ==
      Outcome(if |collected| + 1 < len then Collecting(typ, len, collected + [byte])
              else WantChecksum(typ, collected + [byte]), None, false)
  {
  }

  lemma {:induction false} CollectPayload(typ: Byte, len: nat, payload: seq<Byte>, k: nat)
    requires 0 < len == |payload| && k <= len
    ensures Run(Collecting(typ, len, []), payload[..k]) ==
      if k < len then Collecting(typ, len, payload[..k]) else WantChecksum(typ, payload)
    ensures Emitted(Collecting(typ, len, []), payload[..k]) == []
  {
    hide Step;
    if k > 0 {
      CollectPayload(typ, len, payload, k - 1);
      CollectOne(typ, len, payload[..k - 1], payload[k - 1]);
      assert payload[..k][..k - 1] == payload[..k - 1];
      assert payload[..k - 1] + [payload[k - 1]] == payload[..k];
    }
    assert payload[..len] == payload;
  }

  lemma HeaderAndPayload(f: Frame)
    requires |f.payload| <= MAX_PAYLOAD
    ensures var s := [SOF, f.typ, ByteOf(|f.payload|)] + f.payload;
      Run(Idle, s) == WantChecksum(f.typ, f.payload) && Emitted(Idle, s) == []
  {
    hide Checksum, Run, Emitted;
    var len := |f.payload|;
    var header := [SOF] + [f.typ] + [ByteOf(len)];
    RunOne(Idle, SOF);
    RunOne(WantType, f.typ);
    RunOne(WantLength(f.typ), ByteOf(len));
    RunConcat(Idle, [SOF], [f.typ]);
    RunConcat(Idle, [SOF] + [f.typ], [ByteOf(len)]);
    assert [SOF, f.typ, ByteOf(len)] == header;
    RunConcat(Idle, header, f.payload);
    if len > 0 {
      CollectPayload(f.typ, len, f.payload, len);
      assert f.payload[..len] == f.payload;
    } else {
      assert header + f.payload == header;
    }
  }

  lemma ParsesItsPrint(f: Frame)
    requires |f.payload| <= MAX_PAYLOAD
    ensures Run(Idle, Encode(f)) == Idle && Emitted(Idle, Encode(f)) == [f]
  {
    hide Checksum;
    var s := [SOF, f.typ, ByteOf(|f.payload|)] + f.payload;
    var c := Checksum(f.typ, f.payload);
    HeaderAndPayload(f);
    RunOne(WantChecksum(f.typ, f.payload), c);
    RunOne(WantEof(f.typ, f.payload), EOF);
    RunConcat(Idle, s, [c]);
    RunConcat(Idle, s + [c], [EOF]);
    assert Encode(f) == s + [c] + [EOF];
  }

  /** A frame is parsed back exactly when its payload fits: one longer payload byte and the parser
      drops it at the length byte. */
  lemma RoundTripIffFits(f: Frame)
    requires |f.payload| < 256
    ensures Emitted(Idle, Encode(f)) == [f] <==> |f.payload| <= MAX_PAYLOAD
  {
    if |f.payload| <= MAX_PAYLOAD {
      ParsesItsPrint(f);
    } else {
      EmittedFits(Idle, Encode(f));
      assert f !in Emitted(Idle, Encode(f));
      assert f in [f];
    }
  }

  /** The shortest payload that is lost: 65 zeros. */
  lemma LongFrameIsLost(typ: Byte)
    ensures var f := Frame(typ, seq(65, i => 0)); Emitted(Idle, Encode(f)) != [f]
  {
    hide Emitted, Encode;
    RoundTripIffFits(Frame(typ, seq(65, i => 0)));
  }

  lemma {:induction false} EmittedFits(s: State, stream: seq<Byte>)
    requires s.Valid()
    ensures forall f :: f in Emitted(s, stream) ==> |f.payload| <= MAX_PAYLOAD
  {
    if stream != [] {
      EmittedFits(s, stream[..|stream| - 1]);
      RunValid(s, stream[..|stream| - 1]);
    }
  }

  /** Frames in a row, each after some noise. */
  function Transmission(frames: seq<Frame>, noise: seq<seq<Byte>>): (s: seq<Byte>)
    requires |frames| == |noise| && forall f :: f in frames ==> |f.payload| <= MAX_PAYLOAD
  {
    if frames == [] then []
    else
      var n := |frames| - 1;
      Transmission(frames[..n], noise[..n]) + noise[n] + Encode(frames[n])
  }

  /** Any list of frames, separated by any noise, comes out complete and in order. */
  lemma {:induction false} TransmissionIsParsed(frames: seq<Frame>, noise: seq<seq<Byte>>)
    requires |frames| == |noise| && forall f :: f in frames ==> |f.payload| <= MAX_PAYLOAD
    requires forall i :: 0 <= i < |noise| ==> SOF !in noise[i]
    ensures Emitted(Idle, Transmission(frames, noise)) == frames
    ensures Run(Idle, Transmission(frames, noise)) == Idle
  {
    hide Step, Encode, Run, Emitted;
    if frames == [] {
      EmptyRun(Idle);
    } else {
      var n := |frames| - 1;
      var t := Transmission(frames[..n], noise[..n]);
      TransmissionIsParsed(frames[..n], noise[..n]);
      NoiseIsSkipped(noise[n]);
      ParsesItsPrint(frames[n]);
      RunConcat(Idle, t, noise[n]);
      RunConcat(Idle, t + noise[n], Encode(frames[n]));
      assert frames == frames[..n] + [frames[n]];
    }
  }

  lemma EmptyRun(s: State)
    ensures Run(s, []) == s && Emitted(s, []) == []
  {
  }

  // ---------------------------------------------------------------- the printer undoes the parser

  ghost predicate EndsWith(s: seq<Byte>, tail: seq<Byte>) {
    |tail| <= |s| && s[|s| - |tail|..] == tail
  }

  lemma EndsWithMore(s: seq<Byte>, tail: seq<Byte>, byte: Byte)
    requires EndsWith(s, tail)
    ensures EndsWith(s + [byte], tail + [byte])
  {
  }

  /** A byte extends the frame in progress, completes it, or leaves the parser idle. */
  ghost predicate Extends(s: State, byte: Byte)
    requires s.Valid()
  {
    var o := Step(s, byte);
    && o.state.Valid()
    && (o.state == Idle || o.state.Consumed() == s.Consumed() + [byte])
    && (o.bad <==> s != Idle && o.state == Idle && o.frame == None)
    && (o.frame.Some? ==> |o.frame.value.payload| <= MAX_PAYLOAD && Encode(o.frame.value) == s.Consumed() + [byte])
  }

  lemma CollectingExtends(s: State, byte: Byte)
    requires s.Valid() && s.Collecting?
    ensures Extends(s, byte)
  {
    hide Checksum, ByteOf, Val, Encode;
    var header := [SOF, s.typ, ByteOf(s.len)];
    assert header + (s.payload + [byte]) == header + s.payload + [byte];
  }

  lemma LengthExtends(s: State, byte: Byte)
    requires s.Valid() && s.WantLength?
    ensures Extends(s, byte)
  {
    hide Checksum, ByteOf, Val, Encode;
    ByteDetermined(ByteOf(Val(byte)), byte);
    assert [SOF, s.typ, byte] + [] == [SOF, s.typ] + [byte];
  }

  lemma LastBytesExtend(s: State, byte: Byte)
    requires s.Valid() && (s.WantChecksum? || s.WantEof?)
    ensures Extends(s, byte)
  {
    hide Checksum, ByteOf, Val;
  }

  lemma ConsumedStep(s: State, byte: Byte)
    requires s.Valid()
    ensures Extends(s, byte)
  {
    match s {
      case Idle =>
      case WantType =>
      case WantLength(_) => LengthExtends(s, byte);
      case Collecting(_, _, _) => CollectingExtends(s, byte);
      case _ => LastBytesExtend(s, byte);
    }
  }

  /** The stream always ends with the bytes of the frame in progress. */
  lemma {:induction false} StreamEndsWithConsumed(stream: seq<Byte>)
    ensures Run(Idle, stream).Valid() && EndsWith(stream, Run(Idle, stream).Consumed())
  {
    hide Step, EndsWith, Encode, Val;
    RunValid(Idle, stream);
    NoneConsumed(stream);
    if stream != [] {
      var n := |stream| - 1;
      StreamEndsWithConsumed(stream[..n]);
      ConsumedStep(Run(Idle, stream[..n]), stream[n]);
      EndsWithMore(stream[..n], Run(Idle, stream[..n]).Consumed(), stream[n]);
      assert stream[..n] + [stream[n]] == stream;
    }
  }

  lemma NoneConsumed(stream: seq<Byte>)
    ensures EndsWith(stream, Idle.Consumed())
  {
  }

  /** Whenever a byte completes a frame, the stream up to that byte ends with the frame's print. */
  lemma {:induction false} EmittedWasPrinted(stream: seq<Byte>, byte: Byte)
    requires Step(Run(Idle, stream), byte).frame.Some?
    ensures var f := Step(Run(Idle, stream), byte).frame.value;
      |f.payload| <= MAX_PAYLOAD && EndsWith(stream + [byte], Encode(f))
  {
    hide Step;
    StreamEndsWithConsumed(stream);
    ConsumedStep(Run(Idle, stream), byte);
    EndsWithMore(stream, Run(Idle, stream).Consumed(), byte);
  }

  /** From any state, the parser is idle again within the bytes the frame in progress can take:
      at most 68 after an SOF, whatever those bytes are. */
  lemma {:induction false} BackToIdle(s: State, stream: seq<Byte>) returns (k: nat)
    requires s.Valid() && |stream| >= s.Remaining()
    ensures k <= s.Remaining() <= 68
    ensures Run(s, stream[..k]) == Idle
    decreases s.Remaining()
  {
    hide Run, Emitted;
    if s == Idle {
      k := 0;
      EmptyRun(s);
    } else {
      StepValid(s, stream[0]);
      var next := Step(s, stream[0]).state;
      hide Step;
      if next == Idle {
        k := 1;
        RunOne(s, stream[0]);
        assert stream[..1] == [stream[0]];
      } else {
        k := BackToIdle(next, stream[1..]);
        RunOne(s, stream[0]);
        RunConcat(s, [stream[0]], stream[1..][..k]);
        assert stream[..k + 1] == [stream[0]] + stream[1..][..k];
        k := k + 1;
      }
    }
  }

  // ---------------------------------------------------------------- the firmware's parser

  const ERR_BAD_FRAME: nat := 3

  /** The frame buffer a completed frame is copied to. */
  class FrameBuffer {
    var typ: Byte
    var len: Byte
    const payload: array<Byte>

    constructor ()
      ensures payload.Length == MAX_PAYLOAD && fresh(payload)
    {
      payload := new Byte[MAX_PAYLOAD];
    }
  }

  class FirmwareParser {
    var state: nat
    var typ: Byte
    var len: Byte
    var idx: nat
    var sum: Byte
    var lastError: nat
    const payload: array<Byte>

    ghost predicate Valid()
      reads this, payload
    {
      && payload.Length == MAX_PAYLOAD && state <= 5
      && (state == 2 ==> sum == typ)
      && (state >= 3 ==>
           && idx <= Val(len) <= MAX_PAYLOAD
           && sum == SumFrom(Add(typ, len), payload[..idx]))
      && (state == 3 ==> idx < Val(len))
      && (state >= 4 ==> idx == Val(len))
    }

    ghost function Abs(): (s: State)
      requires Valid()
      reads this, payload
    {
      if state == 0 then Idle
      else if state == 1 then WantType
      else if state == 2 then WantLength(typ)
      else if state == 3 then Collecting(typ, Val(len), payload[..idx])
      else if state == 4 then WantChecksum(typ, payload[..idx])
      else WantEof(typ, payload[..idx])
    }

    constructor ()
      ensures Valid() && Abs() == Idle && fresh(payload)
    {
      state, typ, len, idx, sum, lastError := 0, 0, 0, 0, 0, 0;
      payload := new Byte[MAX_PAYLOAD];
    }

    /** parser_reset */
    method Reset()
      requires payload.Length == MAX_PAYLOAD
      modifies this
      ensures Valid() && Abs() == Idle && lastError == old(lastError)
    {
      state, typ, len, idx, sum := 0, 0, 0, 0, 0;
    }

    /** parser_feed, case 2 */
    method TakeLength(byte: Byte)
      requires Valid() && state == 2
      modifies this
      ensures Valid() && Abs() == Step(old(Abs()), byte).state
      ensures lastError == if Step(old(Abs()), byte).bad then ERR_BAD_FRAME else old(lastError)
    {
      hide SumFrom, Add, Val;
      len := byte;
      sum := Add(sum, byte);
      if Val(len) > MAX_PAYLOAD {
        Reset();
        lastError := ERR_BAD_FRAME;
      } else {
        idx := 0;
        state := if Val(len) == 0 then 4 else 3;
        SumOfNone(sum);
      }
    }

    /** parser_feed, case 3 */
    method TakePayload(byte: Byte)
      requires Valid() && state == 3
      modifies this, payload
      ensures Valid() && Abs() == Step(old(Abs()), byte).state
      ensures lastError == old(lastError)
    {
      hide SumFrom, Add, Val;
      SumOfMore(Add(typ, len), payload[..idx], byte);
      ghost var before := payload[..idx];
      payload[idx] := byte;
      idx := idx + 1;
      sum := Add(sum, byte);
      assert payload[..idx] == before + [byte];
      if idx >= Val(len) {
        state := 4;
      }
    }

    /** parser_feed */
    method Feed(byte: Byte, out: FrameBuffer) returns (complete: bool)
      requires Valid() && out.payload.Length == MAX_PAYLOAD && out.payload != payload
      modifies this, payload, out, out.payload
      ensures Valid()
      ensures var o := Step(old(Abs()), byte);
        && Abs() == o.state
        && complete == o.frame.Some?
        && (complete ==> out.typ == o.frame.value.typ && Val(out.len) == |o.frame.value.payload| <= MAX_PAYLOAD
                         && out.payload[..Val(out.len)] == o.frame.value.payload)
        && (!complete ==> unchanged(out) && unchanged(out.payload))
        && lastError == if o.bad then ERR_BAD_FRAME else old(lastError)
    {
      hide SumFrom, Add, Val, Checksum;
      complete := false;
      if state == 4 {
        ChecksumIs(typ, payload[..idx], len);
      }
      match state {
        case 0 =>
          if byte == SOF {
            state, sum, idx := 1, 0, 0;
          }
        case 1 =>
          typ, sum, state := byte, byte, 2;
        case 2 =>
          TakeLength(byte);
        case 3 =>
          TakePayload(byte);
        case 4 =>
          if byte == sum {
            state := 5;
          } else {
            Reset();
            lastError := ERR_BAD_FRAME;
          }
        case _ =>
          if byte == EOF {
            out.typ, out.len := typ, len;
            CopyPayload(out);
            Reset();
            complete := true;
          } else {
            Reset();
            lastError := ERR_BAD_FRAME;
          }
      }
    }

    method CopyPayload(out: FrameBuffer)
      requires payload.Length == out.payload.Length == MAX_PAYLOAD && out.payload != payload
      requires Val(len) <= MAX_PAYLOAD
      modifies out.payload
      ensures out.payload[..Val(len)] == payload[..Val(len)]
    {
      for i := 0 to Val(len)
        invariant out.payload[..i] == payload[..i]
      {
        out.payload[i] := payload[i];
      }
    }
  }

  lemma ChecksumIs(typ: Byte, payload: seq<Byte>, len: Byte)
    ensures |payload| == Val(len) ==> Checksum(typ, payload) == SumFrom(Add(typ, len), payload)
  {
    hide SumFrom, Add, Val;
    if |payload| == Val(len) {
      ByteDetermined(ByteOf(|payload|), len);
    }
  }

  lemma SumOfNone(acc: Byte)
    ensures SumFrom(acc, []) == acc
  {
  }

  lemma SumOfMore(acc: Byte, s: seq<Byte>, byte: Byte)
    ensures SumFrom(acc, s + [byte]) == Add(SumFrom(acc, s), byte)
  {
    assert (s + [byte])[..|s|] == s;
  }

  /** build_frame: the printer, for every payload length a byte can hold; the reported length wraps
      once the frame is longer than 255 bytes. */
  method BuildFrame(typ: Byte, payload: array<Byte>, len: Byte, out: array<Byte>) returns (outLen: Byte)
    requires Val(len) <= payload.Length && 5 + Val(len) <= out.Length && payload != out
    modifies out
    ensures out[..5 + Val(len)] == Encode(Frame(typ, payload[..Val(len)]))
    ensures outLen == Add(5, len)
  {
    hide SumFrom, Checksum, Add, Val;
    var n := Val(len);
    ghost var p := payload[..n];
    var sum := Add(typ, len);
    out[0] := SOF;
    out[1] := typ;
    out[2] := len;
    SumOfNone(sum);
    for i := 0 to n
      invariant payload[..n] == p
      invariant out[0] == SOF && out[1] == typ && out[2] == len
      invariant forall k :: 0 <= k < i ==> out[3 + k] == p[k]
      invariant sum == SumFrom(Add(typ, len), p[..i])
    {
      out[3 + i] := payload[i];
      SumOfMore(Add(typ, len), p[..i], payload[i]);
      assert p[..i + 1] == p[..i] + [payload[i]];
      sum := Add(sum, payload[i]);
    }
    assert p[..n] == p;
    ChecksumIs(typ, p, len);
    ByteDetermined(ByteOf(n), len);
    out[3 + n] := sum;
    out[4 + n] := EOF;
    outLen := Add(5, len);
    assert out[..5 + n] == Encode(Frame(typ, p));
  }

  // ---------------------------------------------------------------- the Python peer

  /** encode_frame: any integer type is reduced to a byte; a long payload is an error. */
  function EncodeFrame(frameType: int, payload: seq<Byte>): Option<seq<Byte>> {
    if |payload| > MAX_PAYLOAD then None
    else Some([SOF, ByteOf(frameType % 256), ByteOf(|payload|)] + payload + [PythonChecksum(frameType, payload), EOF])
  }

  function ByteSum(s: seq<Byte>): nat {
    if s == [] then 0 else ByteSum(s[..|s| - 1]) + Val(s[|s| - 1])
  }

  /** checksum: one sum of integers, reduced at the end. */
  function PythonChecksum(frameType: int, payload: seq<Byte>): Byte {
    ByteOf((frameType + |payload| + ByteSum(payload)) % 256)
  }

  lemma {:induction false} SumFromIsByteSum(acc: Byte, s: seq<Byte>)
    ensures Val(SumFrom(acc, s)) == (Val(acc) + ByteSum(s)) % 256
  {
    hide Val, Add;
    if s != [] {
      var n := |s| - 1;
      SumFromIsByteSum(acc, s[..n]);
      ByteAddition(SumFrom(acc, s[..n]), s[n]);
      ModuloSum(Val(acc) + ByteSum(s[..n]), Val(s[n]), 0);
    }
  }

  lemma ChecksumsAgree(frameType: int, payload: seq<Byte>)
    requires |payload| <= MAX_PAYLOAD
    ensures PythonChecksum(frameType, payload) == Checksum(ByteOf(frameType % 256), payload)
  {
    hide Val, SumFrom, ByteSum, Add, ByteOf;
    var t, n := ByteOf(frameType % 256), ByteOf(|payload|);
    SumFromIsByteSum(Add(t, n), payload);
    ByteAddition(t, n);
    ModuloSum(frameType, |payload|, ByteSum(payload));
    ByteDetermined(SumFrom(Add(t, n), payload), PythonChecksum(frameType, payload));
  }

  /** The Python printer prints what the firmware prints, and refuses exactly the payloads that
      would not be parsed back. */
  lemma PrintersAgree(frameType: int, payload: seq<Byte>)
    ensures EncodeFrame(frameType, payload) ==
      if |payload| <= MAX_PAYLOAD then Some(Encode(Frame(ByteOf(frameType % 256), payload))) else None
  {
    hide ByteOf, Checksum, PythonChecksum;
    if |payload| <= MAX_PAYLOAD {
      ChecksumsAgree(frameType, payload);
    }
  }

  /** A printed frame is a start mark, type, length and payload, the sum of all of these but the mark modulo 256, and
      an end mark. */
  lemma FrameLayout(f: Frame)
    requires |f.payload| <= MAX_PAYLOAD
    ensures var s, n := Encode(f), |f.payload|;
      && |s| == 5 + n && s[0] == 0x7e && s[1] == f.typ && Val(s[2]) == n && s[3..3 + n] == f.payload
      && Val(s[3 + n]) == (Val(f.typ) + n + ByteSum(f.payload)) % 256 && s[4 + n] == 0x0a
  {
    hide Checksum, ByteSum, Val;
    var t := Val(f.typ);
    ByteDetermined(ByteOf(t % 256), f.typ);
    ChecksumsAgree(t, f.payload);
    var s, n := Encode(f), |f.payload|;
    assert s == [SOF, f.typ, ByteOf(n)] + f.payload + [Checksum(f.typ, f.payload), EOF];
    assert s[3..3 + n] == f.payload;
  }

  lemma ModuloSum(a: int, b: nat, c: nat)
    ensures ((a % 256 + b) % 256 + c) % 256 == (a + b + c) % 256
    ensures (a % 256 + b) % 256 == (a + b) % 256
  {
  }

  class PythonParser {
    var state: nat
    var frameType: Byte
    var length: Byte
    var payload: seq<Byte>
    var sum: Byte

    ghost predicate Valid()
      reads this
    {
      && state <= 5
      && (state == 1 ==> payload == [])
      && (state == 2 ==> sum == frameType && payload == [])
      && (state >= 3 ==>
           && |payload| <= Val(length) <= MAX_PAYLOAD
           && sum == SumFrom(Add(frameType, length), payload))
      && (state == 3 ==> |payload| < Val(length))
      && (state >= 4 ==> |payload| == Val(length))
    }

    ghost function Abs(): (s: State)
      requires Valid()
      reads this
    {
      match state
      case 0 => Idle
      case 1 => WantType
      case 2 => WantLength(frameType)
      case 3 => Collecting(frameType, Val(length), payload)
      case 4 => WantChecksum(frameType, payload)
      case _ => WantEof(frameType, payload)
    }

    constructor ()
      ensures Valid() && Abs() == Idle
    {
      state, frameType, length, payload, sum := 0, 0, 0, [], 0;
    }

    method Reset()
      modifies this
      ensures Valid() && Abs() == Idle
    {
      state, frameType, length, payload, sum := 0, 0, 0, [], 0;
    }

    /** FrameParser.feed_byte */
    method FeedByte(byte: Byte) returns (result: Option<Frame>)
      requires Valid()
      modifies this
      ensures Valid() && Abs() == Step(old(Abs()), byte).state
      ensures result == Step(old(Abs()), byte).frame
    {
      hide SumFrom, Add, Val, Checksum;
      ChecksumIs(frameType, payload, length);
      result := None;
      match state {
        case 0 =>
          if byte == SOF {
            state, payload, sum := 1, [], 0;
          }
        case 1 =>
          frameType, sum, state := byte, byte, 2;
        case 2 =>
          length := byte;
          sum := Add(sum, byte);
          if Val(length) > MAX_PAYLOAD {
            Reset();
          } else {
            state := if Val(length) == 0 then 4 else 3;
            SumOfNone(sum);
          }
        case 3 =>
          SumOfMore(Add(frameType, length), payload, byte);
          payload := payload + [byte];
          sum := Add(sum, byte);
          if |payload| >= Val(length) {
            state := 4;
          }
        case 4 =>
          if byte == sum {
            state := 5;
          } else {
            Reset();
          }
        case _ =>
          if byte == EOF {
            result := Some(Frame(frameType, payload));
          }
          Reset();
      }
    }

    /** FrameParser.feed: all the frames of a stream, in order. */
    method Feed(data: seq<Byte>) returns (frames: seq<Frame>)
      requires Valid()
      modifies this
      ensures Valid() && Abs() == Run(old(Abs()), data)
      ensures frames == Emitted(old(Abs()), data)
    {
      hide Step;
      frames := [];
      for i := 0 to |data|
        invariant Valid() && Abs() == Run(old(Abs()), data[..i])
        invariant frames == Emitted(old(Abs()), data[..i])
      {
        assert data[..i + 1][..i] == data[..i];
        var frame := FeedByte(data[i]);
        if frame.Some? {
          frames := frames + [frame.value];
        }
      }
      assert data[..|data|] == data;
    }
  }

  /** The two parsers side by side: on every stream they emit the same frames. */
  method BothParsers(c: FirmwareParser, p: PythonParser, out: FrameBuffer, data: seq<Byte>)
    returns (fromC: seq<Frame>, fromPython: seq<Frame>)
    requires c.Valid() && p.Valid() && c.Abs() == p.Abs()
    requires out.payload.Length == MAX_PAYLOAD && out.payload != c.payload
    modifies c, c.payload, p, out, out.payload
    ensures c.Valid() && p.Valid() && c.Abs() == p.Abs()
    ensures fromC == fromPython == Emitted(old(p.Abs()), data)
  {
    hide Step, SumFrom, Val, Add;
    fromC := [];
    for i := 0 to |data|
      invariant c.Valid() && c.Abs() == Run(old(p.Abs()), data[..i])
      invariant p.Valid() && p.Abs() == old(p.Abs())
      invariant fromC == Emitted(old(p.Abs()), data[..i])
    {
      assert data[..i + 1][..i] == data[..i];
      var complete := c.Feed(data[i], out);
      if complete {
        fromC := fromC + [Frame(out.typ, out.payload[..Val(out.len)])];
      }
    }
    assert data[..|data|] == data;
    fromPython := p.Feed(data);
  }
}
