/** What the signature of a snapshot covers: every field but itself, each in a place of its own. */
module HealthSignature {
  import opened Words
  import opened ByteValues
  import opened Health
  import Fnv

  /** The fields of a record. */
  datatype Part = State | Evidence | Heartbeats | LastProgress | Misses | Detail

  /** The fields of a snapshot, its signature aside. */
  datatype Field =
    | Epoch | PublicationId | PassMask | WarnMask | FailMask | ExcludedMask | StickyFailMask | Backlog
    | VgaMisses | UartMisses | VgaLast | UartLast
    | Of(id: nat, part: Part)
  {
    predicate Valid() {
      Of? ==> id < IP_COUNT
    }
  }

  /** What a field holds, as a word. */
  function Content(s: Snapshot, f: Field): bv32
    requires |s.ip| == IP_COUNT && f.Valid()
  {
    match f
    case Epoch => Bits(s.epoch)
    case PublicationId => Bits(s.publicationId)
    case PassMask => s.passMask
    case WarnMask => s.warnMask
    case FailMask => s.failMask
    case ExcludedMask => s.excludedMask
    case StickyFailMask => s.stickyFailMask
    case Backlog => Bits(s.backlog)
    case VgaMisses => Bits(s.misses.vga)
    case UartMisses => Bits(s.misses.uart)
    case VgaLast => Bits(s.last.vga)
    case UartLast => Bits(s.last.uart)
    case Of(id, part) => PartContent(s.ip[id], part)
  }

  function PartContent(h: IpHealth, p: Part): bv32 {
    match p
    case State => StateValue(h.state)
    case Evidence => h.evidence
    case Heartbeats => Bits(h.heartbeats)
    case LastProgress => Bits(h.lastProgress)
    case Misses => Bits(h.misses)
    case Detail => h.detail
  }

  /** Snapshots that hold the same in every field are the same, their signatures aside. */
  lemma ContentTells(s: Snapshot, t: Snapshot)
    requires |s.ip| == |t.ip| == IP_COUNT && forall f: Field :: f.Valid() ==> Content(s, f) == Content(t, f)
    ensures s == t.(signature := s.signature)
  {
    hide Content, Bits, PartContent;
    HeaderTells(s, t);
    forall i | 0 <= i < IP_COUNT
      ensures s.ip[i] == t.ip[i]
    {
      forall p: Part
        ensures PartContent(s.ip[i], p) == PartContent(t.ip[i], p)
      {
        OfIs(s, i, p);
        OfIs(t, i, p);
        assert Content(s, Of(i, p)) == Content(t, Of(i, p));
      }
      PartsTell(s.ip[i], t.ip[i]);
    }
  }

  lemma OfIs(s: Snapshot, id: nat, p: Part)
    requires |s.ip| == IP_COUNT && id < IP_COUNT
    ensures Content(s, Of(id, p)) == PartContent(s.ip[id], p)
  {
    hide PartContent;
  }

  lemma HeaderTells(s: Snapshot, t: Snapshot)
    requires |s.ip| == |t.ip| == IP_COUNT && forall f: Field :: f.Valid() ==> Content(s, f) == Content(t, f)
    ensures s.(ip := []) == t.(ip := [], signature := s.signature)
  {
    hide Bits, PartContent;
    assert Content(s, Epoch) == Content(t, Epoch) && Content(s, PublicationId) == Content(t, PublicationId);
    assert Content(s, PassMask) == Content(t, PassMask) && Content(s, WarnMask) == Content(t, WarnMask);
    assert Content(s, FailMask) == Content(t, FailMask) && Content(s, ExcludedMask) == Content(t, ExcludedMask);
    assert Content(s, StickyFailMask) == Content(t, StickyFailMask) && Content(s, Backlog) == Content(t, Backlog);
    assert Content(s, VgaMisses) == Content(t, VgaMisses) && Content(s, UartMisses) == Content(t, UartMisses);
    assert Content(s, VgaLast) == Content(t, VgaLast) && Content(s, UartLast) == Content(t, UartLast);
    BitsInjective(s.epoch, t.epoch);
    BitsInjective(s.publicationId, t.publicationId);
    BitsInjective(s.backlog, t.backlog);
    BitsInjective(s.misses.vga, t.misses.vga);
    BitsInjective(s.misses.uart, t.misses.uart);
    BitsInjective(s.last.vga, t.last.vga);
    BitsInjective(s.last.uart, t.last.uart);
  }

  lemma PartsTell(g: IpHealth, h: IpHealth)
    requires forall p: Part :: PartContent(g, p) == PartContent(h, p)
    ensures g == h
  {
    hide Bits;
    assert PartContent(g, State) == PartContent(h, State) && PartContent(g, Evidence) == PartContent(h, Evidence);
    assert PartContent(g, Heartbeats) == PartContent(h, Heartbeats);
    assert PartContent(g, LastProgress) == PartContent(h, LastProgress);
    assert PartContent(g, Misses) == PartContent(h, Misses) && PartContent(g, Detail) == PartContent(h, Detail);
    BitsInjective(g.heartbeats, h.heartbeats);
    BitsInjective(g.lastProgress, h.lastProgress);
    BitsInjective(g.misses, h.misses);
  }

  // ---------------------------------------------------------------- the places

  function PartPlace(p: Part): nat {
    match p
    case State => 1
    case Evidence => 2
    case Heartbeats => 3
    case LastProgress => 4
    case Misses => 5
    case Detail => 6
  }

  /** The place of a field among the signed words. */
  function Place(f: Field): (k: nat)
    requires f.Valid()
    ensures k < 97
  {
    match f
    case Epoch => 1
    case PublicationId => 2
    case PassMask => 3
    case WarnMask => 4
    case FailMask => 5
    case ExcludedMask => 6
    case StickyFailMask => 7
    case Backlog => 8
    case VgaMisses => 9
    case UartMisses => 10
    case VgaLast => 11
    case UartLast => 12
    case Of(id, part) => 13 + 7 * id + PartPlace(part)
  }

  lemma {:induction false} RecordAt(ip: seq<IpHealth>, n: nat, i: nat, j: nat)
    requires i < n <= |ip| == IP_COUNT && j < 7
    ensures AllRecordWords(ip, n)[7 * i + j] == RecordWords(i, ip[i])[j]
  {
    hide RecordWords;
    if i < n - 1 {
      RecordAt(ip, n - 1, i, j);
    }
  }

  lemma WordAt(s: Snapshot, k: nat)
    requires |s.ip| == IP_COUNT && k < 97
    ensures SnapshotWords(s)[k] == if k < 13 then HeaderWords(s)[k] else AllRecordWords(s.ip, IP_COUNT)[k - 13]
  {
    hide HeaderWords, AllRecordWords;
  }

  lemma PartAt(i: nat, h: IpHealth, p: Part)
    requires i < IP_COUNT
    ensures RecordWords(i, h)[PartPlace(p)] == PartContent(h, p) && PartPlace(p) < 7
  {
    hide Bits, StateValue;
  }

  lemma HeaderAt(s: Snapshot, f: Field)
    requires |s.ip| == IP_COUNT && f.Valid() && !f.Of?
    ensures Place(f) < 13 && HeaderWords(s)[Place(f)] == Content(s, f)
  {
    hide Bits;
  }

  lemma PlaceOf(id: nat, p: Part)
    requires id < IP_COUNT
    ensures Place(Of(id, p)) == 13 + (7 * id + PartPlace(p)) && PartPlace(p) < 7
  {
  }

  lemma RecordInPlace(s: Snapshot, id: nat, p: Part)
    requires |s.ip| == IP_COUNT && id < IP_COUNT
    ensures SnapshotWords(s)[Place(Of(id, p))] == PartContent(s.ip[id], p)
  {
    hide SnapshotWords, AllRecordWords, HeaderWords, RecordWords, PartContent, PartPlace, Place;
    PlaceOf(id, p);
    WordAt(s, Place(Of(id, p)));
    PartAt(id, s.ip[id], p);
    RecordAt(s.ip, IP_COUNT, id, PartPlace(p));
  }

  lemma HeaderInPlace(s: Snapshot, f: Field)
    requires |s.ip| == IP_COUNT && f.Valid() && !f.Of?
    ensures SnapshotWords(s)[Place(f)] == Content(s, f)
  {
    HeaderAt(s, f);
    hide SnapshotWords, AllRecordWords, HeaderWords, Place, Content;
    WordAt(s, Place(f));
  }

  /** Every field has its place among the signed words. */
  lemma InPlace(s: Snapshot, f: Field)
    requires |s.ip| == IP_COUNT && f.Valid()
    ensures SnapshotWords(s)[Place(f)] == Content(s, f)
  {
    hide SnapshotWords, Place, PartContent, Content;
    if f.Of? {
      RecordInPlace(s, f.id, f.part);
      OfIs(s, f.id, f.part);
    } else {
      HeaderInPlace(s, f);
    }
  }

  /** Snapshots with the same signed words are the same, their signatures aside. */
  lemma SignedWordsTell(s: Snapshot, t: Snapshot)
    requires |s.ip| == |t.ip| == IP_COUNT && SnapshotWords(s) == SnapshotWords(t)
    ensures s == t.(signature := s.signature)
  {
    hide SnapshotWords, Content, Place;
    forall f: Field | f.Valid()
      ensures Content(s, f) == Content(t, f)
    {
      InPlace(s, f);
      InPlace(t, f);
    }
    ContentTells(s, t);
  }

  // ---------------------------------------------------------------- one byte of one field

  predicate OneByteApart(x: bv32, y: bv32, j: nat)
    requires j < 4
  {
    && Fnv.LeBytes(x)[j] != Fnv.LeBytes(y)[j]
    && forall i :: 0 <= i < 4 && i != j ==> Fnv.LeBytes(x)[i] == Fnv.LeBytes(y)[i]
  }

  /** What is signed at a place: a mark, the id of a record, or a field. */
  datatype Signed = Mark | Id(id: nat) | Held(field: Field)

  function PartOf(j: nat): Part
    requires 1 <= j < 7
    ensures PartPlace(PartOf(j)) == j
  {
    match j
    case 1 => State case 2 => Evidence case 3 => Heartbeats case 4 => LastProgress case 5 => Misses case 6 => Detail
  }

  function At(k: nat): (h: Signed)
    requires k < 97
    ensures match h
      case Mark => k == 0
      case Id(i) => i < IP_COUNT && k == 13 + 7 * i
      case Held(f) => f.Valid() && Place(f) == k
  {
    match k
    case 0 => Mark
    case 1 => Held(Epoch) case 2 => Held(PublicationId) case 3 => Held(PassMask) case 4 => Held(WarnMask)
    case 5 => Held(FailMask) case 6 => Held(ExcludedMask) case 7 => Held(StickyFailMask) case 8 => Held(Backlog)
    case 9 => Held(VgaMisses) case 10 => Held(UartMisses) case 11 => Held(VgaLast) case 12 => Held(UartLast)
    case _ =>
      var i, j := (k - 13) / 7, (k - 13) % 7;
      if j == 0 then Id(i) else Held(Of(i, PartOf(j)))
  }

  lemma ConstantsAt(s: Snapshot, i: nat)
    requires |s.ip| == IP_COUNT && i < IP_COUNT
    ensures SnapshotWords(s)[0] == 0x53483201 && SnapshotWords(s)[13 + 7 * i] == Bits(i)
  {
    hide Bits, AllRecordWords, SnapshotWords, StateValue;
    WordAt(s, 0);
    WordAt(s, 13 + 7 * i);
    RecordAt(s.ip, IP_COUNT, i, 0);
  }

  lemma {:induction false} SerialisedAt(words: seq<bv32>, k: nat, j: nat)
    requires k < |words| && j < 4
    ensures Fnv.Serialised(words)[4 * k + j] == Fnv.LeBytes(words[k])[j]
  {
    hide Fnv.LeBytes;
    if k > 0 {
      SerialisedAt(words[1..], k - 1, j);
    }
  }

  /** If a field differs in one of its bytes and nothing else differs, so does one of the words. */
  lemma WordsApart(s: Snapshot, t: Snapshot, f: Field, k: nat)
    requires |s.ip| == |t.ip| == IP_COUNT && f.Valid() && k < 97 && k != Place(f)
    requires forall g: Field :: g.Valid() && g != f ==> Content(s, g) == Content(t, g)
    ensures SnapshotWords(s)[k] == SnapshotWords(t)[k]
  {
    hide SnapshotWords, Content, Bits, Place;
    match At(k)
    case Mark =>
      ConstantsAt(s, 0);
      ConstantsAt(t, 0);
    case Id(i) =>
      ConstantsAt(s, i);
      ConstantsAt(t, i);
    case Held(g) =>
      InPlace(s, g);
      InPlace(t, g);
  }

  /** Snapshots that differ in exactly one byte of one field have different signatures. */
  lemma OneByteOfAField(s: Snapshot, t: Snapshot, f: Field, j: nat)
    requires |s.ip| == |t.ip| == IP_COUNT && f.Valid() && j < 4
    requires OneByteApart(Content(s, f), Content(t, f), j)
    requires forall g: Field :: g.Valid() && g != f ==> Content(s, g) == Content(t, g)
    ensures Signature(s) != Signature(t)
  {
    hide SnapshotWords, Content, Place, Signature, Fnv.Serialised, Fnv.LeBytes;
    var a, b := SnapshotWords(s), SnapshotWords(t);
    InPlace(s, f);
    InPlace(t, f);
    var at := 4 * Place(f) + j;
    forall m | 0 <= m < 388
      ensures Fnv.Serialised(a)[m] != Fnv.Serialised(b)[m] <==> m == at
    {
      var k, i := m / 4, m % 4;
      assert m == 4 * k + i;
      SerialisedAt(a, k, i);
      SerialisedAt(b, k, i);
      if k != Place(f) {
        WordsApart(s, t, f, k);
      }
    }
    SignatureDetectsOneByte(s, t, at);
  }
}
