/** The health core: records, tokens, deadlines and the two-slot snapshot store, as values. */
module Health {
  import opened Words
  import Fnv

  // ---------------------------------------------------------------- data

  const IP_COUNT: nat := 12
  const SYSTEM_SERVICE: nat := 0
  const UART_LOOP: nat := 2
  const GPIO: nat := 3
  const VGA: nat := 7
  const SW: nat := 8
  const LED: nat := 9
  const HEX: nat := 10
  const AES_GCM: nat := 11

  /** The budget, in epochs, of every provider's and of the board's deadlines. */
  const PROVIDER_BUDGET: nat := 262144
  const BOARD_BUDGET: nat := 262144

  const STEP_PROGRESS: nat := 1
  const STEP_WARN: nat := 2
  const STEP_FAIL: nat := 3
  const STEP_DEADLINE_MISS: nat := 4

  const NOT_IMPLEMENTED: bv32 := 0x4e4f5451
  const AES_PENDING: bv32 := 0x41455358

  datatype HbState = Unknown | Pass | Warn | Fail | Excluded

  datatype IpHealth = IpHealth(
    state: HbState, evidence: bv32, heartbeats: U32, lastProgress: U32, misses: U32, detail: bv32)

  /** The 32-bit reader mask of a slot, of which only the bits of the two observers are used. */
  datatype Readers = Readers(vga: bool, uart: bool)
  {
    predicate None() {
      !vga && !uart
    }

    predicate Has(o: Observer) {
      match o
      case Vga => vga
      case Uart => uart
    }

    function Without(o: Observer): Readers {
      match o
      case Vga => Readers(false, uart)
      case Uart => Readers(vga, false)
    }
  }

  datatype Observer = Vga | Uart

  datatype Snapshot = Snapshot(
    epoch: U32, publicationId: U32, signature: U32,
    passMask: bv32, warnMask: bv32, failMask: bv32, excludedMask: bv32, stickyFailMask: bv32,
    backlog: U32, misses: PerObserver, last: PerObserver, ip: seq<IpHealth>)

  /** A pair of counters, one for each observer. */
  datatype PerObserver = PerObserver(vga: U32, uart: U32)
  {
    function Of(o: Observer): U32 {
      match o
      case Vga => vga
      case Uart => uart
    }

    function With(o: Observer, x: U32): PerObserver {
      match o
      case Vga => PerObserver(x, uart)
      case Uart => PerObserver(vga, x)
    }
  }

  datatype Slot = Slot(snapshot: Snapshot, readers: Readers)

  /** One token stream of a record: the last token taken, if any. */
  datatype Stream = Stream(token: U32, seen: bool)

  datatype Core = Core(
    ip: seq<IpHealth>, epoch: U32, publicationId: U32, sticky: bv32, nextSlot: nat, backlog: U32,
    misses: PerObserver, last: PerObserver, progress: seq<Stream>, missed: seq<Stream>, slot: seq<Slot>)
  {
    predicate Shape() {
      |ip| == |progress| == |missed| == IP_COUNT && |slot| == 2 && nextSlot < 2
    }
  }

  // ---------------------------------------------------------------- reports

  /** fresh_token */
  predicate Fresh(token: U32, s: Stream) {
    !s.seen || 0 < Sub(token, s.token) < 0x8000_0000
  }

  /** The bit of an id in a mask. */
  function IdBit(id: nat): bv32
    requires id < IP_COUNT
  {
    match id
    case 0 => 0x001 case 1 => 0x002 case 2 => 0x004 case 3 => 0x008
    case 4 => 0x010 case 5 => 0x020 case 6 => 0x040 case 7 => 0x080
    case 8 => 0x100 case 9 => 0x200 case 10 => 0x400 case 11 => 0x800
  }

  function Or(a: bv32, b: bv32): bv32 {
    a | b
  }

  function And(a: bv32, b: bv32): bv32 {
    a & b
  }

  function WithBit(mask: bv32, id: nat): bv32
    requires id < IP_COUNT
  {
    Or(mask, IdBit(id))
  }

  datatype Report = Report(id: nat, step: nat, token: U32, detail: bv32)

  /** A report the core takes: a known id and step, and for the two counted steps a fresh token. */
  predicate Accepts(c: Core, r: Report)
    requires c.Shape()
  {
    && r.id < IP_COUNT && r.id != AES_GCM && r.step <= STEP_DEADLINE_MISS
    && (r.step == STEP_PROGRESS ==> Fresh(r.token, c.progress[r.id]))
    && (r.step == STEP_DEADLINE_MISS ==> Fresh(r.token, c.missed[r.id]))
  }

  function NewRecord(c: Core, r: Report): IpHealth
    requires c.Shape() && r.id < IP_COUNT
  {
    var h := c.ip[r.id].(detail := r.detail);
    if r.step == STEP_PROGRESS then h.(heartbeats := Inc(h.heartbeats), lastProgress := c.epoch, state := Pass)
    else if r.step == STEP_DEADLINE_MISS then h.(misses := Inc(h.misses), state := Fail)
    else if r.step == STEP_FAIL then h.(state := Fail)
    else if r.step == STEP_WARN then h.(state := Warn)
    else h
  }

  /** soc_health_report; a report that is not accepted changes nothing. */
  function Reported(c: Core, r: Report): (c': Core)
    requires c.Shape()
    ensures c'.Shape()
  {
    if !Accepts(c, r) then c
    else
      var h := NewRecord(c, r);
      c.(ip := c.ip[r.id := h],
         progress := if r.step == STEP_PROGRESS then c.progress[r.id := Stream(r.token, true)] else c.progress,
         missed := if r.step == STEP_DEADLINE_MISS then c.missed[r.id := Stream(r.token, true)] else c.missed,
         sticky := if h.state == Fail then WithBit(c.sticky, r.id) else c.sticky)
  }

  /** soc_health_epoch_begin */
  function EpochBegun(c: Core): (c': Core)
    requires c.Shape()
    ensures c'.Shape()
  {
    var e := Inc(c.epoch);
    Reported(c.(epoch := e), Report(SYSTEM_SERVICE, STEP_PROGRESS, e, 0))
  }

  /** The core as the others have left it, with the record and tokens of an id for which only its own provider
      reports. */
  function Merged(mine: Core, others: Core, id: nat): (c: Core)
    requires mine.Shape() && others.Shape() && id < IP_COUNT
    ensures c.Shape()
  {
    others.(ip := others.ip[id := mine.ip[id]], progress := others.progress[id := mine.progress[id]],
            missed := others.missed[id := mine.missed[id]])
  }

  // ---------------------------------------------------------------- deadlines

  datatype Deadline = Deadline(start: U32, budget: U32, token: U32, armed: bool)

  /** soc_health_deadline_begin; a budget of 2^31 or more is refused and leaves it disarmed. */
  function DeadlineBegun(d: Deadline, epoch: U32, budget: U32, token: U32): Deadline {
    if budget >= 0x8000_0000 then d.(armed := false) else Deadline(epoch, budget, token, true)
  }

  predicate DeadlineDue(epoch: U32, d: Deadline) {
    d.armed && Sub(epoch, d.start) >= d.budget
  }

  datatype Polled = Polled(core: Core, deadline: Deadline, expired: bool)

  /** soc_health_deadline_poll: a due deadline is disarmed, and counts if its report is accepted. */
  function DeadlinePolled(c: Core, id: nat, d: Deadline): (p: Polled)
    requires c.Shape()
    ensures p.core.Shape()
  {
    if id >= IP_COUNT || id == AES_GCM || !DeadlineDue(c.epoch, d) then Polled(c, d, false)
    else
      var r := Report(id, STEP_DEADLINE_MISS, d.token, Bits(d.budget));
      Polled(Reported(c, r), d.(armed := false), Accepts(c, r))
  }

  // ---------------------------------------------------------------- publication

  /** The mask of the ids among the first n that are in state st. */
  function StateMask(ip: seq<IpHealth>, st: HbState, n: nat): bv32
    requires n <= |ip| == IP_COUNT
  {
    if n == 0 then 0
    else if ip[n - 1].state == st then WithBit(StateMask(ip, st, n - 1), n - 1)
    else StateMask(ip, st, n - 1)
  }

  /** The slot a publication takes: the next one, or the other if the next is leased. */
  function FreeSlot(c: Core): (i: nat)
    requires c.Shape()
    ensures i <= 2
  {
    if c.slot[c.nextSlot].readers.None() then c.nextSlot
    else if c.slot[1 - c.nextSlot].readers.None() then 1 - c.nextSlot
    else 2
  }

  function StateValue(st: HbState): bv32 {
    match st
    case Unknown => 0
    case Pass => 1
    case Warn => 2
    case Fail => 3
    case Excluded => 4
  }

  function RecordWords(i: nat, h: IpHealth): (w: seq<bv32>)
    requires i < IP_COUNT
    ensures |w| == 7
  {
    [Bits(i), StateValue(h.state), h.evidence, Bits(h.heartbeats), Bits(h.lastProgress), Bits(h.misses), h.detail]
  }

  function AllRecordWords(ip: seq<IpHealth>, n: nat): (w: seq<bv32>)
    requires n <= |ip| == IP_COUNT
    ensures |w| == 7 * n
  {
    if n == 0 then [] else AllRecordWords(ip, n - 1) + RecordWords(n - 1, ip[n - 1])
  }

  function HeaderWords(s: Snapshot): (w: seq<bv32>)
    ensures |w| == 13
  {
    [0x53483201, Bits(s.epoch), Bits(s.publicationId), s.passMask, s.warnMask, s.failMask,
     s.excludedMask, s.stickyFailMask, Bits(s.backlog),
     Bits(s.misses.vga), Bits(s.misses.uart), Bits(s.last.vga), Bits(s.last.uart)]
  }

  /** The signed content of a snapshot: 97 words. */
  function SnapshotWords(s: Snapshot): (w: seq<bv32>)
    requires |s.ip| == IP_COUNT
    ensures |w| == 97
  {
    HeaderWords(s) + AllRecordWords(s.ip, IP_COUNT)
  }

  function Signature(s: Snapshot): U32
    requires |s.ip| == IP_COUNT
  {
    Fnv.HashBytes(Fnv.OFFSET, Fnv.Serialised(SnapshotWords(s)))
  }

  /** Snapshots whose 388 signed bytes differ in exactly one place have different signatures. */
  lemma SignatureDetectsOneByte(s: Snapshot, t: Snapshot, i: nat)
    requires |s.ip| == |t.ip| == IP_COUNT && i < 388
    requires var a, b := Fnv.Serialised(SnapshotWords(s)), Fnv.Serialised(SnapshotWords(t));
      a[i] != b[i] && forall k :: 0 <= k < 388 && k != i ==> a[k] == b[k]
    ensures Signature(s) != Signature(t)
  {
    hide SnapshotWords, Fnv.Serialised, Fnv.HashBytes;
    Fnv.OneByteDetected(Fnv.OFFSET, Fnv.Serialised(SnapshotWords(s)), Fnv.Serialised(SnapshotWords(t)), i);
  }

  /** The snapshot of the core's present content, under the next publication id. */
  function Taken(c: Core): (s: Snapshot)
    requires c.Shape()
    ensures |s.ip| == IP_COUNT
  {
    var s := Snapshot(c.epoch, Inc(c.publicationId), 0,
                      StateMask(c.ip, Pass, 12), StateMask(c.ip, Warn, 12), StateMask(c.ip, Fail, 12),
                      StateMask(c.ip, Excluded, 12), c.sticky, c.backlog, c.misses, c.last, c.ip);
    s.(signature := Signature(s))
  }

  /** soc_health_publish_snapshot; with both slots leased it only counts the backlog. */
  function Published(c: Core): (c': Core)
    requires c.Shape()
    ensures c'.Shape()
  {
    var i := FreeSlot(c);
    if i == 2 then c.(backlog := Inc(c.backlog))
    else
      c.(nextSlot := 1 - i, publicationId := Inc(c.publicationId),
         slot := c.slot[i := Slot(Taken(c), Readers(true, true))])
  }

  /** Whether the store has something to release: slot i is leased to the observer. */
  predicate Leased(c: Core, i: nat, o: Observer)
    requires c.Shape()
  {
    i < 2 && c.slot[i].readers.Has(o)
  }

  /** soc_health_snapshot_release for the snapshot in slot i; i == 2 stands for any other address. */
  function Released(c: Core, i: nat, o: Observer, completed: bool): (c': Core)
    requires c.Shape()
    ensures c'.Shape()
  {
    if !Leased(c, i, o) then c
    else
      c.(slot := c.slot[i := c.slot[i].(readers := c.slot[i].readers.Without(o))],
         last := if completed then c.last.With(o, c.slot[i].snapshot.epoch) else c.last,
         misses := if completed then c.misses else c.misses.With(o, Inc(c.misses.Of(o))))
  }

  // ---------------------------------------------------------------- what a run starts from

  function EvidenceOf(id: nat): bv32
    requires id < IP_COUNT
  {
    match id
    case 0 => 0 case 1 => 0 case 2 => 1 case 3 => 1 case 4 => 0 case 5 => 0
    case 6 => 2 case 7 => 0 case 8 => 4 case 9 => 3 case 10 => 3 case 11 => 7
  }

  function InitialRecord(id: nat): IpHealth
    requires id < IP_COUNT
  {
    if id == AES_GCM then IpHealth(Excluded, EvidenceOf(id), 0, 0, 0, AES_PENDING)
    else IpHealth(Unknown, EvidenceOf(id), 0, 0, 0, NOT_IMPLEMENTED)
  }

  /** A core that soc_health_init has just set up; the two snapshots are whatever memory held. */
  predicate Initial(c: Core) {
    && c.Shape()
    && c.epoch == c.publicationId == c.nextSlot == c.backlog == 0 && c.sticky == 0
    && c.misses == c.last == PerObserver(0, 0)
    && c.slot[0].readers.None() && c.slot[1].readers.None()
    && forall i :: 0 <= i < IP_COUNT ==>
         c.ip[i] == InitialRecord(i) && c.progress[i] == c.missed[i] == Stream(0, false)
  }
}
