/** What a run of the health core leaves in a record: the account of the reports it has taken. */
module HealthRecords {
  import opened Words
  import opened Health
  import opened HealthRuns

  const STEP_PENDING: nat := 0

  /** A report the core took, and the epoch it took it in. */
  datatype Entry = Entry(report: Report, epoch: U32)

  function IfTaken(c: Core, r: Report): seq<Entry>
    requires c.Shape()
  {
    if Accepts(c, r) then [Entry(r, c.epoch)] else []
  }

  /** What one operation adds to the account; a new epoch is a report of the system service. */
  function EntriesOf(c: Core, op: Op): seq<Entry>
    requires c.Shape()
  {
    match op
    case DoReport(r) => IfTaken(c, r)
    case DoEpoch =>
      var e := Inc(c.epoch);
      IfTaken(c.(epoch := e), Report(SYSTEM_SERVICE, STEP_PROGRESS, e, 0))
    case _ => []
  }

  function Account(l: Ledger, ops: seq<Op>): seq<Entry>
    requires l.core.Shape()
  {
    if ops == [] then []
    else
      var n := |ops| - 1;
      Account(l, ops[..n]) + EntriesOf(Run(l, ops[..n]).core, ops[n])
  }

  // ---------------------------------------------------------------- reading the account

  datatype Kind = Any | Calling | Progress | Miss

  /** A report of any step; one that calls for a state; one that counts as a heartbeat, or as a miss. */
  predicate Matches(e: Entry, id: nat, kind: Kind) {
    && e.report.id == id
    && match kind
       case Any => true
       case Calling => e.report.step != STEP_PENDING
       case Progress => e.report.step == STEP_PROGRESS
       case Miss => e.report.step == STEP_DEADLINE_MISS
  }

  predicate None(es: seq<Entry>, id: nat, kind: Kind) {
    forall k :: 0 <= k < |es| ==> !Matches(es[k], id, kind)
  }

  /** The last entry of the kind. */
  predicate Last(es: seq<Entry>, k: nat, id: nat, kind: Kind) {
    k < |es| && Matches(es[k], id, kind) && forall j :: k < j < |es| ==> !Matches(es[j], id, kind)
  }

  function Count(es: seq<Entry>, id: nat, kind: Kind): nat {
    if es == [] then 0
    else Count(es[..|es| - 1], id, kind) + if Matches(es[|es| - 1], id, kind) then 1 else 0
  }

  function CalledFor(step: nat): HbState
    requires 1 <= step <= 4
  {
    match step
    case 1 => Pass
    case 2 => Warn
    case 3 => Fail
    case 4 => Fail
  }

  predicate Steps(es: seq<Entry>) {
    forall k :: 0 <= k < |es| ==> es[k].report.step <= STEP_DEADLINE_MISS && es[k].report.id != AES_GCM
  }

  ghost predicate SaysState(before: HbState, now: HbState, es: seq<Entry>, id: nat)
    requires Steps(es)
  {
    && (None(es, id, Calling) ==> now == before)
    && forall k: nat :: Last(es, k, id, Calling) ==> now == CalledFor(es[k].report.step)
  }

  ghost predicate SaysDetail(before: bv32, now: bv32, es: seq<Entry>, id: nat) {
    && (None(es, id, Any) ==> now == before)
    && forall k: nat :: Last(es, k, id, Any) ==> now == es[k].report.detail
  }

  ghost predicate SaysProgress(before: U32, now: U32, es: seq<Entry>, id: nat) {
    && (None(es, id, Progress) ==> now == before)
    && forall k: nat :: Last(es, k, id, Progress) ==> now == es[k].epoch
  }

  /** A record that was `before` when the account began says what the account calls for. */
  ghost predicate Says(before: IpHealth, now: IpHealth, es: seq<Entry>, id: nat)
    requires Steps(es)
  {
    && SaysState(before.state, now.state, es, id)
    && SaysDetail(before.detail, now.detail, es, id)
    && SaysProgress(before.lastProgress, now.lastProgress, es, id)
    && now.heartbeats == Low32(before.heartbeats + Count(es, id, Progress))
    && now.misses == Low32(before.misses + Count(es, id, Miss))
    && now.evidence == before.evidence
  }

  lemma CountOfMore(es: seq<Entry>, e: Entry, id: nat, kind: Kind)
    ensures Count(es + [e], id, kind) == Count(es, id, kind) + if Matches(e, id, kind) then 1 else 0
  {
    hide Matches;
    assert (es + [e])[..|es|] == es;
  }

  lemma LastOfMore(es: seq<Entry>, e: Entry, id: nat, kind: Kind)
    ensures Matches(e, id, kind) ==>
      !None(es + [e], id, kind) && forall k: nat :: Last(es + [e], k, id, kind) <==> k == |es|
    ensures !Matches(e, id, kind) ==>
      (None(es + [e], id, kind) <==> None(es, id, kind))
      && forall k: nat :: Last(es + [e], k, id, kind) <==> Last(es, k, id, kind)
  {
    hide Matches;
    var more := es + [e];
    assert more[|es|] == e && forall k :: 0 <= k < |es| ==> more[k] == es[k];
  }

  lemma StateOfMore(before: HbState, now: HbState, es: seq<Entry>, e: Entry, id: nat)
    requires Steps(es) && SaysState(before, now, es, id) && e.report.step <= 4 && e.report.id != AES_GCM
    ensures Steps(es + [e])
    ensures SaysState(before, if Matches(e, id, Calling) then CalledFor(e.report.step) else now, es + [e], id)
  {
    hide None, Last, Count;
    LastOfMore(es, e, id, Calling);
    LastIs(es, id, Calling);
  }

  lemma LastIs(es: seq<Entry>, id: nat, kind: Kind)
    ensures forall k: nat :: Last(es, k, id, kind) ==> k < |es|
  {
  }

  lemma DetailOfMore(before: bv32, now: bv32, es: seq<Entry>, e: Entry, id: nat)
    requires SaysDetail(before, now, es, id)
    ensures SaysDetail(before, if Matches(e, id, Any) then e.report.detail else now, es + [e], id)
  {
    hide None, Last, Count;
    LastOfMore(es, e, id, Any);
    LastIs(es, id, Any);
  }

  lemma ProgressOfMore(before: U32, now: U32, es: seq<Entry>, e: Entry, id: nat)
    requires SaysProgress(before, now, es, id)
    ensures SaysProgress(before, if Matches(e, id, Progress) then e.epoch else now, es + [e], id)
  {
    hide None, Last, Count;
    LastOfMore(es, e, id, Progress);
    LastIs(es, id, Progress);
  }

  lemma RecordOfMore(c: Core, r: Report, id: nat)
    requires c.Shape() && id < IP_COUNT && Accepts(c, r)
    ensures Reported(c, r).ip[id] == if r.id == id then NewRecord(c, r) else c.ip[id]
  {
    hide Fresh, WithBit;
  }

  lemma OneMoreSays(before: IpHealth, c: Core, es: seq<Entry>, r: Report, id: nat)
    requires c.Shape() && id < IP_COUNT && Steps(es) && Says(before, c.ip[id], es, id) && Accepts(c, r)
    ensures Steps(es + [Entry(r, c.epoch)]) && Says(before, Reported(c, r).ip[id], es + [Entry(r, c.epoch)], id)
  {
    hide Fresh, Reported, SaysState, SaysDetail, SaysProgress, Count, None, Last, Low32, Inc;
    var e := Entry(r, c.epoch);
    RecordOfMore(c, r, id);
    StateOfMore(before.state, c.ip[id].state, es, e, id);
    DetailOfMore(before.detail, c.ip[id].detail, es, e, id);
    ProgressOfMore(before.lastProgress, c.ip[id].lastProgress, es, e, id);
    CountOfMore(es, e, id, Progress);
    CountOfMore(es, e, id, Miss);
    IncOfLow(before.heartbeats + Count(es, id, Progress));
    IncOfLow(before.misses + Count(es, id, Miss));
  }

  // ---------------------------------------------------------------- over runs

  lemma IfTakenSays(before: IpHealth, c: Core, es: seq<Entry>, r: Report, id: nat)
    requires c.Shape() && id < IP_COUNT && Steps(es) && Says(before, c.ip[id], es, id)
    ensures Steps(es + IfTaken(c, r)) && Says(before, Reported(c, r).ip[id], es + IfTaken(c, r), id)
  {
    if Accepts(c, r) {
      hide Accepts, Reported, Says, Steps;
      OneMoreSays(before, c, es, r, id);
    } else {
      assert Reported(c, r) == c && es + [] == es;
    }
  }

  lemma OneOpSays(before: IpHealth, l: Ledger, es: seq<Entry>, op: Op, id: nat)
    requires l.core.Shape() && id < IP_COUNT && Steps(es) && Says(before, l.core.ip[id], es, id)
    ensures Steps(es + EntriesOf(l.core, op)) && Says(before, Apply(l, op).core.ip[id], es + EntriesOf(l.core, op), id)
  {
    hide Says, Steps, Reported, IfTaken, Taken, FreeSlot;
    match op {
      case DoReport(r) => IfTakenSays(before, l.core, es, r, id);
      case DoEpoch =>
        var e := Inc(l.core.epoch);
        IfTakenSays(before, l.core.(epoch := e), es, Report(SYSTEM_SERVICE, STEP_PROGRESS, e, 0), id);
      case _ => assert es + [] == es;
    }
  }

  /** Over every interleaving of reports of all ids, epochs, publications and releases, from any state of the core,
      each record says what its account calls for: its state is the one the last report taken for it, pending ones
      aside, stands for; its detail is that of the last one; its progress epoch is that of the last heartbeat; and
      its two counters count. */
  lemma {:induction false} RecordsSay(l: Ledger, ops: seq<Op>, id: nat)
    requires l.core.Shape() && id < IP_COUNT
    ensures Steps(Account(l, ops)) && Says(l.core.ip[id], Run(l, ops).core.ip[id], Account(l, ops), id)
  {
    hide Says, Steps, Apply, EntriesOf;
    if ops == [] {
      NothingSaid(l.core.ip[id], id);
    } else {
      var n := |ops| - 1;
      RecordsSay(l, ops[..n], id);
      OneOpSays(l.core.ip[id], Run(l, ops[..n]), Account(l, ops[..n]), ops[n], id);
    }
  }

  lemma NothingSaid(h: IpHealth, id: nat)
    ensures Steps([]) && Says(h, h, [], id)
  {
  }

  // ---------------------------------------------------------------- the sticky mask

  /** The record failed at some moment of the run, its first and its last included. */
  ghost predicate EverFailed(l: Ledger, ops: seq<Op>, id: nat)
    requires l.core.Shape() && id < IP_COUNT
  {
    exists m: nat :: FailedAt(l, ops, m, id)
  }

  /** It is failed after the first m operations. */
  predicate FailedAt(l: Ledger, ops: seq<Op>, m: nat, id: nat)
    requires l.core.Shape() && id < IP_COUNT
  {
    m <= |ops| && Run(l, ops[..m]).core.ip[id].state == Fail
  }

  predicate Booked(c: Core, id: nat)
    requires c.Shape() && id < IP_COUNT
  {
    c.ip[id].state == Fail ==> HasBit(c.sticky, id)
  }

  lemma ReportSticks(c: Core, r: Report, id: nat)
    requires c.Shape() && id < IP_COUNT && Booked(c, id)
    ensures var c' := Reported(c, r);
      Booked(c', id) && (HasBit(c'.sticky, id) <==> HasBit(c.sticky, id) || c'.ip[id].state == Fail)
  {
    hide HasBit, WithBit, Fresh;
    if Accepts(c, r) {
      WithBitTells(c.sticky, r.id, id);
    }
  }

  lemma OpSticks(l: Ledger, op: Op, id: nat)
    requires l.core.Shape() && id < IP_COUNT && Booked(l.core, id)
    ensures var c := Apply(l, op).core;
      Booked(c, id) && (HasBit(c.sticky, id) <==> HasBit(l.core.sticky, id) || c.ip[id].state == Fail)
  {
    hide HasBit, Reported, Taken, FreeSlot;
    match op {
      case DoReport(r) => ReportSticks(l.core, r, id);
      case DoEpoch =>
        var e := Inc(l.core.epoch);
        ReportSticks(l.core.(epoch := e), Report(SYSTEM_SERVICE, STEP_PROGRESS, e, 0), id);
      case _ =>
    }
  }

  lemma FailedBefore(l: Ledger, ops: seq<Op>, m: nat, id: nat)
    requires l.core.Shape() && id < IP_COUNT && ops != []
    ensures m < |ops| ==> (FailedAt(l, ops, m, id) <==> FailedAt(l, ops[..|ops| - 1], m, id))
    ensures m >= |ops| ==> !FailedAt(l, ops[..|ops| - 1], m, id)
    ensures m >= |ops| ==> (FailedAt(l, ops, m, id) <==> m == |ops| && Run(l, ops).core.ip[id].state == Fail)
  {
    hide Run;
    if m < |ops| {
      assert ops[..|ops| - 1][..m] == ops[..m];
    }
    assert ops[..|ops|] == ops;
  }

  lemma EverFailedMore(l: Ledger, ops: seq<Op>, id: nat)
    requires l.core.Shape() && id < IP_COUNT && ops != []
    ensures EverFailed(l, ops, id) <==>
      EverFailed(l, ops[..|ops| - 1], id) || Run(l, ops).core.ip[id].state == Fail
  {
    hide Run, FailedAt;
    FailedBefore(l, ops, |ops|, id);
    if EverFailed(l, ops[..|ops| - 1], id) {
      var m: nat :| FailedAt(l, ops[..|ops| - 1], m, id);
      FailedBefore(l, ops, m, id);
    }
    if EverFailed(l, ops, id) {
      var m: nat :| FailedAt(l, ops, m, id);
      FailedBefore(l, ops, m, id);
    }
  }

  /** The sticky mask has the bit of an id exactly if it had it at first or the record ever failed; the fresh core
      has none. */
  lemma {:induction false} StickyTells(l: Ledger, ops: seq<Op>, id: nat)
    requires l.core.Shape() && id < IP_COUNT && Booked(l.core, id)
    ensures var c := Run(l, ops).core;
      Booked(c, id) && (HasBit(c.sticky, id) <==> HasBit(l.core.sticky, id) || EverFailed(l, ops, id))
    ensures Initial(l.core) ==> !HasBit(l.core.sticky, id)
  {
    hide HasBit, Apply, EverFailed;
    NoBitsAtFirst(l.core, id);
    if ops == [] {
      NeverRun(l, id);
    } else {
      var n := |ops| - 1;
      StickyTells(l, ops[..n], id);
      OpSticks(Run(l, ops[..n]), ops[n], id);
      EverFailedMore(l, ops, id);
    }
  }

  lemma NeverRun(l: Ledger, id: nat)
    requires l.core.Shape() && id < IP_COUNT
    ensures EverFailed(l, [], id) <==> l.core.ip[id].state == Fail
  {
    var none: seq<Op> := [];
    assert none[..0] == [] && FailedAt(l, none, 0, id) == (l.core.ip[id].state == Fail);
  }

  lemma NoBitsAtFirst(c: Core, id: nat)
    requires c.Shape() && id < IP_COUNT
    ensures Initial(c) ==> !HasBit(c.sticky, id)
  {
    hide HasBit;
    NoBits(id);
  }

  // ---------------------------------------------------------------- from a fresh core to a snapshot

  /** The kinds of evidence of the twelve records. */
  const EVIDENCE: seq<bv32> := [0, 0, 1, 1, 0, 0, 2, 0, 4, 3, 3, 7]

  function FreshRecord(id: nat): IpHealth
    requires id < IP_COUNT
  {
    IpHealth(if id == AES_GCM then Excluded else Unknown, EVIDENCE[id], 0, 0, 0,
             if id == AES_GCM then 0x41455358 else 0x4e4f5451)
  }

  lemma FreshRecordIs(id: nat)
    requires id < IP_COUNT
    ensures InitialRecord(id) == FreshRecord(id)
  {
  }

  function Epochs(ops: seq<Op>): nat {
    if ops == [] then 0 else Epochs(ops[..|ops| - 1]) + if ops[|ops| - 1].DoEpoch? then 1 else 0
  }

  /** The publications that found both slots leased. */
  function Refused(l: Ledger, ops: seq<Op>): nat
    requires l.core.Shape()
  {
    if ops == [] then 0
    else
      var n := |ops| - 1;
      Refused(l, ops[..n]) + if ops[n].DoPublish? && FreeSlot(Run(l, ops[..n]).core) == 2 then 1 else 0
  }

  /** The epochs of the snapshots an observer has completed, in order. */
  function Completed(l: Ledger, ops: seq<Op>, o: Observer): seq<U32>
    requires l.core.Shape()
  {
    if ops == [] then []
    else
      var n := |ops| - 1;
      var c := Run(l, ops[..n]).core;
      Completed(l, ops[..n], o) +
      match ops[n]
      case DoRelease(i, p, done) => if p == o && done && Leased(c, i, o) then [c.slot[i].snapshot.epoch] else []
      case _ => []
  }

  function LastOr(s: seq<U32>, x: U32): U32 {
    if s == [] then x else s[|s| - 1]
  }

  /** The counters of the core itself: epochs begun, publications refused, and for each observer the epoch of the
      snapshot it completed last. */
  ghost predicate CountersTell(l: Ledger, ops: seq<Op>)
    requires l.core.Shape()
  {
    var c := Run(l, ops).core;
    && c.epoch == Low32(l.core.epoch + Epochs(ops))
    && c.backlog == Low32(l.core.backlog + Refused(l, ops))
    && c.last.vga == LastOr(Completed(l, ops, Vga), l.core.last.vga)
    && c.last.uart == LastOr(Completed(l, ops, Uart), l.core.last.uart)
  }

  lemma {:induction false} CoreCounts(l: Ledger, ops: seq<Op>)
    requires l.core.Shape()
    ensures CountersTell(l, ops)
  {
    hide Reported, Taken, FreeSlot, Leased;
    if ops == [] {
      LowOfWord(l.core.epoch);
      LowOfWord(l.core.backlog);
    } else {
      var n := |ops| - 1;
      CoreCounts(l, ops[..n]);
      hide Low32, Inc;
      OneOpCounts(Run(l, ops[..n]).core, Run(l, ops[..n]), ops[n]);
      IncOfLow(l.core.epoch + Epochs(ops[..n]));
      IncOfLow(l.core.backlog + Refused(l, ops[..n]));
    }
  }

  lemma LowOfWord(x: U32)
    ensures Low32(x) == x
  {
  }

  lemma OneOpCounts(c: Core, l: Ledger, op: Op)
    requires c.Shape() && c == l.core
    ensures var d := Apply(l, op).core;
      && d.epoch == (if op.DoEpoch? then Inc(c.epoch) else c.epoch)
      && d.backlog == (if op.DoPublish? && FreeSlot(c) == 2 then Inc(c.backlog) else c.backlog)
      && d.last.vga == (if op.DoRelease? && op.observer.Vga? && op.completed && Leased(c, op.slot, Vga)
                        then c.slot[op.slot].snapshot.epoch else c.last.vga)
      && d.last.uart == (if op.DoRelease? && op.observer.Uart? && op.completed && Leased(c, op.slot, Uart)
                         then c.slot[op.slot].snapshot.epoch else c.last.uart)
  {
    hide Reported, Taken, FreeSlot;
    match op {
      case DoReport(r) => ReportedKeepsStore(c, r);
      case DoEpoch =>
        var e := Inc(c.epoch);
        ReportedKeepsStore(c.(epoch := e), Report(SYSTEM_SERVICE, STEP_PROGRESS, e, 0));
      case _ =>
    }
  }

  function Begun(c: Core): Ledger {
    Ledger(c, 0, HealthRuns.Counts(0, 0), HealthRuns.Counts(0, 0))
  }

  /** What a snapshot says of the run from power-up to its publication. */
  ghost predicate Tells(s: Snapshot, c: Core, ops: seq<Op>)
    requires c.Shape()
  {
    var l := Run(Begun(c), ops);
    && |s.ip| == IP_COUNT && s.epoch == Low32(Epochs(ops)) && s.publicationId == Low32(l.published + 1)
    && s.backlog == Low32(Refused(Begun(c), ops))
    && s.misses == PerObserver(Low32(l.missed.vga), Low32(l.missed.uart))
    && s.last.vga == LastOr(Completed(Begun(c), ops, Vga), 0)
    && s.last.uart == LastOr(Completed(Begun(c), ops, Uart), 0)
    && (forall id: nat :: id < IP_COUNT ==>
          && Steps(Account(Begun(c), ops)) && Says(FreshRecord(id), s.ip[id], Account(Begun(c), ops), id)
          && (HasBit(s.stickyFailMask, id) <==> EverFailed(Begun(c), ops, id)))
    && MasksTell(s)
  }

  lemma BegunIs(c: Core)
    requires Initial(c)
    ensures Kept(Begun(c))
    ensures forall id: nat :: id < IP_COUNT ==> c.ip[id] == FreshRecord(id) && Booked(c, id)
  {
    hide Kept;
    InitialKept(c);
    forall id: nat | id < IP_COUNT
      ensures c.ip[id] == FreshRecord(id) && Booked(c, id)
    {
      FreshRecordIs(id);
    }
  }

  lemma CountersFresh(c: Core, ops: seq<Op>)
    requires Initial(c)
    ensures var d := Run(Begun(c), ops).core;
      && d.epoch == Low32(Epochs(ops)) && d.backlog == Low32(Refused(Begun(c), ops))
      && d.last.vga == LastOr(Completed(Begun(c), ops, Vga), 0)
      && d.last.uart == LastOr(Completed(Begun(c), ops, Uart), 0)
  {
    hide Initial, Run, Low32, Refused, Completed, Epochs, LastOr;
    ZerosAtFirst(c);
    CoreCounts(Begun(c), ops);
  }

  lemma ZerosAtFirst(c: Core)
    requires Initial(c)
    ensures c.Shape() && c.epoch == c.backlog == c.last.vga == c.last.uart == 0
  {
  }

  lemma KeptBooks(l: Ledger)
    requires Kept(l)
    ensures l.core.Shape() && RecordsKept(l.core) && l.core.publicationId == Low32(l.published)
    ensures l.core.misses == PerObserver(Low32(l.missed.vga), Low32(l.missed.uart))
  {
    hide RecordsKept, LeasedTell, Outstanding, Low32;
    assert l.core.misses.Of(Vga) == Low32(l.missed.Of(Vga)) && l.core.misses.Of(Uart) == Low32(l.missed.Of(Uart));
  }

  lemma TakenFields(c: Core)
    requires c.Shape()
    ensures var s := Taken(c);
      && s.ip == c.ip && s.epoch == c.epoch && s.publicationId == Inc(c.publicationId) && s.stickyFailMask == c.sticky
      && s.backlog == c.backlog && s.misses == c.misses && s.last == c.last
  {
    hide StateMask, Signature, Inc;
  }

  /** From power-up on, whatever has been reported, published and released: the snapshot a publication takes tells
      the number of epochs, publications, refused publications and misses so far, the epochs of the reports last
      completed, of every record what the reports taken call for, and which records ever failed. */
  lemma PublicationTells(c: Core, ops: seq<Op>)
    requires Initial(c)
    ensures Tells(Taken(Run(Begun(c), ops).core), c, ops)
  {
    hide Run, Kept, Says, Steps, EverFailed, HasBit, Account, MasksTell, FreshRecord, Refused, Completed,
      Low32, Inc, Epochs, RecordsKept, Taken, LastOr;
    var l := Run(Begun(c), ops);
    BegunIs(c);
    CountersFresh(c, ops);
    RunKept(Begun(c), ops);
    KeptBooks(l);
    IncOfLow(l.published);
    TakenTells(l.core);
    forall id: nat | id < IP_COUNT
      ensures Steps(Account(Begun(c), ops)) && Says(FreshRecord(id), l.core.ip[id], Account(Begun(c), ops), id)
      ensures HasBit(l.core.sticky, id) <==> EverFailed(Begun(c), ops, id)
    {
      RecordsSay(Begun(c), ops, id);
      StickyTells(Begun(c), ops, id);
    }
    TakenFields(l.core);
  }
}
