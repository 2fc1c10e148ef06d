/** What every interleaving of the core's operations keeps. */
module HealthRuns {
  import opened Words
  import opened Health

  datatype Op =
    | DoReport(r: Report)
    | DoEpoch
    | DoPublish
    | DoRelease(slot: nat, observer: Observer, completed: bool)

  /** The core together with true, unbounded counts of what happened to it. */
  datatype Ledger = Ledger(core: Core, published: nat, completed: Counts, missed: Counts)

  datatype Counts = Counts(vga: nat, uart: nat)
  {
    function Of(o: Observer): nat {
      match o
      case Vga => vga
      case Uart => uart
    }

    function Bumped(o: Observer): Counts {
      match o
      case Vga => Counts(vga + 1, uart)
      case Uart => Counts(vga, uart + 1)
    }
  }

  function Apply(l: Ledger, op: Op): (l': Ledger)
    requires l.core.Shape()
    ensures l'.core.Shape()
  {
    match op
    case DoReport(r) => l.(core := Reported(l.core, r))
    case DoEpoch => l.(core := EpochBegun(l.core))
    case DoPublish =>
      l.(core := Published(l.core), published := if FreeSlot(l.core) < 2 then l.published + 1 else l.published)
    case DoRelease(i, o, done) =>
      l.(core := Released(l.core, i, o, done),
         completed := if Leased(l.core, i, o) && done then l.completed.Bumped(o) else l.completed,
         missed := if Leased(l.core, i, o) && !done then l.missed.Bumped(o) else l.missed)
  }

  function Run(l: Ledger, ops: seq<Op>): (l': Ledger)
    requires l.core.Shape()
    ensures l'.core.Shape()
  {
    if ops == [] then l else Apply(Run(l, ops[..|ops| - 1]), ops[|ops| - 1])
  }

  /** How many slots the observer still holds. */
  function Outstanding(c: Core, o: Observer): nat
    requires c.Shape()
  {
    (if c.slot[0].readers.Has(o) then 1 else 0) + (if c.slot[1].readers.Has(o) then 1 else 0)
  }

  predicate Meets(a: bv32, b: bv32) {
    And(a, b) != 0
  }

  predicate HasBit(mask: bv32, id: nat)
    requires id < IP_COUNT
  {
    Meets(mask, IdBit(id))
  }

  /** Every publication is completed, missed or outstanding, for each observer. */
  ghost predicate Balanced(l: Ledger)
    requires l.core.Shape()
  {
    forall o: Observer ::
      && l.published == l.completed.Of(o) + l.missed.Of(o) + Outstanding(l.core, o)
      && l.core.misses.Of(o) == Low32(l.missed.Of(o))
  }

  /** The excluded record stays excluded, no other is, and every failing record is in the sticky
      mask. */
  ghost predicate RecordsKept(c: Core)
    requires c.Shape()
  {
    forall i :: 0 <= i < IP_COUNT ==>
      && (c.ip[i].state == Excluded <==> i == AES_GCM)
      && (c.ip[i].state == Fail ==> HasBit(c.sticky, i))
  }

  /** The mask of the ids among the first n that are in any state but Unknown. */
  function KnownMask(ip: seq<IpHealth>, n: nat): bv32
    requires n <= |ip| == IP_COUNT
  {
    if n == 0 then 0
    else if ip[n - 1].state != Unknown then WithBit(KnownMask(ip, n - 1), n - 1)
    else KnownMask(ip, n - 1)
  }

  /** No id is in two masks, together they are the ids in a known state, and every failing id is
      sticky: as whole words, bits beyond the ids included. */
  predicate MasksPart(s: Snapshot)
    requires |s.ip| == IP_COUNT
  {
    && And(s.passMask, s.warnMask) == 0 && And(s.passMask, s.failMask) == 0 && And(s.warnMask, s.failMask) == 0
    && And(s.passMask, s.excludedMask) == 0 && And(s.warnMask, s.excludedMask) == 0
    && And(s.failMask, s.excludedMask) == 0
    && Or(Or(s.passMask, s.warnMask), Or(s.failMask, s.excludedMask)) == KnownMask(s.ip, IP_COUNT)
    && And(s.failMask, s.stickyFailMask) == s.failMask
  }

  /** A snapshot's masks name exactly the records in that state. */
  ghost predicate MasksTell(s: Snapshot)
    requires |s.ip| == IP_COUNT
  {
    && MasksPart(s)
    && (forall i :: 0 <= i < IP_COUNT ==>
         && (HasBit(s.passMask, i) <==> s.ip[i].state == Pass)
         && (HasBit(s.warnMask, i) <==> s.ip[i].state == Warn)
         && (HasBit(s.failMask, i) <==> s.ip[i].state == Fail)
         && (HasBit(s.failMask, i) ==> HasBit(s.stickyFailMask, i)))
    && s.excludedMask == 0x800
    && s.signature == Signature(s)
  }

  ghost predicate LeasedTell(c: Core)
    requires c.Shape()
  {
    forall j :: 0 <= j < 2 && !c.slot[j].readers.None() ==>
      |c.slot[j].snapshot.ip| == IP_COUNT && MasksTell(c.slot[j].snapshot)
  }

  ghost predicate Kept(l: Ledger) {
    && l.core.Shape()
    && Balanced(l)
    && l.core.publicationId == Low32(l.published)
    && RecordsKept(l.core)
    && LeasedTell(l.core)
  }

  lemma InitialKept(c: Core)
    requires Initial(c)
    ensures Kept(Ledger(c, 0, Counts(0, 0), Counts(0, 0)))
  {
  }

  // ---------------------------------------------------------------- masks

  lemma AndOfOr(m: bv32, b: bv32, x: bv32)
    ensures And(Or(m, b), x) == Or(And(m, x), And(b, x))
  {
  }

  lemma OrIsZero(p: bv32, q: bv32)
    ensures Or(p, q) == 0 <==> p == 0 && q == 0
  {
  }

  lemma OrMeets(m: bv32, b: bv32, x: bv32)
    ensures Meets(Or(m, b), x) <==> Meets(m, x) || Meets(b, x)
  {
    hide And, Or;
    AndOfOr(m, b, x);
    OrIsZero(And(m, x), And(b, x));
  }

  predicate Single(b: bv32) {
    b != 0 && b & (b - 1) == 0
  }

  lemma IdBitIsSingle(id: nat)
    requires id < IP_COUNT
    ensures Single(IdBit(id))
  {
  }

  lemma SinglesMeet(b: bv32, x: bv32)
    requires Single(b) && Single(x)
    ensures Meets(b, x) <==> b == x
  {
  }

  lemma OrBit(m: bv32, b: bv32, x: bv32)
    requires Single(b) && Single(x)
    ensures Meets(Or(m, b), x) <==> Meets(m, x) || b == x
  {
    hide Single, Or, Meets;
    OrMeets(m, b, x);
    SinglesMeet(b, x);
  }

  lemma IdBitsDiffer(i: nat, j: nat)
    requires i < IP_COUNT && j < IP_COUNT
    ensures IdBit(i) == IdBit(j) <==> i == j
  {
  }

  /** Setting a bit sets that bit and no other. */
  lemma WithBitTells(mask: bv32, id: nat, i: nat)
    requires id < IP_COUNT && i < IP_COUNT
    ensures HasBit(WithBit(mask, id), i) <==> HasBit(mask, i) || i == id
  {
    hide IdBit, Single, Or, Meets;
    IdBitIsSingle(id);
    IdBitIsSingle(i);
    OrBit(mask, IdBit(id), IdBit(i));
    IdBitsDiffer(id, i);
  }

  lemma NoBits(i: nat)
    requires i < IP_COUNT
    ensures !HasBit(0, i)
  {
  }

  lemma {:induction false} StateMaskTells(ip: seq<IpHealth>, st: HbState, n: nat, i: nat)
    requires n <= |ip| == IP_COUNT && i < IP_COUNT
    ensures HasBit(StateMask(ip, st, n), i) <==> i < n && ip[i].state == st
  {
    hide HasBit, WithBit;
    if n == 0 {
      NoBits(i);
    } else {
      StateMaskTells(ip, st, n - 1, i);
      WithBitTells(StateMask(ip, st, n - 1), n - 1, i);
    }
  }

  lemma {:induction false} NoneInState(ip: seq<IpHealth>, st: HbState, n: nat)
    requires n <= |ip| == IP_COUNT
    requires forall i :: 0 <= i < n ==> ip[i].state != st
    ensures StateMask(ip, st, n) == 0
  {
    if n > 0 {
      NoneInState(ip, st, n - 1);
    }
  }

  // ---------------------------------------------------------------- masks as whole words

  /** Only the bits of the ids can be set. */
  predicate Narrow(m: bv32) {
    m & 0xfffff000 == 0
  }

  lemma WithBitNarrow(m: bv32, id: nat)
    requires id < IP_COUNT && Narrow(m)
    ensures Narrow(WithBit(m, id))
  {
  }

  lemma {:induction false} StateMaskNarrow(ip: seq<IpHealth>, st: HbState, n: nat)
    requires n <= |ip| == IP_COUNT
    ensures Narrow(StateMask(ip, st, n))
  {
    hide Narrow, WithBit;
    if n == 0 {
      ZeroNarrow();
    } else {
      StateMaskNarrow(ip, st, n - 1);
      WithBitNarrow(StateMask(ip, st, n - 1), n - 1);
    }
  }

  lemma {:induction false} KnownMaskTells(ip: seq<IpHealth>, n: nat)
    requires n <= |ip| == IP_COUNT
    ensures Narrow(KnownMask(ip, n))
    ensures forall i :: 0 <= i < IP_COUNT ==> (HasBit(KnownMask(ip, n), i) <==> i < n && ip[i].state != Unknown)
  {
    hide Narrow, HasBit, WithBit;
    if n == 0 {
      ZeroNarrow();
    } else {
      KnownMaskTells(ip, n - 1);
      WithBitNarrow(KnownMask(ip, n - 1), n - 1);
    }
    forall i | 0 <= i < IP_COUNT
      ensures HasBit(KnownMask(ip, n), i) <==> i < n && ip[i].state != Unknown
    {
      if n == 0 {
        NoBits(i);
      } else {
        WithBitTells(KnownMask(ip, n - 1), n - 1, i);
      }
    }
  }

  lemma ZeroNarrow()
    ensures Narrow(0)
  {
  }

  lemma BitOfAnd(a: bv32, b: bv32, i: nat)
    requires i < IP_COUNT
    ensures HasBit(And(a, b), i) <==> HasBit(a, i) && HasBit(b, i)
  {
    match i {
      case 0 => case 1 => case 2 => case 3 => case 4 => case 5 =>
      case 6 => case 7 => case 8 => case 9 => case 10 => case 11 =>
    }
  }

  lemma BitOfOr(a: bv32, b: bv32, i: nat)
    requires i < IP_COUNT
    ensures HasBit(Or(a, b), i) <==> HasBit(a, i) || HasBit(b, i)
  {
    hide Meets, IdBit, Or;
    OrMeets(a, b, IdBit(i));
  }

  lemma Narrowed(a: bv32, b: bv32)
    requires Narrow(a)
    ensures Narrow(And(a, b)) && Narrow(And(b, a)) && (Narrow(b) ==> Narrow(Or(a, b)))
  {
  }

  lemma OneBit(a: bv32, i: nat)
    requires i < IP_COUNT
    ensures And(a, IdBit(i)) == if HasBit(a, i) then IdBit(i) else 0
  {
    match i {
      case 0 => case 1 => case 2 => case 3 => case 4 => case 5 =>
      case 6 => case 7 => case 8 => case 9 => case 10 => case 11 =>
    }
  }

  lemma BitByBit(a: bv32, b: bv32)
    requires Narrow(a) && Narrow(b) && forall i :: 0 <= i < IP_COUNT ==> And(a, IdBit(i)) == And(b, IdBit(i))
    ensures a == b
  {
    assert And(a, IdBit(0)) == And(b, IdBit(0)) && And(a, IdBit(1)) == And(b, IdBit(1));
    assert And(a, IdBit(2)) == And(b, IdBit(2)) && And(a, IdBit(3)) == And(b, IdBit(3));
    assert And(a, IdBit(4)) == And(b, IdBit(4)) && And(a, IdBit(5)) == And(b, IdBit(5));
    assert And(a, IdBit(6)) == And(b, IdBit(6)) && And(a, IdBit(7)) == And(b, IdBit(7));
    assert And(a, IdBit(8)) == And(b, IdBit(8)) && And(a, IdBit(9)) == And(b, IdBit(9));
    assert And(a, IdBit(10)) == And(b, IdBit(10)) && And(a, IdBit(11)) == And(b, IdBit(11));
  }

  /** Masks are determined by the ids in them. */
  lemma MaskDetermined(a: bv32, b: bv32)
    requires Narrow(a) && Narrow(b) && forall i :: 0 <= i < IP_COUNT ==> (HasBit(a, i) <==> HasBit(b, i))
    ensures a == b
  {
    hide Narrow, And, HasBit, IdBit;
    forall i | 0 <= i < IP_COUNT
      ensures And(a, IdBit(i)) == And(b, IdBit(i))
    {
      assert HasBit(a, i) <==> HasBit(b, i);
      OneBit(a, i);
      OneBit(b, i);
    }
    BitByBit(a, b);
  }

  lemma StatesApart(ip: seq<IpHealth>, st: HbState, tt: HbState)
    requires |ip| == IP_COUNT && st != tt
    ensures And(StateMask(ip, st, IP_COUNT), StateMask(ip, tt, IP_COUNT)) == 0
  {
    hide StateMask, HasBit, Narrow, And;
    var a, b := StateMask(ip, st, IP_COUNT), StateMask(ip, tt, IP_COUNT);
    StateMaskNarrow(ip, st, IP_COUNT);
    Narrowed(a, b);
    ZeroNarrow();
    forall i | 0 <= i < IP_COUNT
      ensures HasBit(And(a, b), i) <==> HasBit(0, i)
    {
      StateMaskTells(ip, st, IP_COUNT, i);
      StateMaskTells(ip, tt, IP_COUNT, i);
      BitOfAnd(a, b, i);
      NoBits(i);
    }
    MaskDetermined(And(a, b), 0);
  }

  lemma StatesTogether(ip: seq<IpHealth>)
    requires |ip| == IP_COUNT
    ensures Or(Or(StateMask(ip, Pass, 12), StateMask(ip, Warn, 12)),
      Or(StateMask(ip, Fail, 12), StateMask(ip, Excluded, 12)))
         == KnownMask(ip, IP_COUNT)
  {
    hide StateMask, KnownMask, HasBit, Narrow, Or;
    var p, w := StateMask(ip, Pass, 12), StateMask(ip, Warn, 12);
    var f, x := StateMask(ip, Fail, 12), StateMask(ip, Excluded, 12);
    StateMaskNarrow(ip, Pass, 12);
    StateMaskNarrow(ip, Warn, 12);
    StateMaskNarrow(ip, Fail, 12);
    StateMaskNarrow(ip, Excluded, 12);
    Narrowed(p, w);
    Narrowed(f, x);
    Narrowed(Or(p, w), Or(f, x));
    KnownMaskTells(ip, IP_COUNT);
    forall i | 0 <= i < IP_COUNT
      ensures HasBit(Or(Or(p, w), Or(f, x)), i) <==> HasBit(KnownMask(ip, IP_COUNT), i)
    {
      StateMaskTells(ip, Pass, 12, i);
      StateMaskTells(ip, Warn, 12, i);
      StateMaskTells(ip, Fail, 12, i);
      StateMaskTells(ip, Excluded, 12, i);
      BitOfOr(p, w, i);
      BitOfOr(f, x, i);
      BitOfOr(Or(p, w), Or(f, x), i);
    }
    MaskDetermined(Or(Or(p, w), Or(f, x)), KnownMask(ip, IP_COUNT));
  }

  lemma FailuresSticky(c: Core)
    requires c.Shape() && RecordsKept(c)
    ensures And(StateMask(c.ip, Fail, 12), c.sticky) == StateMask(c.ip, Fail, 12)
  {
    hide StateMask, HasBit, Narrow, And;
    var f := StateMask(c.ip, Fail, 12);
    StateMaskNarrow(c.ip, Fail, 12);
    Narrowed(f, c.sticky);
    forall i | 0 <= i < IP_COUNT
      ensures HasBit(And(f, c.sticky), i) <==> HasBit(f, i)
    {
      StateMaskTells(c.ip, Fail, 12, i);
      BitOfAnd(f, c.sticky, i);
    }
    MaskDetermined(And(f, c.sticky), f);
  }

  lemma TakenParts(c: Core)
    requires c.Shape() && RecordsKept(c)
    ensures MasksPart(Taken(c))
  {
    hide StateMask, KnownMask, And, Or, Signature, RecordsKept;
    StatesApart(c.ip, Pass, Warn);
    StatesApart(c.ip, Pass, Fail);
    StatesApart(c.ip, Warn, Fail);
    StatesApart(c.ip, Pass, Excluded);
    StatesApart(c.ip, Warn, Excluded);
    StatesApart(c.ip, Fail, Excluded);
    StatesTogether(c.ip);
    FailuresSticky(c);
  }

  lemma TakenTells(c: Core)
    requires c.Shape() && RecordsKept(c)
    ensures MasksTell(Taken(c))
  {
    hide IdBit, StateMask, Signature, MasksPart;
    TakenParts(c);
    forall i | 0 <= i < IP_COUNT
      ensures HasBit(StateMask(c.ip, Pass, 12), i) <==> c.ip[i].state == Pass
      ensures HasBit(StateMask(c.ip, Warn, 12), i) <==> c.ip[i].state == Warn
      ensures HasBit(StateMask(c.ip, Fail, 12), i) <==> c.ip[i].state == Fail
    {
      StateMaskTells(c.ip, Pass, 12, i);
      StateMaskTells(c.ip, Warn, 12, i);
      StateMaskTells(c.ip, Fail, 12, i);
    }
    ExcludedIsAes(c);
    SignatureIgnoresItself(Taken(c));
  }

  lemma ExcludedIsAes(c: Core)
    requires c.Shape() && RecordsKept(c)
    ensures StateMask(c.ip, Excluded, 12) == 0x800
  {
    NoneInState(c.ip, Excluded, 11);
  }

  lemma SignatureIgnoresItself(s: Snapshot)
    requires |s.ip| == IP_COUNT
    ensures Signature(s.(signature := 0)) == Signature(s)
  {
  }

  // ---------------------------------------------------------------- what each operation keeps

  /** A report touches records, tokens and the sticky mask, never the snapshot store. */
  lemma ReportKeeps(c: Core, r: Report)
    requires c.Shape() && RecordsKept(c)
    ensures RecordsKept(Reported(c, r))
  {
    var c' := Reported(c, r);
    if Accepts(c, r) {
      hide WithBit, HasBit, NewRecord, Accepts;
      assert r.id < IP_COUNT && r.id != AES_GCM;
      forall i | 0 <= i < IP_COUNT
        ensures (c'.ip[i].state == Excluded <==> i == AES_GCM) && (c'.ip[i].state == Fail ==> HasBit(c'.sticky, i))
      {
        WithBitTells(c.sticky, r.id, i);
      }
    }
  }

  lemma ReportedKeepsStore(c: Core, r: Report)
    requires c.Shape()
    ensures var c' := Reported(c, r);
      && c'.slot == c.slot && c'.nextSlot == c.nextSlot && c'.publicationId == c.publicationId
      && c'.misses == c.misses && c'.epoch == c.epoch && c'.last == c.last && c'.backlog == c.backlog
  {
  }

  lemma ReportOpKept(l: Ledger, r: Report)
    requires Kept(l)
    ensures Kept(l.(core := Reported(l.core, r)))
  {
    hide Reported, RecordsKept, MasksTell;
    ReportKeeps(l.core, r);
    ReportedKeepsStore(l.core, r);
    var l' := l.(core := Reported(l.core, r));
    forall o: Observer
      ensures Outstanding(l'.core, o) == Outstanding(l.core, o)
    {
    }
  }

  lemma EpochOpKept(l: Ledger)
    requires Kept(l)
    ensures Kept(Apply(l, DoEpoch))
  {
    var c := l.core.(epoch := Inc(l.core.epoch));
    assert Kept(l.(core := c)) by {
      hide MasksTell;
    }
    hide Reported, Kept;
    ReportOpKept(l.(core := c), Report(SYSTEM_SERVICE, STEP_PROGRESS, c.epoch, 0));
  }

  lemma PublishOpKept(l: Ledger)
    requires Kept(l)
    ensures Kept(Apply(l, DoPublish))
  {
    hide MasksTell, RecordsKept, Taken;
    var i := FreeSlot(l.core);
    var c' := Published(l.core);
    assert RecordsKept(c') by {
      RecordsOnly(l.core, c');
    }
    if i < 2 {
      TakenTells(l.core);
      IncOfLow(l.published);
      forall o: Observer
        ensures Outstanding(c', o) == Outstanding(l.core, o) + 1
      {
      }
    }
  }

  lemma RecordsOnly(c: Core, d: Core)
    requires c.Shape() && d.Shape() && c.ip == d.ip && c.sticky == d.sticky
    ensures RecordsKept(c) ==> RecordsKept(d)
  {
  }

  lemma ReleasedCounts(c: Core, i: nat, o: Observer, done: bool, p: Observer)
    requires c.Shape() && Leased(c, i, o)
    ensures var c' := Released(c, i, o, done);
      && Outstanding(c', p) == Outstanding(c, p) - (if p == o then 1 else 0)
      && c'.misses.Of(p) == if p == o && !done then Inc(c.misses.Of(p)) else c.misses.Of(p)
  {
  }

  lemma ReleasedKeeps(c: Core, i: nat, o: Observer, done: bool)
    requires c.Shape()
    ensures var c' := Released(c, i, o, done);
      && c'.ip == c.ip && c'.sticky == c.sticky && c'.publicationId == c.publicationId
      && (forall j :: 0 <= j < 2 ==> c'.slot[j].snapshot == c.slot[j].snapshot)
      && (forall j :: 0 <= j < 2 && !c'.slot[j].readers.None() ==> !c.slot[j].readers.None())
      && (!Leased(c, i, o) ==> c' == c)
  {
  }

  lemma ReleaseOpKept(l: Ledger, i: nat, o: Observer, done: bool)
    requires Kept(l)
    ensures Kept(Apply(l, DoRelease(i, o, done)))
  {
    hide MasksTell, RecordsKept, Released, Leased, Outstanding;
    var l' := Apply(l, DoRelease(i, o, done));
    ReleasedKeeps(l.core, i, o, done);
    RecordsOnly(l.core, l'.core);
    if Leased(l.core, i, o) {
      IncOfLow(l.missed.Of(o));
      ReleasedCounts(l.core, i, o, done, Vga);
      ReleasedCounts(l.core, i, o, done, Uart);
    }
  }

  lemma {:induction false} RunKept(l: Ledger, ops: seq<Op>)
    requires Kept(l)
    ensures Kept(Run(l, ops))
  {
    hide Balanced, RecordsKept, LeasedTell, Apply;
    if ops != [] {
      var n := |ops| - 1;
      RunKept(l, ops[..n]);
      ApplyKept(Run(l, ops[..n]), ops[n]);
    }
  }

  lemma ApplyKept(l: Ledger, op: Op)
    requires Kept(l)
    ensures Kept(Apply(l, op))
  {
    hide Reported, EpochBegun, Published, Released, FreeSlot, Leased, Balanced, RecordsKept, LeasedTell;
    match op {
      case DoReport(r) => ReportOpKept(l, r);
      case DoEpoch => EpochOpKept(l);
      case DoPublish => PublishOpKept(l);
      case DoRelease(i, o, done) => ReleaseOpKept(l, i, o, done);
    }
  }

  /** From power-up, over any interleaving of reports, epochs, publications and releases:
      publication ids count the publications, every publication is completed, missed or outstanding
      for each observer, no record is wrongly excluded, every failure is sticky, and the masks of a
      leased snapshot name exactly the records in each state. */
  lemma EveryRunKept(c: Core, ops: seq<Op>)
    requires Initial(c)
    ensures Kept(Run(Ledger(c, 0, Counts(0, 0), Counts(0, 0)), ops))
  {
    hide Balanced, RecordsKept, LeasedTell, Run;
    InitialKept(c);
    RunKept(Ledger(c, 0, Counts(0, 0), Counts(0, 0)), ops);
  }

  // ---------------------------------------------------------------- leased snapshots are frozen

  ghost predicate Frozen(c: Core, d: Core, j: nat)
    requires c.Shape() && d.Shape() && j < 2
  {
    !c.slot[j].readers.None() ==> d.slot[j].snapshot == c.slot[j].snapshot
  }

  lemma StepFrozen(l: Ledger, op: Op, j: nat)
    requires l.core.Shape() && j < 2
    ensures Frozen(l.core, Apply(l, op).core, j)
    ensures op != DoPublish ==> Apply(l, op).core.nextSlot == l.core.nextSlot
  {
    hide Reported, Taken;
    match op {
      case DoReport(r) => ReportedKeepsStore(l.core, r);
      case DoEpoch =>
        var e := Inc(l.core.epoch);
        ReportedKeepsStore(l.core.(epoch := e), Report(SYSTEM_SERVICE, STEP_PROGRESS, e, 0));
      case DoPublish =>
      case DoRelease(i, o, done) =>
    }
  }

  /** As long as a slot stays leased, its snapshot stays what it was. */
  lemma {:induction false} LeasedSnapshotNeverChanges(l: Ledger, ops: seq<Op>, j: nat)
    requires l.core.Shape() && j < 2
    requires forall k :: 0 <= k < |ops| ==> !Run(l, ops[..k]).core.slot[j].readers.None()
    ensures Run(l, ops).core.slot[j].snapshot == l.core.slot[j].snapshot
  {
    hide Apply;
    if ops != [] {
      var n := |ops| - 1;
      forall k | 0 <= k < n
        ensures !Run(l, ops[..n][..k]).core.slot[j].readers.None()
      {
        assert ops[..n][..k] == ops[..k];
      }
      LeasedSnapshotNeverChanges(l, ops[..n], j);
      StepFrozen(Run(l, ops[..n]), ops[n], j);
    }
  }

  lemma {:induction false} NextSlotWaits(l: Ledger, ops: seq<Op>)
    requires l.core.Shape() && DoPublish !in ops
    ensures Run(l, ops).core.nextSlot == l.core.nextSlot
  {
    hide Apply;
    if ops != [] {
      var n := |ops| - 1;
      NextSlotWaits(l, ops[..n]);
      StepFrozen(Run(l, ops[..n]), ops[n], 0);
    }
  }

  /** A successful publication carries the next id and leases its slot to both observers; and
      whatever happens up to the next publication, that one takes the same slot again only if the
      other slot is leased. */
  lemma PublicationAlternates(l: Ledger, ops: seq<Op>)
    requires l.core.Shape() && FreeSlot(l.core) < 2 && DoPublish !in ops
    ensures var i := FreeSlot(l.core);
      var c, c' := Apply(l, DoPublish).core, Run(Apply(l, DoPublish), ops).core;
      && c.slot[i].snapshot.publicationId == c.publicationId == Inc(l.core.publicationId)
      && c.slot[i].readers == Readers(true, true)
      && (FreeSlot(c') == i ==> !c'.slot[1 - i].readers.None())
  {
    hide Taken, Run, Published, Apply, FreeSlot;
    var d := Apply(l, DoPublish);
    PublishApplied(l);
    PublishedTells(l.core);
    NextSlotWaits(d, ops);
    FreeSlotTells(Run(d, ops).core);
  }

  lemma PublishedTells(c: Core)
    requires c.Shape() && FreeSlot(c) < 2
    ensures var i, d := FreeSlot(c), Published(c);
      && d.slot[i].snapshot.publicationId == d.publicationId == Inc(c.publicationId)
      && d.slot[i].readers == Readers(true, true) && d.nextSlot == 1 - i
  {
    hide StateMask, Signature, FreeSlot;
  }

  lemma FreeSlotTells(c: Core)
    requires c.Shape()
    ensures FreeSlot(c) == 1 - c.nextSlot ==> !c.slot[c.nextSlot].readers.None()
  {
  }

  lemma PublishApplied(l: Ledger)
    requires l.core.Shape()
    ensures Apply(l, DoPublish).core == Published(l.core)
  {
  }

}
