/** The health core as the firmware keeps it: one record updated in place, method by method, each
    method proved to be the corresponding step of `Health`. */
module HealthCore {
  import opened Words
  import opened Health
  import Fnv

  class Core {
    var ip: seq<IpHealth>
    var epoch: U32
    var publicationId: U32
    var sticky: bv32
    var nextSlot: nat
    var backlog: U32
    var misses: PerObserver
    var last: PerObserver
    var progress: seq<Stream>
    var missed: seq<Stream>
    var slot: seq<Slot>

    function State(): Health.Core
      reads this
    {
      Health.Core(ip, epoch, publicationId, sticky, nextSlot, backlog, misses, last, progress, missed, slot)
    }

    predicate Valid()
      reads this
    {
      State().Shape()
    }

    /** soc_health_init; the snapshots themselves stay whatever memory held. */
    constructor (memory: Snapshot, other: Snapshot)
      ensures Valid() && Initial(State())
    {
      epoch, publicationId, sticky, nextSlot, backlog := 0, 0, 0, 0, 0;
      slot := [Slot(memory, Readers(false, false)), Slot(other, Readers(false, false))];
      misses, last := PerObserver(0, 0), PerObserver(0, 0);
      ip, progress, missed := [], [], [];
      new;
      for i := 0 to IP_COUNT
        invariant |ip| == |progress| == |missed| == i
        invariant forall k :: 0 <= k < i ==> ip[k] == IpHealth(Unknown, EvidenceOf(k), 0, 0, 0, NOT_IMPLEMENTED)
        invariant forall k :: 0 <= k < i ==> progress[k] == missed[k] == Stream(0, false)
        invariant epoch == publicationId == nextSlot == backlog == 0 && sticky == 0
        invariant misses == last == PerObserver(0, 0)
        invariant |slot| == 2 && slot[0].readers.None() && slot[1].readers.None()
      {
        ip := ip + [IpHealth(Unknown, EvidenceOf(i), 0, 0, 0, NOT_IMPLEMENTED)];
        progress := progress + [Stream(0, false)];
        missed := missed + [Stream(0, false)];
      }
      ip := ip[AES_GCM := ip[AES_GCM].(state := Excluded)];
      ip := ip[AES_GCM := ip[AES_GCM].(detail := AES_PENDING)];
    }

    /** soc_health_report */
    method Report(id: nat, step: nat, token: U32, detail: bv32) returns (ok: bool)
      requires Valid()
      modifies this
      ensures Valid()
      ensures State() == Reported(old(State()), Health.Report(id, step, token, detail))
      ensures ok == Accepts(old(State()), Health.Report(id, step, token, detail))
    {
      hide Fresh, Inc, WithBit;
      if id >= IP_COUNT || id == AES_GCM || step > STEP_DEADLINE_MISS {
        return false;
      }
      var record := ip[id];
      if step == STEP_PROGRESS {
        if !Fresh(token, progress[id]) {
          return false;
        }
        progress := progress[id := Stream(token, true)];
        record := record.(heartbeats := Inc(record.heartbeats));
        record := record.(lastProgress := epoch);
        record := record.(state := Pass);
      } else if step == STEP_DEADLINE_MISS {
        if !Fresh(token, missed[id]) {
          return false;
        }
        missed := missed[id := Stream(token, true)];
        record := record.(misses := Inc(record.misses));
        record := record.(state := Fail);
      } else if step == STEP_FAIL {
        record := record.(state := Fail);
      } else if step == STEP_WARN {
        record := record.(state := Warn);
      }
      record := record.(detail := detail);
      ip := ip[id := record];
      if record.state == Fail {
        sticky := WithBit(sticky, id);
      }
      return true;
    }

    /** soc_health_epoch_begin */
    method EpochBegin()
      requires Valid()
      modifies this
      ensures Valid() && State() == EpochBegun(old(State()))
    {
      hide Reported;
      epoch := Inc(epoch);
      var _ := Report(SYSTEM_SERVICE, STEP_PROGRESS, epoch, 0);
    }

    /** soc_health_deadline_poll */
    method DeadlinePoll(id: nat, d: Deadline) returns (d': Deadline, expired: bool)
      requires Valid()
      modifies this
      ensures Valid()
      ensures Polled(State(), d', expired) == DeadlinePolled(old(State()), id, d)
    {
      hide Reported, Accepts;
      d', expired := d, false;
      if id >= IP_COUNT || id == AES_GCM {
        return;
      }
      if !d.armed || Sub(epoch, d.start) < d.budget {
        return;
      }
      d' := d.(armed := false);
      expired := Report(id, STEP_DEADLINE_MISS, d.token, Bits(d.budget));
    }

    /** soc_health_publish_snapshot: the slot the snapshot went to, or 2 for none. */
    method PublishSnapshot() returns (index: nat)
      requires Valid()
      modifies this
      ensures Valid() && State() == Published(old(State()))
      ensures index == FreeSlot(old(State()))
    {
      hide Taken, StateMask, Inc;
      index := 2;
      for n := 0 to 2
        invariant State() == old(State()) && index == 2
        invariant n > 0 ==> !slot[nextSlot].readers.None()
        invariant n > 1 ==> !slot[1 - nextSlot].readers.None()
      {
        var i := if nextSlot + n >= 2 then nextSlot + n - 2 else nextSlot + n;
        if slot[i].readers.None() {
          index := i;
          break;
        }
      }
      if index == 2 {
        backlog := Inc(backlog);
        return;
      }
      var s := TakeSnapshot();
      nextSlot := 1 - index;
      publicationId := Inc(publicationId);
      slot := slot[index := Slot(s, Readers(true, true))];
    }

    /** The filling of a slot: copy the records, collect the masks, sign the result. */
    method TakeSnapshot() returns (s: Snapshot)
      requires Valid()
      ensures s == Taken(State())
    {
      hide StateMask, Inc, WithBit, Signature;
      var pass, warn, fail, excluded := 0, 0, 0, 0;
      var records: seq<IpHealth> := [];
      MasksStart(ip);
      for i := 0 to IP_COUNT
        invariant records == ip[..i]
        invariant pass == StateMask(ip, Pass, i) && warn == StateMask(ip, Warn, i)
        invariant fail == StateMask(ip, Fail, i) && excluded == StateMask(ip, Excluded, i)
      {
        MasksNext(ip, i);
        records := records + [ip[i]];
        match ip[i].state {
          case Pass => pass := WithBit(pass, i);
          case Warn => warn := WithBit(warn, i);
          case Fail => fail := WithBit(fail, i);
          case Excluded => excluded := WithBit(excluded, i);
          case Unknown =>
        }
      }
      assert records == ip;
      s := Snapshot(epoch, Inc(publicationId), 0, pass, warn, fail, excluded, sticky, backlog, misses, last, records);
      var signature := SignatureOf(s);
      s := s.(signature := signature);
    }

    /** soc_health_snapshot_release for the snapshot in slot s (2 for any other address); the two
        observers have the mask values 1 and 2. */
    method SnapshotRelease(s: nat, observer: nat, completed: bool) returns (ok: bool)
      requires Valid()
      modifies this
      ensures Valid()
      ensures observer == 1 ==>
        State() == Released(old(State()), s, Vga, completed) && ok == Leased(old(State()), s, Vga)
      ensures observer == 2 ==>
        State() == Released(old(State()), s, Uart, completed) && ok == Leased(old(State()), s, Uart)
      ensures observer != 1 && observer != 2 ==> State() == old(State()) && !ok
    {
      hide Inc;
      if observer != 1 && observer != 2 {
        return false;
      }
      var o := if observer == 1 then Vga else Uart;
      for i := 0 to 2
        invariant State() == old(State())
        invariant s < i ==> !slot[s].readers.Has(o)
      {
        if i == s && slot[i].readers.Has(o) {
          slot := slot[i := slot[i].(readers := slot[i].readers.Without(o))];
          if completed {
            last := last.With(o, slot[i].snapshot.epoch);
          } else {
            misses := misses.With(o, Inc(misses.Of(o)));
          }
          return true;
        }
      }
      return false;
    }
  }

  /** soc_health_deadline_begin */
  method DeadlineBegin(d: Deadline, epoch: U32, budget: U32, token: U32) returns (d': Deadline, ok: bool)
    ensures d' == DeadlineBegun(d, epoch, budget, token)
    ensures ok <==> d'.armed
  {
    d' := d.(armed := false);
    if budget >= 0x8000_0000 {
      return d', false;
    }
    d' := d'.(start := epoch);
    d' := d'.(budget := budget);
    d' := d'.(token := token);
    d' := d'.(armed := true);
    return d', true;
  }

  lemma MasksStart(ip: seq<IpHealth>)
    requires |ip| == IP_COUNT
    ensures forall st :: StateMask(ip, st, 0) == 0
  {
  }

  lemma MasksNext(ip: seq<IpHealth>, n: nat)
    requires n < |ip| == IP_COUNT
    ensures forall st ::
      StateMask(ip, st, n + 1) ==
      (if ip[n].state == st then WithBit(StateMask(ip, st, n), n) else StateMask(ip, st, n))
  {
  }

  // ---------------------------------------------------------------- the signature

  lemma {:induction false} SerialisedMore(words: seq<bv32>, word: bv32)
    ensures Fnv.Serialised(words + [word]) == Fnv.Serialised(words) + Fnv.LeBytes(word)
  {
    hide Fnv.LeBytes;
    if words == [] {
      assert [word][1..] == [];
      assert [] + [word] == [word];
    } else {
      assert (words + [word])[1..] == words[1..] + [word];
      SerialisedMore(words[1..], word);
    }
  }

  /** The running value over the words hashed so far. */
  function Hashed(words: seq<bv32>): U32 {
    Fnv.HashBytes(Fnv.OFFSET, Fnv.Serialised(words))
  }

  /** FIELD */
  method Field(hash: U32, ghost words: seq<bv32>, word: bv32) returns (r: U32)
    requires hash == Hashed(words)
    ensures r == Hashed(words + [word])
  {
    hide Fnv.HashBytes, Fnv.LeBytes, Fnv.Serialised;
    SerialisedMore(words, word);
    Fnv.HashConcat(Fnv.OFFSET, Fnv.Serialised(words), Fnv.LeBytes(word));
    r := Fnv.SignatureWord(hash, word);
  }

  /** FIELD, for word k of a known list. */
  method Next(hash: U32, ghost words: seq<bv32>, ghost k: nat, word: bv32) returns (r: U32)
    requires k < |words| && words[k] == word && hash == Hashed(words[..k])
    ensures r == Hashed(words[..k + 1])
  {
    hide Hashed;
    assert words[..k + 1] == words[..k] + [word];
    r := Field(hash, words[..k], word);
  }

  lemma NothingHashed(words: seq<bv32>)
    ensures Hashed(words[..0]) == Fnv.OFFSET
  {
    assert words[..0] == [];
  }

  method RecordFields(hash: U32, ghost words: seq<bv32>, i: nat, h: IpHealth) returns (r: U32)
    requires hash == Hashed(words) && i < IP_COUNT
    ensures r == Hashed(words + RecordWords(i, h))
  {
    hide Hashed, Bits, StateValue;
    ghost var w, n := words + RecordWords(i, h), |words|;
    assert w[..n] == words;
    r := hash;
    r := Next(r, w, n, Bits(i));
    r := Next(r, w, n + 1, StateValue(h.state));
    r := Next(r, w, n + 2, h.evidence);
    r := Next(r, w, n + 3, Bits(h.heartbeats));
    r := Next(r, w, n + 4, Bits(h.lastProgress));
    r := Next(r, w, n + 5, Bits(h.misses));
    r := Next(r, w, n + 6, h.detail);
    assert w[..n + 7] == w;
  }

  method HeaderFields(s: Snapshot) returns (r: U32)
    ensures r == Hashed(HeaderWords(s))
  {
    hide Hashed, Bits;
    ghost var w := HeaderWords(s);
    r := Fnv.OFFSET;
    NothingHashed(w);
    r := Next(r, w, 0, 0x53483201);
    r := Next(r, w, 1, Bits(s.epoch));
    r := Next(r, w, 2, Bits(s.publicationId));
    r := Next(r, w, 3, s.passMask);
    r := Next(r, w, 4, s.warnMask);
    r := Next(r, w, 5, s.failMask);
    r := Next(r, w, 6, s.excludedMask);
    r := HeaderTail(s, r);
  }

  method HeaderTail(s: Snapshot, hash: U32) returns (r: U32)
    requires hash == Hashed(HeaderWords(s)[..7])
    ensures r == Hashed(HeaderWords(s))
  {
    hide Hashed, Bits;
    ghost var w := HeaderWords(s);
    r := hash;
    r := Next(r, w, 7, s.stickyFailMask);
    r := Next(r, w, 8, Bits(s.backlog));
    r := Next(r, w, 9, Bits(s.misses.vga));
    r := Next(r, w, 10, Bits(s.misses.uart));
    r := Next(r, w, 11, Bits(s.last.vga));
    r := Next(r, w, 12, Bits(s.last.uart));
    assert w[..13] == w;
  }

  /** soc_health_signature */
  method SignatureOf(s: Snapshot) returns (r: U32)
    requires |s.ip| == IP_COUNT
    ensures r == Signature(s)
  {
    hide Hashed, RecordWords, HeaderWords;
    r := HeaderFields(s);
    ghost var words := HeaderWords(s);
    for i := 0 to IP_COUNT
      invariant words == HeaderWords(s) + AllRecordWords(s.ip, i)
      invariant r == Hashed(words)
    {
      r := RecordFields(r, words, i, s.ip[i]);
      words := words + RecordWords(i, s.ip[i]);
    }
    SignatureIsHashed(s);
  }

  lemma SignatureIsHashed(s: Snapshot)
    requires |s.ip| == IP_COUNT
    ensures Signature(s) == Hashed(HeaderWords(s) + AllRecordWords(s.ip, IP_COUNT))
  {
  }
}
