/** What the board services do on the bus and tell the health core, in order, and how the records of the
    core count it. */
module BoardLog {
  import opened Words
  import opened Health

  datatype Register = SwReg | LedReg | CtrlReg | ValueReg | LowReg | HighReg | OutReg | DirReg | InReg

  /** A write, a read with its answer, or a report and whether the core took it; each with its epoch. */
  datatype Event =
    | Wrote(reg: Register, v: bv32, at: U32)
    | Saw(reg: Register, v: bv32, at: U32)
    | Made(report: Report, at: U32, taken: bool)

  /** The reports made for one id. */
  function Of(log: seq<Event>, id: nat): (rs: seq<Event>)
    ensures forall e :: e in rs ==> e.Made? && e.report.id == id
  {
    if log == [] then []
    else
      var n := |log| - 1;
      Of(log[..n], id) + if log[n].Made? && log[n].report.id == id then [log[n]] else []
  }

  /** How many of them made a step and were taken. */
  function TakenOf(log: seq<Event>, id: nat, step: nat): nat {
    if log == [] then 0
    else
      var n := |log| - 1;
      var e := log[n];
      TakenOf(log[..n], id, step) + if e.Made? && e.report.id == id && e.report.step == step && e.taken then 1 else 0
  }

  lemma OneMore(log: seq<Event>, e: Event, id: nat)
    ensures Of(log + [e], id) == Of(log, id) + if e.Made? && e.report.id == id then [e] else []
    ensures forall step ::
      TakenOf(log + [e], id, step) ==
      TakenOf(log, id, step) + if e.Made? && e.report.id == id && e.report.step == step && e.taken then 1 else 0
  {
    assert (log + [e])[..|log|] == log;
  }

  // ---------------------------------------------------------------- the record of an id

  /** The record counts what was taken. */
  predicate Booked(c: Core, log: seq<Event>, id: nat)
    requires c.Shape() && id < IP_COUNT
  {
    && c.ip[id].heartbeats == Low32(TakenOf(log, id, STEP_PROGRESS))
    && c.ip[id].misses == Low32(TakenOf(log, id, STEP_DEADLINE_MISS))
  }

  /** No token taken so far is above n. */
  predicate Below(c: Core, id: nat, n: nat)
    requires c.Shape() && id < IP_COUNT
  {
    && (c.progress[id].seen ==> c.progress[id].token <= n)
    && (c.missed[id].seen ==> c.missed[id].token <= n)
  }

  lemma BookedMore(c: Core, log: seq<Event>, r: Report, at: U32, id: nat)
    requires c.Shape() && id < IP_COUNT && Booked(c, log, id)
    ensures Booked(Reported(c, r), log + [Made(r, at, Accepts(c, r))], id)
  {
    hide Accepts;
    var e := Made(r, at, Accepts(c, r));
    OneMore(log, e, id);
    if r.id == id && Accepts(c, r) {
      IncOfLow(TakenOf(log, id, r.step));
      assert Reported(c, r).ip[id] == NewRecord(c, r);
    } else {
      ReportElsewhere(c, r, id);
    }
  }

  lemma ReportElsewhere(c: Core, r: Report, id: nat)
    requires c.Shape() && id < IP_COUNT && (r.id != id || !Accepts(c, r))
    ensures var d := Reported(c, r);
      d.ip[id] == c.ip[id] && d.progress[id] == c.progress[id] && d.missed[id] == c.missed[id]
  {
    hide Accepts;
  }

  /** The next token is always fresh below 2^31. */
  lemma NextTaken(c: Core, r: Report, n: nat)
    requires c.Shape() && r.id < IP_COUNT && r.id != AES_GCM && r.step <= STEP_DEADLINE_MISS
    requires Below(c, r.id, n) && n + 1 < 0x8000_0000 && (r.step != STEP_FAIL ==> r.token == n + 1)
    ensures Accepts(c, r) && Below(Reported(c, r), r.id, n + 1)
  {
  }

  lemma BelowElsewhere(c: Core, r: Report, id: nat, n: nat)
    requires c.Shape() && id < IP_COUNT && r.id != id && Below(c, id, n)
    ensures Below(Reported(c, r), id, n)
  {
    hide Accepts;
    ReportElsewhere(c, r, id);
  }
}
