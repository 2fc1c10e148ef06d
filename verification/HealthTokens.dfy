/** The 32-bit token and deadline logic against true, unbounded tokens and epochs. */
module HealthTokens {
  import opened Words
  import opened Health
  import opened HealthRuns

  /** Serial-number comparison (section 3.2 of RFC 1982): while true tokens stay within 2^31 of the
      largest accepted one, a token is fresh exactly when it is truly greater. */
  lemma FreshIsGreater(token: int, largest: int)
    requires -0x8000_0000 <= token - largest < 0x8000_0000
    ensures Fresh(Low32(token), Stream(Low32(largest), true)) <==> token > largest
  {
  }

  /** A stream of progress reports with true tokens, none further than 2^31 from the largest accepted
      before it. */
  ghost predicate WithinWindow(tokens: seq<int>) {
    forall k :: 1 <= k < |tokens| ==> -0x8000_0000 <= tokens[k] - Largest(tokens[..k]) < 0x8000_0000
  }

  function Largest(tokens: seq<int>): int
    requires tokens != []
  {
    var n := |tokens| - 1;
    if n == 0 then tokens[0]
    else
      var m := Largest(tokens[..n]);
      if tokens[n] > m then tokens[n] else m
  }

  /** How often a token exceeded everything before it; the first one counts. */
  function Records(tokens: seq<int>): nat {
    var n := |tokens| - 1;
    if n < 0 then 0
    else if n == 0 then 1
    else Records(tokens[..n]) + if tokens[n] > Largest(tokens[..n]) then 1 else 0
  }

  /** An operation together with the true value of the token it carries, if it carries one. */
  datatype TrueOp = TrueOp(op: Op, token: int)

  function Ops(ts: seq<TrueOp>): (ops: seq<Op>)
    ensures |ops| == |ts|
  {
    seq(|ts|, k requires 0 <= k < |ts| => ts[k].op)
  }

  /** A progress report for the id; an epoch is one for the system service. */
  predicate Carries(op: Op, id: nat) {
    (op.DoReport? && op.r.id == id && op.r.step == STEP_PROGRESS) || (op.DoEpoch? && id == SYSTEM_SERVICE)
  }

  /** The register tokens are those of the true ones, modulo 2^32. */
  ghost predicate Honest(l: Ledger, ts: seq<TrueOp>)
    requires l.core.Shape()
  {
    forall k :: 0 <= k < |ts| ==>
      && (ts[k].op.DoReport? ==> ts[k].op.r.token == Low32(ts[k].token))
      && (ts[k].op.DoEpoch? ==> Inc(Run(l, Ops(ts[..k])).core.epoch) == Low32(ts[k].token))
  }

  /** The true tokens of the progress reports for one id, in order. */
  function Tokens(ts: seq<TrueOp>, id: nat): seq<int> {
    if ts == [] then []
    else
      var n := |ts| - 1;
      if Carries(ts[n].op, id) then Tokens(ts[..n], id) + [ts[n].token] else Tokens(ts[..n], id)
  }

  lemma OthersKeepCount(l: Ledger, op: Op, id: nat)
    requires l.core.Shape() && id < IP_COUNT && !Carries(op, id)
    ensures var c, c' := l.core, Apply(l, op).core;
      c'.ip[id].heartbeats == c.ip[id].heartbeats && c'.progress[id] == c.progress[id]
  {
    hide Taken, WithBit;
  }

  /** What a record's count and token stand for after the true tokens so far. */
  predicate Counted(c: Core, id: nat, tokens: seq<int>)
    requires c.Shape() && id < IP_COUNT
  {
    && c.ip[id].heartbeats == Low32(Records(tokens))
    && c.progress[id] == if tokens == [] then Stream(0, false) else Stream(Low32(Largest(tokens)), true)
  }

  lemma CountedNext(c: Core, c': Core, id: nat, tokens: seq<int>, token: int)
    requires c.Shape() && c'.Shape() && id < IP_COUNT && Counted(c, id, tokens) && WithinWindow(tokens + [token])
    requires var f := Fresh(Low32(token), c.progress[id]);
      && c'.ip[id].heartbeats == (if f then Inc(c.ip[id].heartbeats) else c.ip[id].heartbeats)
      && c'.progress[id] == (if f then Stream(Low32(token), true) else c.progress[id])
    ensures Counted(c', id, tokens + [token])
  {
    hide Low32, Inc, Fresh, Largest, Records, WithinWindow;
    IncOfLow(Records(tokens));
    if tokens == [] {
      FirstToken(token);
      assert [] + [token] == [token];
    } else {
      NextToken(tokens, token);
      FreshIsGreater(token, Largest(tokens));
    }
  }

  lemma FirstToken(token: int)
    ensures Records([]) == 0 && Records([token]) == 1 && Largest([token]) == token
    ensures Fresh(Low32(token), Stream(0, false)) && Low32(0) == 0
  {
  }

  lemma NextToken(tokens: seq<int>, token: int)
    requires tokens != [] && WithinWindow(tokens + [token])
    ensures var more, largest := tokens + [token], Largest(tokens);
      && -0x8000_0000 <= token - largest < 0x8000_0000
      && Largest(more) == (if token > largest then token else largest)
      && Records(more) == Records(tokens) + (if token > largest then 1 else 0)
  {
    assert (tokens + [token])[..|tokens|] == tokens;
  }

  lemma WindowPrefix(tokens: seq<int>, token: int)
    requires WithinWindow(tokens + [token])
    ensures WithinWindow(tokens)
  {
    assert forall k :: 1 <= k < |tokens| ==> (tokens + [token])[..k] == tokens[..k];
  }

  /** In every interleaving of the core's operations, for every id: the heartbeats of a record count,
      modulo 2^32, the progress reports whose true token was a strict record, and the stored token is
      the largest true token. */
  lemma {:induction false} HeartbeatsCountRecords(l: Ledger, ts: seq<TrueOp>, id: nat)
    requires l.core.Shape() && id < IP_COUNT && id != AES_GCM
    requires l.core.progress[id] == Stream(0, false) && l.core.ip[id].heartbeats == 0
    requires Honest(l, ts) && WithinWindow(Tokens(ts, id))
    ensures var c, tokens := Run(l, Ops(ts)).core, Tokens(ts, id);
      && c.ip[id].heartbeats == Low32(Records(tokens))
      && c.progress[id] == if tokens == [] then Stream(0, false) else Stream(Low32(Largest(tokens)), true)
  {
    if ts == [] {
      FirstToken(0);
    } else {
      hide Apply, Low32, Inc, Fresh, Carries;
      var n := |ts| - 1;
      assert Ops(ts)[..n] == Ops(ts[..n]);
      assert forall k :: 0 <= k < n ==> ts[..n][..k] == ts[..k];
      var m := Run(l, Ops(ts[..n]));
      assert Run(l, Ops(ts)) == Apply(m, ts[n].op);
      if Carries(ts[n].op, id) {
        WindowPrefix(Tokens(ts[..n], id), ts[n].token);
        HeartbeatsCountRecords(l, ts[..n], id);
        CountedNext(m.core, Apply(m, ts[n].op).core, id, Tokens(ts[..n], id), ts[n].token);
      } else {
        HeartbeatsCountRecords(l, ts[..n], id);
        OthersKeepCount(m, ts[n].op, id);
      }
    }
  }

  // ---------------------------------------------------------------- deadlines

  /** A deadline armed at true epoch start never fires before its budget has truly elapsed, and for
      less than 2^32 epochs it is due exactly when it has. */
  lemma DueMeansElapsed(start: int, now: int, budget: U32, token: U32)
    requires start <= now
    ensures DeadlineDue(Low32(now), Deadline(Low32(start), budget, token, true)) ==> now - start >= budget
    ensures now - start < 0x1_0000_0000 ==>
      (DeadlineDue(Low32(now), Deadline(Low32(start), budget, token, true)) <==> now - start >= budget)
  {
  }

  /** A poll, the health core it meets, and the true epoch. */
  datatype Poll = Poll(core: Core, epoch: int)

  /** What a run of polls did: fired lists the true epochs at which one reported an expiry. */
  datatype PolledRuns = PolledRuns(deadline: Deadline, fired: seq<int>)

  /** Polling over a run of true epochs, with nothing arming the deadline again; whatever happens to the
      health core between two polls. */
  function PolledRun(id: nat, d: Deadline, polls: seq<Poll>): (p: PolledRuns)
    requires forall k :: 0 <= k < |polls| ==> polls[k].core.Shape()
  {
    if polls == [] then PolledRuns(d, [])
    else
      var n := |polls| - 1;
      var before := PolledRun(id, d, polls[..n]);
      var p := DeadlinePolled(polls[n].core, id, before.deadline);
      PolledRuns(p.deadline, if p.expired then before.fired + [polls[n].epoch] else before.fired)
  }

  /** An armed deadline fires at most once, and not before its budget has truly elapsed. */
  lemma {:induction false} FiresOnceAndNotEarly(id: nat, start: int, budget: U32, token: U32, polls: seq<Poll>)
    requires forall k :: 0 <= k < |polls| ==>
      polls[k].core.Shape() && polls[k].core.epoch == Low32(polls[k].epoch) && start <= polls[k].epoch
    ensures var p := PolledRun(id, Deadline(Low32(start), budget, token, true), polls);
      && |p.fired| <= 1
      && (forall e :: e in p.fired ==> e - start >= budget)
      && (p.deadline.armed ==> p.fired == [])
      && p.deadline.start == Low32(start) && p.deadline.budget == budget
      && p.deadline.token == token
  {
    hide Reported, Accepts;
    if polls != [] {
      var n := |polls| - 1;
      FiresOnceAndNotEarly(id, start, budget, token, polls[..n]);
      DueMeansElapsed(start, polls[n].epoch, budget, token);
    }
  }

  /** A budget of 2^31 epochs or more is refused: the deadline is left disarmed and never fires. */
  lemma LargeBudgetRefused(d: Deadline, c: Core, id: nat, budget: U32, token: U32)
    requires c.Shape()
    ensures var b := DeadlineBegun(d, c.epoch, budget, token);
      && (b.armed <==> budget < 0x8000_0000)
      && (!b.armed ==> DeadlinePolled(c, id, b) == Polled(c, b, false))
  {
  }
}
