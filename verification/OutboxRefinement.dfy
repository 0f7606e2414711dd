/**
 The worker's batch is a run of the queue: claiming a batch and settling its items one after the other
 is a sequence of single claims and marks, so whatever holds in every run holds of `process_batch`.
 */
module OutboxRefinement {
  import opened Wrappers
  import opened Clock
  import opened AccessTokens
  import opened EmailOutbox
  import opened OutboxRuns

  predicate Has(claims: map<nat, Claim>, c: nat, claim: Claim) {
    c in claims && claims[c] == claim
  }

  /** The claims of a batch, numbered from `first`, as the batch read them. */
  ghost predicate Holding(s: State, claimed: Outbox, ids: seq<Uuid>, first: nat, from: nat, start: nat) {
    && (forall i :: from <= i < |ids| ==>
          ids[i] in claimed && Has(s.claims, first + i, Claim(ids[i], claimed[ids[i]].attempts, start)))
    && s.rows.Keys == claimed.Keys
  }

  ghost predicate AllClaimable(rows: Outbox, ids: seq<Uuid>, reclaim: nat, now: nat) {
    forall i :: 0 <= i < |ids| ==> ids[i] in rows && Claimable(rows[ids[i]], reclaim, now)
  }

  lemma NextClaim(rows: Outbox, s: State, t: State, ids: seq<Uuid>, last: Uuid, first: nat, now: nat)
    requires last in rows && last !in ids
    requires s.rows == LockAll(rows, ids, now) && Holding(s, s.rows, ids, first, 0, now)
    requires t.rows == s.rows[last := Lock(rows[last], now)]
    requires t.claims == s.claims[first + |ids| := Claim(last, rows[last].attempts, now)]
    ensures t.rows == LockAll(rows, ids + [last], now) && Holding(t, t.rows, ids + [last], first, 0, now)
  {
  }

  /** A batch claim is single claims at one instant. */
  lemma {:induction false} BatchClaim(env: Setting, steps: seq<Step>, ids: seq<Uuid>, first: nat)
    returns (steps': seq<Step>)
    requires var s := Run(env, steps);
             Distinct(ids) && AllClaimable(s.rows, ids, env.reclaim, s.now) && forall c :: c in s.claims ==> c < first
    ensures var (s, t) := (Run(env, steps), Run(env, steps'));
            && t.rows == LockAll(s.rows, ids, s.now) && t.now == s.now && Holding(t, t.rows, ids, first, 0, s.now)
            && forall c :: c in t.claims ==> c < first + |ids|
    decreases |ids|
  {
    var s := Run(env, steps);
    if ids == [] {
      steps' := steps;
      assert LockAll(s.rows, ids, s.now) == s.rows;
    } else {
      var (init, last) := (ids[..|ids| - 1], ids[|ids| - 1]);
      var before := BatchClaim(env, steps, init, first);
      assert last !in init by { assert forall k :: 0 <= k < |init| ==> init[k] == ids[k]; }
      var c := first + |init|;
      RunExtend(env, before, Take(c, last));
      steps' := before + [Take(c, last)];
      assert ids == init + [last];
      NextClaim(s.rows, Run(env, before), Run(env, steps'), init, last, first, s.now);
    }
  }

  /** `ids` in the order in which their marks come, each after the claim and within the worker's stall. */
  ghost predicate Orderly(env: Setting, start: nat, ids: seq<Uuid>, deliveries: map<Uuid, Delivery>) {
    && (forall i :: 0 <= i < |ids| && ids[i] in deliveries ==>
          start <= deliveries[ids[i]].readAt <= deliveries[ids[i]].markedAt <= start + env.stall)
    && (forall i, j :: 0 <= i < j < |ids| && ids[i] in deliveries && ids[j] in deliveries
          ==> deliveries[ids[i]].markedAt <= deliveries[ids[j]].markedAt)
  }

  function MarkOf(c: nat, d: Delivery): Step {
    if d.delivered then Deliver(c) else Fail(c, d.readAt)
  }

  /** One mark, at its instant. */
  lemma OneMark(env: Setting, steps: seq<Step>, c: nat, d: Delivery) returns (steps': seq<Step>)
    requires var s := Run(env, steps);
             && c in s.claims && s.claims[c].row in s.rows && s.now <= d.markedAt
             && s.claims[c].at <= d.readAt <= d.markedAt
             && d.markedAt <= s.claims[c].at + env.stall
    ensures var (s, t) := (Run(env, steps), Run(env, steps'));
            && t.rows == s.rows[s.claims[c].row := Settle(s.rows[s.claims[c].row], s.claims[c].attempts, d)]
            && t.claims == s.claims - {c} && t.now == d.markedAt
  {
    RunExtend(env, steps, Tick(d.markedAt));
    steps' := steps + [Tick(d.markedAt)];
    RunExtend(env, steps', MarkOf(c, d));
    steps' := steps' + [MarkOf(c, d)];
  }

  lemma NextMark(s: State, t: State, claimed: Outbox, ids: seq<Uuid>, first: nat, start: nat,
                 deliveries: map<Uuid, Delivery>, n: nat)
    requires n < |ids| && ids[n] in claimed
    requires s.rows == SettleAll(claimed, ids[..n], deliveries) && Holding(s, claimed, ids, first, n, start)
    requires if ids[n] in deliveries then
               && t.rows == s.rows[ids[n] := Settle(s.rows[ids[n]], claimed[ids[n]].attempts, deliveries[ids[n]])]
               && t.claims == s.claims - {first + n}
             else t == s
    ensures t.rows == SettleAll(claimed, ids[..n + 1], deliveries) && Holding(t, claimed, ids, first, n + 1, start)
  {
    assert ids[..n + 1][..n] == ids[..n];
    forall i | n + 1 <= i < |ids|
      ensures ids[i] in claimed && Has(t.claims, first + i, Claim(ids[i], claimed[ids[i]].attempts, start))
    {
      assert Has(s.claims, first + i, Claim(ids[i], claimed[ids[i]].attempts, start));
    }
  }

  /** No mark from the n-th on lies in the past. */
  ghost predicate Ahead(now: nat, ids: seq<Uuid>, deliveries: map<Uuid, Delivery>, n: nat) {
    forall i :: n <= i < |ids| && ids[i] in deliveries ==> now <= deliveries[ids[i]].markedAt
  }

  ghost predicate Progress(s: State, claimed: Outbox, ids: seq<Uuid>, first: nat, start: nat,
                           deliveries: map<Uuid, Delivery>, n: nat)
    requires n <= |ids|
  {
    && s.rows == SettleAll(claimed, ids[..n], deliveries) && Holding(s, claimed, ids, first, n, start)
    && Ahead(s.now, ids, deliveries, n)
  }

  lemma MarkOrSkip(env: Setting, steps: seq<Step>, claimed: Outbox, ids: seq<Uuid>, first: nat, start: nat,
                   deliveries: map<Uuid, Delivery>, n: nat) returns (steps': seq<Step>)
    requires n < |ids| && Orderly(env, start, ids, deliveries)
    requires Progress(Run(env, steps), claimed, ids, first, start, deliveries, n)
    ensures Progress(Run(env, steps'), claimed, ids, first, start, deliveries, n + 1)
  {
    var (c, id) := (first + n, ids[n]);
    assert Has(Run(env, steps).claims, c, Claim(id, claimed[id].attempts, start));
    if id in deliveries {
      steps' := OneMark(env, steps, c, deliveries[id]);
    } else {
      steps' := steps;
    }
    NextMark(Run(env, steps), Run(env, steps'), claimed, ids, first, start, deliveries, n);
  }

  lemma {:induction false} BatchMarks(env: Setting, steps: seq<Step>, claimed: Outbox, ids: seq<Uuid>, first: nat,
                                      start: nat, deliveries: map<Uuid, Delivery>, n: nat) returns (steps': seq<Step>)
    requires n <= |ids| && Orderly(env, start, ids, deliveries)
    requires Progress(Run(env, steps), claimed, ids, first, start, deliveries, 0)
    ensures Progress(Run(env, steps'), claimed, ids, first, start, deliveries, n)
    decreases n
  {
    if n == 0 {
      steps' := steps;
    } else {
      var before := BatchMarks(env, steps, claimed, ids, first, start, deliveries, n - 1);
      steps' := MarkOrSkip(env, before, claimed, ids, first, start, deliveries, n - 1);
    }
  }

  /**
   What `ProcessBatch` leaves in the table, some run of single claims and marks leaves too, whatever the
   order `finish` in which the concurrent deliveries of the batch end.
   */
  lemma BatchIsRun(env: Setting, steps: seq<Step>, byAge: seq<Uuid>, busy: set<Uuid>, limit: nat,
                   deliveries: map<Uuid, Delivery>, finish: seq<Uuid>) returns (steps': seq<Step>)
    requires var s := Run(env, steps);
             && Distinct(byAge) && Distinct(finish) && Orderly(env, s.now, finish, deliveries)
             && Elements(finish) == Elements(Select(s.rows, byAge, busy, env.reclaim, s.now, limit))
    ensures var s := Run(env, steps);
            var ids := Select(s.rows, byAge, busy, env.reclaim, s.now, limit);
            Run(env, steps').rows == SettleAll(LockAll(s.rows, ids, s.now), ids, deliveries)
  {
    var s := Run(env, steps);
    var ids := Select(s.rows, byAge, busy, env.reclaim, s.now, limit);
    SelectDistinct(s.rows, byAge, busy, env.reclaim, s.now, limit);
    SameElements(finish, ids);
    var first := FreshNumber(s.claims.Keys);
    forall i | 0 <= i < |finish| ensures finish[i] in s.rows && Claimable(s.rows[finish[i]], env.reclaim, s.now) {
      assert finish[i] in finish && finish[i] in ids;
      var k :| 0 <= k < |ids| && ids[k] == finish[i];
    }
    var claimed := BatchClaim(env, steps, finish, first);
    steps' := BatchMarks(env, claimed, LockAll(s.rows, finish, s.now), finish, first, s.now, deliveries, |finish|);
    assert finish[..|finish|] == finish;
    assert LockAll(s.rows, finish, s.now) == LockAll(s.rows, ids, s.now);
    SettledInAnyOrder(LockAll(s.rows, ids, s.now), finish, deliveries);
    SettledInAnyOrder(LockAll(s.rows, ids, s.now), ids, deliveries);
  }

  lemma SameElements(a: seq<Uuid>, b: seq<Uuid>)
    requires Elements(a) == Elements(b)
    ensures forall id :: id in a <==> id in b
  {
    forall id ensures id in a <==> id in b { assert id in Elements(a) <==> id in Elements(b); }
  }

  lemma {:induction false} FreshNumber(used: set<nat>) returns (first: nat)
    ensures forall c :: c in used ==> c < first
  {
    if used == {} {
      first := 0;
    } else {
      var c :| c in used;
      var rest := FreshNumber(used - {c});
      first := rest + c + 1;
      assert forall d :: d in used ==> d == c || d in used - {c};
    }
  }
}
