/**
 Whole runs of the outbox: any number of workers claim, mark, stall and crash. A batch is several
 claims at one instant. `stall` is the longest time a worker takes from claim to mark: by then it has
 marked or is dead.
 */
module OutboxRuns {
  import opened Wrappers
  import opened Clock
  import opened AccessTokens
  import opened EmailOutbox

  /** A worker's claim: the row, the attempts it read, the instant. */
  datatype Claim = Claim(row: Uuid, attempts: nat, at: nat)

  datatype Event = Claimed(row: Uuid, at: nat) | Settled(row: Uuid, delivered: bool)

  /** `starts` lists, for each row, when its completed delivery attempts were claimed. */
  datatype State = State(now: nat, rows: Outbox, claims: map<nat, Claim>, starts: map<Uuid, seq<nat>>, log: seq<Event>)

  datatype Step =
    | Tick(to: nat)
    | Enqueue(row: Uuid, maxAttempts: nat)
    | Take(claim: nat, row: Uuid)
    | Deliver(claim: nat)
    | Fail(claim: nat, readAt: nat)
    | Crash(claim: nat)

  datatype Setting = Setting(reclaim: nat, stall: nat)

  const Init: State := State(0, map[], map[], map[], [])

  predicate MayMark(env: Setting, s: State, c: nat) {
    c in s.claims && s.claims[c].row in s.rows && s.now <= s.claims[c].at + env.stall
  }

  function Starts(s: State, row: Uuid): seq<nat> {
    if row in s.starts then s.starts[row] else []
  }

  function ApplyTake(env: Setting, s: State, c: nat, row: Uuid): State {
    if c in s.claims || row !in s.rows || !Claimable(s.rows[row], env.reclaim, s.now) then s
    else s.(rows := s.rows[row := Lock(s.rows[row], s.now)],
            claims := s.claims[c := Claim(row, s.rows[row].attempts, s.now)],
            log := s.log + [Claimed(row, s.now)])
  }

  /** The mark of a claim's delivery; the retry delay counts from a clock reading between claim and mark. */
  function ApplyMark(s: State, c: nat, d: Delivery): State
    requires c in s.claims && s.claims[c].row in s.rows
  {
    var k := s.claims[c];
    s.(rows := s.rows[k.row := Settle(s.rows[k.row], k.attempts, d)], claims := s.claims - {c},
       starts := s.starts[k.row := Starts(s, k.row) + [k.at]], log := s.log + [Settled(k.row, d.delivered)])
  }

  function Apply(env: Setting, s: State, step: Step): State {
    match step
    case Tick(to) => if s.now <= to then s.(now := to) else s
    case Enqueue(row, maxAttempts) =>
      if row in s.rows then s else s.(rows := s.rows[row := OutboxRow(0, maxAttempts, s.now, None, None)])
    case Take(c, row) => ApplyTake(env, s, c, row)
    case Deliver(c) => if MayMark(env, s, c) then ApplyMark(s, c, Delivery(true, s.now, s.now)) else s
    case Fail(c, readAt) =>
      if MayMark(env, s, c) && s.claims[c].at <= readAt <= s.now then ApplyMark(s, c, Delivery(false, readAt, s.now))
      else s
    case Crash(c) => s.(claims := s.claims - {c})
  }

  function Run(env: Setting, steps: seq<Step>): State {
    if steps == [] then Init else Apply(env, Run(env, steps[..|steps| - 1]), steps[|steps| - 1])
  }

  // ----- In every run -----

  ghost predicate Unmarked(log: seq<Event>, i: nat, j: nat, row: Uuid)
    requires j <= |log|
  {
    forall m :: i < m < j ==> !(log[m].Settled? && log[m].row == row)
  }

  /** A claim that was not settled keeps the row locked since at least its own instant. */
  ghost predicate ClaimLocks(s: State) {
    forall i :: 0 <= i < |s.log| && s.log[i].Claimed? && Unmarked(s.log, i, |s.log|, s.log[i].row) ==>
      && s.log[i].row in s.rows && s.rows[s.log[i].row].lockedAt.Some?
      && s.log[i].at <= s.rows[s.log[i].row].lockedAt.value <= s.now
  }

  ghost predicate ClaimsApart(reclaim: nat, log: seq<Event>) {
    forall i, j :: 0 <= i < j < |log| && log[i].Claimed? && log[j].Claimed? && log[i].row == log[j].row
                   && Unmarked(log, i, j, log[i].row)
      ==> log[i].at + reclaim < log[j].at
  }

  ghost predicate SentIsFinal(s: State) {
    && (forall i :: 0 <= i < |s.log| && s.log[i].Settled? && s.log[i].delivered
          ==> s.log[i].row in s.rows && s.rows[s.log[i].row].sentAt.Some?)
    && (forall i, j :: 0 <= i < j < |s.log| && s.log[i].Settled? && s.log[i].delivered && s.log[j].Claimed?
          ==> s.log[i].row != s.log[j].row)
  }

  lemma TakeKeepsApart(env: Setting, s: State, c: nat, row: Uuid)
    requires ClaimLocks(s) && ClaimsApart(env.reclaim, s.log)
    ensures var t := ApplyTake(env, s, c, row); ClaimLocks(t) && ClaimsApart(env.reclaim, t.log)
  {
    var t := ApplyTake(env, s, c, row);
    if t.log != s.log {
      forall i | 0 <= i < |s.log| && s.log[i].Claimed? && Unmarked(t.log, i, |s.log|, s.log[i].row)
        ensures Unmarked(s.log, i, |s.log|, s.log[i].row)
      {
        assert forall m :: i < m < |s.log| ==> t.log[m] == s.log[m];
      }
      forall i, j | 0 <= i < j < |t.log| && t.log[i].Claimed? && t.log[j].Claimed? && t.log[i].row == t.log[j].row
                    && Unmarked(t.log, i, j, t.log[i].row)
        ensures t.log[i].at + env.reclaim < t.log[j].at
      {
        if j < |s.log| {
          assert forall m :: i < m < j ==> t.log[m] == s.log[m];
          assert Unmarked(s.log, i, j, s.log[i].row);
        }
      }
      forall i | 0 <= i < |t.log| && t.log[i].Claimed? && Unmarked(t.log, i, |t.log|, t.log[i].row)
        ensures t.log[i].row in t.rows && t.rows[t.log[i].row].lockedAt.Some?
        ensures t.log[i].at <= t.rows[t.log[i].row].lockedAt.value <= t.now
      {
        if i < |s.log| {
          assert Unmarked(t.log, i, |s.log|, s.log[i].row);
        }
      }
    }
  }

  lemma MarkKeepsApart(reclaim: nat, s: State, c: nat, d: Delivery)
    requires ClaimLocks(s) && ClaimsApart(reclaim, s.log) && c in s.claims && s.claims[c].row in s.rows
    ensures var t := ApplyMark(s, c, d); ClaimLocks(t) && ClaimsApart(reclaim, t.log)
  {
    var (t, row) := (ApplyMark(s, c, d), s.claims[c].row);
    assert t.log[|s.log|] == Settled(row, d.delivered);
    forall i, j | 0 <= i < j < |t.log| && t.log[i].Claimed? && t.log[j].Claimed? && t.log[i].row == t.log[j].row
                  && Unmarked(t.log, i, j, t.log[i].row)
      ensures t.log[i].at + reclaim < t.log[j].at
    {
      assert forall m :: i < m < j ==> t.log[m] == s.log[m];
      assert Unmarked(s.log, i, j, s.log[i].row);
    }
    forall i | 0 <= i < |t.log| && t.log[i].Claimed? && Unmarked(t.log, i, |t.log|, t.log[i].row)
      ensures t.log[i].row in t.rows && t.rows[t.log[i].row].lockedAt.Some?
      ensures t.log[i].at <= t.rows[t.log[i].row].lockedAt.value <= t.now
    {
      assert t.log[i].row != row;
      assert forall m :: i < m < |s.log| ==> t.log[m] == s.log[m];
      assert Unmarked(s.log, i, |s.log|, s.log[i].row);
    }
  }

  lemma StepKeepsApart(env: Setting, s: State, step: Step)
    requires ClaimLocks(s) && ClaimsApart(env.reclaim, s.log)
    ensures var t := Apply(env, s, step); ClaimLocks(t) && ClaimsApart(env.reclaim, t.log)
  {
    match step
    case Take(c, row) => TakeKeepsApart(env, s, c, row);
    case Deliver(c) => if MayMark(env, s, c) { MarkKeepsApart(env.reclaim, s, c, Delivery(true, s.now, s.now)); }
    case Fail(c, readAt) => if MayMark(env, s, c) { MarkKeepsApart(env.reclaim, s, c, Delivery(false, readAt, s.now)); }
    case _ =>
  }

  lemma StepKeepsSent(env: Setting, s: State, step: Step)
    requires SentIsFinal(s)
    ensures SentIsFinal(Apply(env, s, step))
  {
  }

  ghost predicate Safe(env: Setting, s: State) {
    ClaimLocks(s) && ClaimsApart(env.reclaim, s.log) && SentIsFinal(s)
  }

  lemma {:induction false} RunKeepsSafety(env: Setting, steps: seq<Step>)
    ensures Safe(env, Run(env, steps))
  {
    if steps != [] {
      var (s, step) := (Run(env, steps[..|steps| - 1]), steps[|steps| - 1]);
      RunKeepsSafety(env, steps[..|steps| - 1]);
      StepKeepsApart(env, s, step);
      StepKeepsSent(env, s, step);
    }
  }

  /** Two claims of a row with no mark between them are more than the reclaim time apart, whatever workers do. */
  lemma {:induction false} UnmarkedClaimsApart(env: Setting, steps: seq<Step>, i: nat, j: nat)
    requires var log := Run(env, steps).log;
             && i < j < |log| && log[i].Claimed? && log[j].Claimed? && log[i].row == log[j].row
             && Unmarked(log, i, j, log[i].row)
    ensures Run(env, steps).log[i].at + env.reclaim < Run(env, steps).log[j].at
  {
    RunKeepsSafety(env, steps);
  }

  /** Once delivered, a row stays sent and is never claimed again. */
  lemma {:induction false} SentNeverClaimed(env: Setting, steps: seq<Step>, i: nat)
    requires i < |Run(env, steps).log| && Run(env, steps).log[i].Settled? && Run(env, steps).log[i].delivered
    ensures var s := Run(env, steps);
            && s.log[i].row in s.rows && s.rows[s.log[i].row].sentAt.Some?
            && forall j :: i < j < |s.log| && s.log[j].Claimed? ==> s.log[j].row != s.log[i].row
  {
    RunKeepsSafety(env, steps);
  }

  // ----- With prompt workers: stall <= reclaim -----

  predicate LiveClaim(env: Setting, s: State, c: nat) {
    c in s.claims && s.now <= s.claims[c].at + env.stall
  }

  /**
   A live claim owns its row: the lock is its own, the attempts are those it read, and it started when the
   row was due.
   */
  predicate ClaimOk(s: State, k: Claim) {
    && k.row in s.rows && k.at <= s.now
    && var row := s.rows[k.row];
       && row.lockedAt == Some(k.at) && row.attempts == k.attempts < row.maxAttempts
       && row.sentAt.None? && row.availableAt <= k.at
  }

  ghost predicate OneOwner(env: Setting, s: State) {
    && (forall c :: LiveClaim(env, s, c) ==> ClaimOk(s, s.claims[c]))
    && (forall c, d :: LiveClaim(env, s, c) && LiveClaim(env, s, d) && c != d ==> s.claims[c].row != s.claims[d].row)
  }

  function BackoffSum(k: nat): nat {
    if k == 0 then 0 else BackoffSum(k - 1) + Min(30 * Pow2(k - 1), 3600)
  }

  /** Attempts count the failures; each attempt starts no earlier than the back-off after the one before. */
  ghost predicate HistoryOk(row: OutboxRow, starts: seq<nat>) {
    && |starts| == row.attempts + (if row.sentAt.Some? then 1 else 0) && row.attempts <= row.maxAttempts
    && (row.sentAt.Some? ==> row.attempts < row.maxAttempts)
    && (forall i, j :: 0 <= i < j < |starts| && j == i + 1 ==> starts[i] + ComputeBackoffSecs(i) * SEC <= starts[j])
    && (row.sentAt.None? && row.attempts > 0 ==>
          starts[row.attempts - 1] + ComputeBackoffSecs(row.attempts - 1) * SEC <= row.availableAt)
  }

  ghost predicate HistoriesOk(s: State) {
    && (forall id :: id in s.rows ==> HistoryOk(s.rows[id], Starts(s, id)))
    && (forall id :: id in s.starts ==> id in s.rows)
  }

  lemma SettleKeepsHistory(row: OutboxRow, starts: seq<nat>, at: nat, d: Delivery)
    requires HistoryOk(row, starts) && row.sentAt.None? && row.attempts < row.maxAttempts
    requires row.availableAt <= at <= d.readAt
    ensures HistoryOk(Settle(row, row.attempts, d), starts + [at])
  {
  }

  lemma StepKeepsOwner(env: Setting, s: State, step: Step)
    requires env.stall <= env.reclaim && OneOwner(env, s)
    ensures OneOwner(env, Apply(env, s, step))
  {
  }

  lemma MarkKeepsHistories(env: Setting, s: State, c: nat, d: Delivery)
    requires OneOwner(env, s) && HistoriesOk(s) && LiveClaim(env, s, c) && s.claims[c].at <= d.readAt
    ensures s.claims[c].row in s.rows && HistoriesOk(ApplyMark(s, c, d))
  {
    var k := s.claims[c];
    assert ClaimOk(s, k) && HistoryOk(s.rows[k.row], Starts(s, k.row));
    SettleKeepsHistory(s.rows[k.row], Starts(s, k.row), k.at, d);
    var t := ApplyMark(s, c, d);
    forall id | id in t.rows && id != k.row
      ensures HistoryOk(t.rows[id], Starts(t, id))
    {
      assert HistoryOk(s.rows[id], Starts(s, id)) && Starts(t, id) == Starts(s, id);
    }
  }

  lemma OtherKeepsHistories(env: Setting, s: State, step: Step)
    requires HistoriesOk(s) && (step.Take? || step.Enqueue?)
    ensures HistoriesOk(Apply(env, s, step))
  {
  }

  lemma StepKeepsHistories(env: Setting, s: State, step: Step)
    requires env.stall <= env.reclaim && OneOwner(env, s) && HistoriesOk(s)
    ensures HistoriesOk(Apply(env, s, step))
  {
    match step
    case Deliver(c) =>
      if MayMark(env, s, c) {
        assert LiveClaim(env, s, c) && ClaimOk(s, s.claims[c]);
        MarkKeepsHistories(env, s, c, Delivery(true, s.now, s.now));
      }
    case Fail(c, readAt) =>
      if MayMark(env, s, c) && s.claims[c].at <= readAt <= s.now {
        MarkKeepsHistories(env, s, c, Delivery(false, readAt, s.now));
      }
    case Take(_, _) => OtherKeepsHistories(env, s, step);
    case Enqueue(_, _) => OtherKeepsHistories(env, s, step);
    case _ =>
  }

  lemma {:induction false} RunKeepsOwner(env: Setting, steps: seq<Step>)
    requires env.stall <= env.reclaim
    ensures OneOwner(env, Run(env, steps)) && HistoriesOk(Run(env, steps))
  {
    if steps != [] {
      RunKeepsOwner(env, steps[..|steps| - 1]);
      StepKeepsOwner(env, Run(env, steps[..|steps| - 1]), steps[|steps| - 1]);
      StepKeepsHistories(env, Run(env, steps[..|steps| - 1]), steps[|steps| - 1]);
    }
  }

  /** With prompt workers a row has at most one live claim and never more attempts than allowed. */
  lemma {:induction false} PromptSafety(env: Setting, steps: seq<Step>, id: Uuid)
    requires env.stall <= env.reclaim && id in Run(env, steps).rows
    ensures var s := Run(env, steps);
            && s.rows[id].attempts <= s.rows[id].maxAttempts
            && forall c, d :: LiveClaim(env, s, c) && LiveClaim(env, s, d) && s.claims[c].row == s.claims[d].row == id
                 ==> c == d
  {
    RunKeepsOwner(env, steps);
    assert HistoryOk(Run(env, steps).rows[id], Starts(Run(env, steps), id));
  }

  lemma {:induction false} StartsSpread(row: OutboxRow, starts: seq<nat>, k: nat)
    requires HistoryOk(row, starts) && k < |starts|
    ensures starts[0] + BackoffSum(k) * SEC <= starts[k]
  {
    if k > 0 {
      StartsSpread(row, starts, k - 1);
      BackoffClosedForm(k - 1);
      assert starts[k - 1] + ComputeBackoffSecs(k - 1) * SEC <= starts[k];
    }
  }

  /**
   Retry spacing: with prompt workers the (k+1)-th completed delivery attempt of a row starts no earlier than
   the sum of min(30 * 2^i, 3600) seconds over i < k after the first, and there are at most `maxAttempts`.
   */
  lemma RetrySpacing(env: Setting, steps: seq<Step>, id: Uuid, k: nat)
    requires env.stall <= env.reclaim && id in Run(env, steps).rows && k < |Starts(Run(env, steps), id)|
    ensures var starts := Starts(Run(env, steps), id);
            && starts[0] + BackoffSum(k) * SEC <= starts[k]
            && |starts| <= Run(env, steps).rows[id].maxAttempts
  {
    RunKeepsOwner(env, steps);
    var s := Run(env, steps);
    assert HistoryOk(s.rows[id], Starts(s, id));
    StartsSpread(s.rows[id], Starts(s, id), k);
  }

  lemma RunExtend(env: Setting, steps: seq<Step>, step: Step)
    ensures Run(env, steps + [step]) == Apply(env, Run(env, steps), step)
  {
  }

  /** One row, claimed at 0 and, when its lock is stale, again; the second claim is marked first, then the first. */
  lemma StalledWorker(env: Setting) returns (steps: seq<Step>)
    requires env.reclaim < env.stall
    ensures var s := Run(env, steps);
            && 0 in s.rows && s.rows[0].attempts == 2 && s.rows[0].maxAttempts == 1
            && Starts(s, 0) == [env.reclaim + 1, 0]
  {
    var late := env.reclaim + 1;
    steps := [];
    RunExtend(env, steps, Enqueue(0, 1));
    steps := steps + [Enqueue(0, 1)];
    RunExtend(env, steps, Take(1, 0));
    steps := steps + [Take(1, 0)];
    RunExtend(env, steps, Tick(late));
    steps := steps + [Tick(late)];
    RunExtend(env, steps, Take(2, 0));
    steps := steps + [Take(2, 0)];
    assert Run(env, steps).claims == map[1 := Claim(0, 0, 0), 2 := Claim(0, 0, late)];
    RunExtend(env, steps, Fail(2, late));
    steps := steps + [Fail(2, late)];
    RunExtend(env, steps, Fail(1, late));
    steps := steps + [Fail(1, late)];
  }

  /** No row of any run has more attempts than allowed. */
  ghost predicate CapHolds(env: Setting) {
    forall steps, id :: id in Run(env, steps).rows ==>
      Run(env, steps).rows[id].attempts <= Run(env, steps).rows[id].maxAttempts
  }

  /** In every run the completed attempts of a row start at least the sum of their back-offs apart. */
  ghost predicate SpacingHolds(env: Setting) {
    forall steps, id, k :: id in Run(env, steps).rows && 0 <= k < |Starts(Run(env, steps), id)| ==>
      Starts(Run(env, steps), id)[0] + BackoffSum(k) * SEC <= Starts(Run(env, steps), id)[k]
  }

  /** The cap holds exactly when no worker takes longer from claim to mark than the reclaim time. */
  lemma CapHoldsIff(env: Setting)
    ensures CapHolds(env) <==> env.stall <= env.reclaim
  {
    if env.stall <= env.reclaim {
      forall steps, id | id in Run(env, steps).rows
        ensures Run(env, steps).rows[id].attempts <= Run(env, steps).rows[id].maxAttempts
      {
        PromptSafety(env, steps, id);
      }
    } else {
      var steps := StalledWorker(env);
      assert 0 in Run(env, steps).rows;
    }
  }

  /** And so does the spacing of retries. */
  lemma SpacingHoldsIff(env: Setting)
    ensures SpacingHolds(env) <==> env.stall <= env.reclaim
  {
    if env.stall <= env.reclaim {
      forall steps, id, k | id in Run(env, steps).rows && 0 <= k < |Starts(Run(env, steps), id)|
        ensures Starts(Run(env, steps), id)[0] + BackoffSum(k) * SEC <= Starts(Run(env, steps), id)[k]
      {
        RetrySpacing(env, steps, id, k);
      }
    } else {
      var steps := StalledWorker(env);
      assert Starts(Run(env, steps), 0)[1] < Starts(Run(env, steps), 0)[0] + BackoffSum(1) * SEC;
    }
  }

  /**
   A retry does come: in any run, after a failed delivery of a row claimed with n attempts, a claim at the instant `to`
   takes the row iff it is not sent, has attempts left, and min(30 * 2^n, 3600) seconds have passed since the failure.
   */
  lemma {:induction false} RetriedIff(env: Setting, steps: seq<Step>, c: nat, readAt: nat, to: nat, d: nat)
    requires var s := Run(env, steps);
             && MayMark(env, s, c) && s.claims[c].at <= readAt <= s.now <= to && d !in s.claims
    ensures var s := Run(env, steps);
            var t := Run(env, steps + [Fail(c, readAt)] + [Tick(to)] + [Take(d, s.claims[c].row)]);
            var (row, n) := (s.rows[s.claims[c].row], s.claims[c].attempts);
            var wait := if 30 * Pow2(n) <= 3600 then 30 * Pow2(n) else 3600;
            && (d in t.claims <==>
                  row.sentAt.None? && row.attempts + 1 < row.maxAttempts && readAt + wait * 1_000_000_000 <= to)
            && (d in t.claims ==> t.claims[d] == Claim(s.claims[c].row, row.attempts + 1, to))
  {
    var s := Run(env, steps);
    var id := s.claims[c].row;
    SettleLaw(s.rows[id], s.claims[c].attempts, Delivery(false, readAt, s.now));
    RunExtend(env, steps, Fail(c, readAt));
    RunExtend(env, steps + [Fail(c, readAt)], Tick(to));
    RunExtend(env, steps + [Fail(c, readAt)] + [Tick(to)], Take(d, id));
  }

  /** A delivered row is never due again, whatever the clock says. */
  lemma {:induction false} DeliveredNotTaken(env: Setting, steps: seq<Step>, c: nat, to: nat, d: nat)
    requires MayMark(env, Run(env, steps), c) && d !in Run(env, steps).claims
    ensures d !in Run(env, steps + [Deliver(c)] + [Tick(to)] + [Take(d, Run(env, steps).claims[c].row)]).claims
  {
    var id := Run(env, steps).claims[c].row;
    RunExtend(env, steps, Deliver(c));
    RunExtend(env, steps + [Deliver(c)], Tick(to));
    RunExtend(env, steps + [Deliver(c)] + [Tick(to)], Take(d, id));
  }
}
