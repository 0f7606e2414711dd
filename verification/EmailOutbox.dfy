/** The transactional email outbox: the statements of its table and the worker's batch. */
module EmailOutbox {
  import opened Wrappers
  import opened Clock
  import opened AccessTokens

  const BACKOFF_BASE_SECS: nat := 30

  const BACKOFF_MAX_SECS: nat := 3600

  function Pow2(n: nat): nat {
    if n == 0 then 1 else 2 * Pow2(n - 1)
  }

  function Min(a: nat, b: nat): nat {
    if a <= b then a else b
  }

  /** `compute_backoff_secs`: the exponent is clamped to 0..16 before the shift. */
  function ComputeBackoffSecs(attempts: int): nat {
    var shift := if attempts < 0 then 0 else if attempts > 16 then 16 else attempts;
    Min(Min(BACKOFF_BASE_SECS * Pow2(shift), U64_MAX), BACKOFF_MAX_SECS)
  }

  lemma {:induction false} Pow2AtLeast(n: nat)
    requires n >= 7
    ensures Pow2(n) >= 128
  {
    if n == 7 {
      assert Pow2(4) == 16 && Pow2(7) == 8 * Pow2(4);
    } else {
      Pow2AtLeast(n - 1);
    }
  }

  /** The clamp is invisible: the delay is min(30 * 2^n, 3600) for every number of attempts. */
  lemma BackoffClosedForm(n: nat)
    ensures ComputeBackoffSecs(n) == if 30 * Pow2(n) <= 3600 then 30 * Pow2(n) else 3600
  {
    if n > 16 {
      Pow2AtLeast(16);
      Pow2AtLeast(n);
    } else if n >= 7 {
      Pow2AtLeast(n);
    }
  }

  /** The delays in seconds, failure by failure: from 30 doubling to an hour. */
  lemma BackoffTable(n: nat)
    ensures ComputeBackoffSecs(0) == 30 && ComputeBackoffSecs(1) == 60 && ComputeBackoffSecs(2) == 120
    ensures ComputeBackoffSecs(3) == 240 && ComputeBackoffSecs(4) == 480 && ComputeBackoffSecs(5) == 960
    ensures ComputeBackoffSecs(6) == 1920 && (n >= 7 ==> ComputeBackoffSecs(n) == 3600)
  {
    assert Pow2(3) == 8 && Pow2(4) == 16 && Pow2(5) == 32 && Pow2(6) == 64;
    BackoffClosedForm(n);
    if n >= 7 { Pow2AtLeast(n); }
  }

  datatype OutboxRow = OutboxRow(attempts: nat, maxAttempts: nat, availableAt: nat, lockedAt: Option<nat>,
                                 sentAt: Option<nat>)

  type Outbox = map<Uuid, OutboxRow>

  /** The `WHERE` clause of a claim. */
  predicate Claimable(row: OutboxRow, reclaim: nat, now: nat) {
    && row.sentAt.None? && (row.lockedAt.None? || row.lockedAt.value + reclaim < now)
    && row.availableAt <= now && row.attempts < row.maxAttempts
  }

  function Lock(row: OutboxRow, now: nat): OutboxRow {
    row.(lockedAt := Some(now))
  }

  function MarkSent(row: OutboxRow, now: nat): OutboxRow {
    row.(sentAt := Some(now), lockedAt := None)
  }

  function MarkFailed(row: OutboxRow, availableAt: nat): OutboxRow {
    row.(attempts := row.attempts + 1, availableAt := availableAt, lockedAt := None)
  }

  /** The ids a claim returns: in order of age, claimable, not locked by another claim, at most `limit`. */
  function Select(rows: Outbox, byAge: seq<Uuid>, busy: set<Uuid>, reclaim: nat, now: nat, limit: nat): (ids: seq<Uuid>)
    ensures |ids| <= limit && |ids| <= |byAge|
    ensures forall i :: 0 <= i < |ids| ==> ids[i] in byAge && ids[i] in rows && Claimable(rows[ids[i]], reclaim, now)
    ensures forall i :: 0 <= i < |ids| ==> ids[i] !in busy
  {
    if byAge == [] then []
    else
      var ids := Select(rows, byAge[..|byAge| - 1], busy, reclaim, now, limit);
      var id := byAge[|byAge| - 1];
      if |ids| < limit && id in rows && Claimable(rows[id], reclaim, now) && id !in busy then ids + [id] else ids
  }

  function LockAll(rows: Outbox, ids: seq<Uuid>, now: nat): Outbox {
    map id | id in rows :: if id in ids then Lock(rows[id], now) else rows[id]
  }

  /**
   What became of a claimed item: the verdict of the sender, the clock reading for the retry, the instant of
   the mark.
   */
  datatype Delivery = Delivery(delivered: bool, readAt: nat, markedAt: nat)

  function Settle(row: OutboxRow, attempts: nat, d: Delivery): OutboxRow {
    if d.delivered then MarkSent(row, d.markedAt) else MarkFailed(row, d.readAt + ComputeBackoffSecs(attempts) * SEC)
  }

  class Worker {
    const batchSize: nat
    const reclaim: nat
    var rows: Outbox

    constructor (batchSize: nat, reclaim: nat)
      ensures this.batchSize == batchSize && this.reclaim == reclaim && rows == map[]
    {
      this.batchSize := batchSize;
      this.reclaim := reclaim;
      rows := map[];
    }

    /** `claim_pending_emails`, with SKIP LOCKED as the set of ids another claim holds. */
    method ClaimPending(byAge: seq<Uuid>, busy: set<Uuid>, now: nat) returns (ids: seq<Uuid>)
      modifies `rows
      ensures ids == Select(old(rows), byAge, busy, reclaim, now, batchSize)
      ensures rows == LockAll(old(rows), ids, now)
    {
      ids := [];
      for i := 0 to |byAge|
        invariant ids == Select(rows, byAge[..i], busy, reclaim, now, batchSize)
      {
        assert byAge[..i + 1][..i] == byAge[..i];
        var id := byAge[i];
        if |ids| < batchSize && id in rows && Claimable(rows[id], reclaim, now) && id !in busy {
          ids := ids + [id];
        }
      }
      assert byAge[..|byAge|] == byAge;
      rows := map id | id in rows :: if id in ids then Lock(rows[id], now) else rows[id];
    }

    /**
     `process_batch`: claim, then deliver and mark each item with the attempts it was claimed with. An
     item without a delivery is one whose mark was lost: no connection, a failed update or a crash.
     */
    method ProcessBatch(byAge: seq<Uuid>, busy: set<Uuid>, now: nat, deliveries: map<Uuid, Delivery>)
      returns (ids: seq<Uuid>)
      modifies `rows
      ensures ids == Select(old(rows), byAge, busy, reclaim, now, batchSize)
      ensures rows == SettleAll(LockAll(old(rows), ids, now), ids, deliveries)
    {
      ids := ClaimPending(byAge, busy, now);
      var claimed := rows;
      for i := 0 to |ids|
        invariant rows == SettleAll(claimed, ids[..i], deliveries)
      {
        var id := ids[i];
        if id in deliveries {
          var d := deliveries[id];
          if d.delivered {
            rows := rows[id := MarkSent(rows[id], d.markedAt)];
          } else {
            rows := rows[id := MarkFailed(rows[id], d.readAt + ComputeBackoffSecs(claimed[id].attempts) * SEC)];
          }
        }
        assert ids[..i + 1][..i] == ids[..i];
      }
      assert ids[..|ids|] == ids;
    }
  }

  /** The table after the marks of a batch, in order. */
  function SettleAll(claimed: Outbox, ids: seq<Uuid>, deliveries: map<Uuid, Delivery>): (rows: Outbox)
    ensures rows.Keys == claimed.Keys
  {
    if ids == [] then claimed
    else
      var (rows, id) := (SettleAll(claimed, ids[..|ids| - 1], deliveries), ids[|ids| - 1]);
      if id in rows && id in deliveries then rows[id := Settle(rows[id], claimed[id].attempts, deliveries[id])]
      else rows
  }

  /** Whatever the order of the marks: each claimed row settled once, by its own delivery, and no other row touched. */
  function Settled(claimed: Outbox, ids: set<Uuid>, deliveries: map<Uuid, Delivery>): Outbox {
    map id | id in claimed ::
      if id in ids && id in deliveries then Settle(claimed[id], claimed[id].attempts, deliveries[id]) else claimed[id]
  }

  /** The items of a batch are delivered concurrently; the order in which they finish does not matter. */
  lemma {:induction false} SettledInAnyOrder(claimed: Outbox, ids: seq<Uuid>, deliveries: map<Uuid, Delivery>)
    requires Distinct(ids)
    ensures SettleAll(claimed, ids, deliveries) == Settled(claimed, Elements(ids), deliveries)
  {
    if ids == [] {
      assert Settled(claimed, Elements(ids), deliveries) == claimed;
    } else {
      var (init, last) := (ids[..|ids| - 1], ids[|ids| - 1]);
      SettledInAnyOrder(claimed, init, deliveries);
      assert ids == init + [last] && last !in init;
    }
  }

  function Elements(ids: seq<Uuid>): set<Uuid> {
    set id | id in ids
  }

  ghost predicate Distinct(ids: seq<Uuid>) {
    forall i, j :: 0 <= i < j < |ids| ==> ids[i] != ids[j]
  }

  lemma {:induction false} SelectDistinct(rows: Outbox, byAge: seq<Uuid>, busy: set<Uuid>, reclaim: nat, now: nat,
                                          limit: nat)
    requires Distinct(byAge)
    ensures Distinct(Select(rows, byAge, busy, reclaim, now, limit))
  {
    if byAge != [] {
      var (init, last) := (byAge[..|byAge| - 1], byAge[|byAge| - 1]);
      SelectDistinct(rows, init, busy, reclaim, now, limit);
      var ids := Select(rows, init, busy, reclaim, now, limit);
      assert last !in init by {
        forall k | 0 <= k < |init| ensures init[k] != last { assert init[k] == byAge[k]; }
      }
      assert forall i :: 0 <= i < |ids| ==> ids[i] in init;
    }
  }

  /** The oldest go first: an id is passed over only when the batch is full of older ones. */
  lemma {:induction false} OldestFirst(rows: Outbox, byAge: seq<Uuid>, busy: set<Uuid>, reclaim: nat, now: nat,
                                       limit: nat, p: nat)
    requires p < |byAge| && byAge[p] in rows && Claimable(rows[byAge[p]], reclaim, now) && byAge[p] !in busy
    ensures var ids := Select(rows, byAge, busy, reclaim, now, limit);
            byAge[p] in ids || (|ids| == limit && forall i :: 0 <= i < |ids| ==> ids[i] in byAge[..p])
  {
    var init := byAge[..|byAge| - 1];
    if p < |init| {
      OldestFirst(rows, init, busy, reclaim, now, limit, p);
      assert init[p] == byAge[p] && init[..p] == byAge[..p];
    }
  }

  // ----- The statements spelled out -----

  /**
   A row the claim may take: not held by another claim, not sent, not locked or locked longer ago than the reclaim
   time, due, and with attempts left.
   */
  predicate Takeable(rows: Outbox, busy: set<Uuid>, reclaim: nat, now: nat, id: Uuid) {
    && id in rows && id !in busy && rows[id].sentAt == None
    && (rows[id].lockedAt == None || rows[id].lockedAt.value + reclaim < now)
    && rows[id].availableAt <= now && rows[id].attempts < rows[id].maxAttempts
  }

  function CountTakeable(rows: Outbox, busy: set<Uuid>, reclaim: nat, now: nat, ids: seq<Uuid>): nat {
    if ids == [] then 0
    else CountTakeable(rows, busy, reclaim, now, ids[..|ids| - 1])
         + (if Takeable(rows, busy, reclaim, now, ids[|ids| - 1]) then 1 else 0)
  }

  lemma {:induction false} SelectCounts(rows: Outbox, byAge: seq<Uuid>, busy: set<Uuid>, reclaim: nat, now: nat,
                                        limit: nat)
    ensures var n := CountTakeable(rows, busy, reclaim, now, byAge);
            |Select(rows, byAge, busy, reclaim, now, limit)| == if n <= limit then n else limit
  {
    if byAge != [] {
      SelectCounts(rows, byAge[..|byAge| - 1], busy, reclaim, now, limit);
    }
  }

  /** A claim returns exactly the oldest rows it may take, up to its limit. */
  lemma {:induction false} SelectedIff(rows: Outbox, byAge: seq<Uuid>, busy: set<Uuid>, reclaim: nat, now: nat,
                                       limit: nat, p: nat)
    requires Distinct(byAge) && p < |byAge|
    ensures byAge[p] in Select(rows, byAge, busy, reclaim, now, limit) <==>
              && Takeable(rows, busy, reclaim, now, byAge[p])
              && CountTakeable(rows, busy, reclaim, now, byAge[..p]) < limit
  {
    var init := byAge[..|byAge| - 1];
    var ids := Select(rows, init, busy, reclaim, now, limit);
    if p < |init| {
      SelectedIff(rows, init, busy, reclaim, now, limit, p);
      assert init[p] == byAge[p] && init[..p] == byAge[..p] && byAge[p] != byAge[|byAge| - 1];
    } else {
      assert byAge[..p] == init;
      SelectCounts(rows, init, busy, reclaim, now, limit);
      assert byAge[p] !in init by {
        forall k | 0 <= k < |init| ensures init[k] != byAge[p] { assert init[k] == byAge[k]; }
      }
    }
  }

  /** The claim locks what it returns, now, and touches nothing else of any row. */
  lemma LockLaw(rows: Outbox, ids: seq<Uuid>, now: nat)
    ensures var t := LockAll(rows, ids, now);
            && t.Keys == rows.Keys
            && forall id :: id in rows ==>
                 && (id !in ids ==> t[id] == rows[id])
                 && (id in ids ==> t[id] == OutboxRow(rows[id].attempts, rows[id].maxAttempts, rows[id].availableAt,
                                                      Some(now), rows[id].sentAt))
  {
  }

  /**
   A delivery retires the row; a failure counts, unlocks the row and puts it off by min(30 * 2^n, 3600) seconds, n being
   the attempts it was claimed with.
   */
  lemma SettleLaw(row: OutboxRow, n: nat, d: Delivery)
    ensures var wait := if 30 * Pow2(n) <= 3600 then 30 * Pow2(n) else 3600;
            Settle(row, n, d) ==
              if d.delivered then OutboxRow(row.attempts, row.maxAttempts, row.availableAt, None, Some(d.markedAt))
              else OutboxRow(row.attempts + 1, row.maxAttempts, d.readAt + wait * 1_000_000_000, None, row.sentAt)
  {
    BackoffClosedForm(n);
  }
}
