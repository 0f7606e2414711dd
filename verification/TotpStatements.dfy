/**
 The two-factor service statement by statement: any number of setups, confirmations, verifications and
 disables in flight, with cleanups and deletions anywhere. A transaction holds what its statements have
 updated until it commits; an UPDATE that matched no row holds nothing.
 */
module TotpStatements {
  import opened Wrappers
  import opened Clock
  import opened TtlCaches
  import opened AccessTokens
  import opened RecoveryCodes
  import opened TotpService

  /** A row of `dpop_recovery_codes`. */
  datatype CodeRow = CodeRow(row: nat, hash: CodeHash)

  /**
   What is committed for a user: the row and the unused codes. `spent` counts the codes accepted since the
   last confirmation that committed, `confirms` those confirmations.
   */
  datatype Ledger = Ledger(row: UserRow, codes: set<CodeRow>, spent: nat, confirms: nat)

  /**
   How far a transaction has come: its UPDATE of the user row; the snapshot and the locks of its
   invalidation; its insert.
   */
  datatype Stage = Touched | Seen | Struck | Filled

  /** What a call has established by its reads and will act on, or the transaction it is in. */
  datatype Req =
    | Drafting(u: Uuid, secret: TotpSecret)
    | Confirming(u: Uuid)
    | Spending(u: Uuid, h: CodeHash, stepUp: bool)
    | Disabling(u: Uuid)
    | Tx(u: Uuid, confirm: bool, matched: bool, stage: Stage, seen: set<CodeRow>, since: nat, hits: set<CodeRow>,
         rows: set<CodeRow>)

  datatype State = State(now: nat, users: map<Uuid, Ledger>, replay: map<ReplayKey, Entry<bool>>, reqs: map<nat, Req>,
                         next: nat)

  datatype Step =
    | Tick(to: nat)
    | AddUser(u: Uuid)
    | DeleteUser(u: Uuid)
    | SweepDraft(u: Uuid)
    | ReadForSetup(id: nat, u: Uuid, newSecret: TotpSecret)
    | StoreDraft(id: nat)
    | ReadForConfirm(id: nat, u: Uuid, code: string)
    | ReadForVerify(id: nat, u: Uuid, code: string, stepUp: bool)
    | Consume(id: nat, target: CodeRow)
    | Touch(id: nat)
    | See(id: nat)
    | Strike(id: nat)
    | Fill(id: nat, e: Entropy)
    | Commit(id: nat)
    | Drop(id: nat)

  const Init: State := State(0, map[], map[], map[], 0)

  const NewLedger: Ledger := Ledger(NewUser, {}, 0, 0)

  predicate UserLocked(s: State, u: Uuid) {
    exists id | id in s.reqs :: s.reqs[id].Tx? && s.reqs[id].u == u && s.reqs[id].matched
  }

  predicate CodeLocked(s: State, u: Uuid, code: CodeRow) {
    exists id | id in s.reqs :: s.reqs[id].Tx? && s.reqs[id].u == u && code in s.reqs[id].hits
  }

  /** Another transaction is about to insert a code with this hash for the same user. */
  predicate HashPending(s: State, u: Uuid, h: CodeHash) {
    exists id | id in s.reqs :: s.reqs[id].Tx? && s.reqs[id].u == u && exists r | r in s.reqs[id].rows :: r.hash == h
  }

  /** The guard of the transaction's first UPDATE. */
  predicate Matches(confirm: bool, row: UserRow) {
    !row.deleted && if confirm then row.pending.Some? else row.enabled
  }

  function SetRow(s: State, u: Uuid, row: UserRow): State
    requires u in s.users
  {
    s.(users := s.users[u := s.users[u].(row := row)])
  }

  function SetReq(s: State, id: nat, q: Req): State {
    s.(reqs := s.reqs[id := q])
  }

  function End(s: State, id: nat): State {
    s.(reqs := s.reqs - {id})
  }

  function CodeHashes(e: Entropy): (hs: seq<CodeHash>)
    ensures |hs| == 10
  {
    seq(10, i requires 0 <= i < 10 => HashRecoveryCode(FreshCodes(e)[i]))
  }

  function RowsOf(next: nat, hs: seq<CodeHash>): set<CodeRow> {
    set i | 0 <= i < |hs| :: CodeRow(next + i, hs[i])
  }

  function NewRows(next: nat, e: Entropy): set<CodeRow> {
    RowsOf(next, CodeHashes(e))
  }

  predicate PresentUser(s: State, u: Uuid) {
    u in s.users && !s.users[u].row.deleted
  }

  function ApplyReadForSetup(s: State, id: nat, u: Uuid, newSecret: TotpSecret): State {
    if id !in s.reqs && PresentUser(s, u) && !s.users[u].row.enabled && GetPending(s.users[u].row, s.now).None? then
      SetReq(s, id, Drafting(u, newSecret))
    else s
  }

  /** A statement on a user row waits while a transaction holds the row. */
  function ApplyStoreDraft(s: State, id: nat): State {
    if !(id in s.reqs && s.reqs[id].Drafting? && s.reqs[id].u in s.users) || UserLocked(s, s.reqs[id].u) then s
    else End(SetRow(s, s.reqs[id].u, SetPending(s.users[s.reqs[id].u].row, s.reqs[id].secret, s.now)), id)
  }

  /** The draft is read and the code verified against it. */
  function ApplyReadForConfirm(hotp: Hotp, s: State, id: nat, u: Uuid, code: string): State {
    if id in s.reqs || !PresentUser(s, u) || s.users[u].row.enabled then s
    else
      match GetPending(s.users[u].row, s.now)
      case None => s
      case Some(secret) => if VerifyCode(hotp, secret, code, s.now) then SetReq(s, id, Confirming(u)) else s
  }

  /**
   A recovery code is routed to its consumption; a TOTP code is checked and recorded, and passes a step-up at
   once.
   */
  function ApplyReadForVerify(hotp: Hotp, s: State, id: nat, u: Uuid, code: string, stepUp: bool): State {
    if id in s.reqs || !PresentUser(s, u) || !s.users[u].row.enabled then s
    else if IsRecoveryCode(code) then SetReq(s, id, Spending(u, HashRecoveryCode(code), stepUp))
    else
      var (secret, key) := (s.users[u].row.secret, ReplayKey(u, Trim(code)));
      if secret.None? || !VerifyCode(hotp, secret.value, code, s.now) || Live(s.replay, REPLAY_TTL, key, s.now) then s
      else
        var t := s.(replay := s.replay[key := Entry(true, s.now)]);
        if stepUp then SetReq(t, id, Disabling(u)) else t
  }

  /** The compare-and-swap on an unused code: it waits for a code that a transaction holds, and fails without one. */
  function ApplyConsume(s: State, id: nat, code: CodeRow): State {
    if !(id in s.reqs && s.reqs[id].Spending? && s.reqs[id].u in s.users) then s
    else
      var (q, l) := (s.reqs[id], s.users[s.reqs[id].u]);
      if forall r | r in l.codes :: r.hash != q.h then End(s, id)
      else if code !in l.codes || code.hash != q.h || CodeLocked(s, q.u, code) then s
      else
        var t := s.(users := s.users[q.u := Consumed(l, code)]);
        if q.stepUp then SetReq(t, id, Disabling(q.u)) else End(t, id)
  }

  /**
   `activate_totp` or `disable_totp`: it waits for a row that matches and is held, and holds a row that it
   matched.
   */
  function ApplyTouch(s: State, id: nat): State {
    if !(id in s.reqs && (s.reqs[id].Confirming? || s.reqs[id].Disabling?) && s.reqs[id].u in s.users) then s
    else
      var (u, confirm) := (s.reqs[id].u, s.reqs[id].Confirming?);
      var matched := Matches(confirm, s.users[u].row);
      if matched && UserLocked(s, u) then s else SetReq(s, id, Tx(u, confirm, matched, Touched, {}, 0, {}, {}))
  }

  /** The invalidation reads its snapshot: the unused codes that are committed. */
  function ApplySee(s: State, id: nat): State {
    if !(id in s.reqs && s.reqs[id].Tx? && s.reqs[id].stage.Touched? && s.reqs[id].u in s.users) then s
    else
      var (q, l) := (s.reqs[id], s.users[s.reqs[id].u]);
      SetReq(s, id, q.(stage := Seen, seen := l.codes, since := l.confirms))
  }

  /** It waits for codes that another transaction holds, and then locks those of its snapshot that are still unused. */
  function ApplyStrike(s: State, id: nat): State {
    if !(id in s.reqs && s.reqs[id].Tx? && s.reqs[id].stage.Seen? && s.reqs[id].u in s.users) then s
    else
      var q := s.reqs[id];
      var hits := q.seen * s.users[q.u].codes;
      if exists r | r in hits :: CodeLocked(s, q.u, r) then s else SetReq(s, id, q.(stage := Struck, hits := hits))
  }

  /** Ten new codes; two equal unused codes of a user violate the index, and a pending one is waited for. */
  function ApplyFill(s: State, id: nat, e: Entropy): State {
    if !(id in s.reqs && s.reqs[id].Tx? && s.reqs[id].confirm && s.reqs[id].stage.Struck?
         && s.reqs[id].u in s.users) then s
    else
      var (q, hashes) := (s.reqs[id], Hashes(FreshCodes(e)));
      if exists h | h in hashes :: HashPending(s, q.u, h) then s
      else if |hashes| < 10 || exists r | r in s.users[q.u].codes - q.hits :: r.hash in hashes then End(s, id)
      else SetReq(s, id, q.(stage := Filled, rows := NewRows(s.next, e))).(next := s.next + 10)
  }

  predicate ReadyToCommit(s: State, id: nat) {
    && id in s.reqs && s.reqs[id].Tx? && s.reqs[id].u in s.users
    && (if s.reqs[id].confirm then s.reqs[id].stage.Filled? else s.reqs[id].stage.Struck?)
  }

  /** What the commit of `q` makes of its user's ledger. */
  function Settled(l: Ledger, q: Req, now: nat): Ledger
    requires q.Tx?
  {
    var row := if !q.matched then l.row else if q.confirm then Activate(l.row, now) else Disable(l.row);
    var codes := l.codes - q.hits + q.rows;
    if q.confirm then Ledger(row, codes, 0, l.confirms + 1) else l.(row := row, codes := codes)
  }

  function ApplyCommit(s: State, id: nat): State {
    if !ReadyToCommit(s, id) then s
    else End(s.(users := s.users[s.reqs[id].u := Settled(s.users[s.reqs[id].u], s.reqs[id], s.now)]), id)
  }

  function Apply(hotp: Hotp, s: State, step: Step): State {
    match step
    case Tick(to) => if s.now <= to then s.(now := to) else s
    case AddUser(u) => if u in s.users then s else s.(users := s.users[u := NewLedger])
    case DeleteUser(u) =>
      if u !in s.users || UserLocked(s, u) then s else SetRow(s, u, s.users[u].row.(deleted := true))
    case SweepDraft(u) =>
      if u !in s.users || UserLocked(s, u) then s else SetRow(s, u, CleanupDraft(s.users[u].row, s.now))
    case ReadForSetup(id, u, newSecret) => ApplyReadForSetup(s, id, u, newSecret)
    case StoreDraft(id) => ApplyStoreDraft(s, id)
    case ReadForConfirm(id, u, code) => ApplyReadForConfirm(hotp, s, id, u, code)
    case ReadForVerify(id, u, code, stepUp) => ApplyReadForVerify(hotp, s, id, u, code, stepUp)
    case Consume(id, target) => ApplyConsume(s, id, target)
    case Touch(id) => ApplyTouch(s, id)
    case See(id) => ApplySee(s, id)
    case Strike(id) => ApplyStrike(s, id)
    case Fill(id, e) => ApplyFill(s, id, e)
    case Commit(id) => ApplyCommit(s, id)
    case Drop(id) => End(s, id)
  }

  function Run(hotp: Hotp, steps: seq<Step>): State {
    if steps == [] then Init else Apply(hotp, Run(hotp, steps[..|steps| - 1]), steps[|steps| - 1])
  }

  // ----- Conservation, and when a commit keeps it -----

  /** A user that exists has 10 codes less those spent with 2FA on, and none with 2FA off. */
  predicate Conserved(l: Ledger) {
    l.row.deleted || |l.codes| == if l.row.enabled then 10 - l.spent else 0
  }

  ghost predicate AllConserved(s: State) {
    forall u :: u in s.users ==> Conserved(s.users[u])
  }

  /**
   No confirmation has committed since the transaction's invalidation read its snapshot, or all its codes are
   spent.
   */
  predicate Current(l: Ledger, q: Req)
    requires q.Tx?
  {
    q.since == l.confirms || l.spent == 10
  }

  /**
   A confirmation promotes a draft, or finds 2FA on and the codes it replaces current. A disable switches 2FA
   off with the codes it uses up current, or finds 2FA off, or uses up no code.
   */
  predicate Sound(l: Ledger, q: Req)
    requires q.Tx?
  {
    if q.confirm then q.matched || (l.row.enabled && Current(l, q))
    else if q.matched then Current(l, q)
    else !l.row.enabled || q.hits == {}
  }

  /** If the step commits a transaction of a user that exists, it is sound. */
  predicate SoundStep(s: State, step: Step) {
    step.Commit? && ReadyToCommit(s, step.id) ==>
      var l := s.users[s.reqs[step.id].u]; l.row.deleted || Sound(l, s.reqs[step.id])
  }

  // ----- Invariants -----

  predicate Below(rows: set<CodeRow>, next: nat) {
    forall r | r in rows :: r.row < next
  }

  predicate LedgerOk(l: Ledger, next: nat) {
    RowOk(l.row) && Below(l.codes, next)
  }

  /**
   What a transaction holds is as it was: the user row it matched, the codes it locked. The codes committed
   now were all in its snapshot if no confirmation has committed since, and otherwise none of them was.
   */
  predicate TxOk(l: Ledger, next: nat, q: Req)
    requires q.Tx?
  {
    && (q.matched ==> Matches(q.confirm, l.row))
    && (q.stage.Touched? ==> q.seen == {})
    && (q.stage.Touched? || q.stage.Seen? ==> q.hits == {})
    && (if q.stage.Filled? then |q.rows| == 10 else q.rows == {})
    && q.hits <= q.seen && q.hits <= l.codes && q.rows !! l.codes && q.rows !! q.seen
    && Below(q.seen, next) && Below(q.rows, next) && q.since <= l.confirms
    && (!q.stage.Touched? && !l.row.deleted ==>
          if q.since == l.confirms then l.codes <= (if q.stage.Seen? then q.seen else q.hits) else l.codes !! q.seen)
  }

  /** Two transactions of one user hold different things. */
  predicate Apart(p: Req, q: Req)
    requires p.Tx? && q.Tx?
  {
    !(p.matched && q.matched) && p.hits !! q.hits && p.rows !! q.rows && p.rows !! q.seen && q.rows !! p.seen
  }

  predicate ReqOk(s: State, q: Req) {
    q.u in s.users && (q.Tx? ==> TxOk(s.users[q.u], s.next, q))
  }

  ghost predicate Inv(s: State) {
    && (forall u :: u in s.users ==> LedgerOk(s.users[u], s.next))
    && (forall id :: id in s.reqs ==> ReqOk(s, s.reqs[id]))
    && (forall i, j |
          i in s.reqs && j in s.reqs && i != j && s.reqs[i].Tx? && s.reqs[j].Tx? && s.reqs[i].u == s.reqs[j].u ::
          Apart(s.reqs[i], s.reqs[j]))
  }

  // ----- Commits -----

  /** Conservation after a commit is exactly its soundness. */
  lemma SettledIff(l: Ledger, next: nat, q: Req, now: nat)
    requires q.Tx? && LedgerOk(l, next) && TxOk(l, next, q) && Conserved(l) && !l.row.deleted
    requires if q.confirm then q.stage.Filled? else q.stage.Struck?
    ensures Conserved(Settled(l, q, now)) <==> Sound(l, q)
    ensures q.confirm && Sound(l, q) ==> Settled(l, q, now).codes == q.rows
  {
    if q.since != l.confirms { assert q.hits == {}; }
    if l.codes <= q.hits { assert l.codes - q.hits == {}; }
    assert |l.codes - q.hits| == |l.codes| - |q.hits|;
    assert |l.codes - q.hits + q.rows| == |l.codes - q.hits| + |q.rows|;
  }

  // ----- Steps keep the invariants -----

  lemma EndKeepsInv(s: State, id: nat)
    requires Inv(s)
    ensures Inv(End(s, id))
  {
  }

  lemma SetReqKeepsInv(s: State, id: nat, q: Req)
    requires Inv(s) && ReqOk(s, q)
    requires q.Tx? ==> forall j :: j in s.reqs && j != id && s.reqs[j].Tx? && s.reqs[j].u == q.u ==> Apart(q, s.reqs[j])
    ensures Inv(SetReq(s, id, q))
  {
    var t := SetReq(s, id, q);
    forall j | j in t.reqs ensures ReqOk(t, t.reqs[j]) { assert j != id ==> ReqOk(s, s.reqs[j]); }
  }

  lemma SetLedgerKeepsInv(s: State, u: Uuid, l: Ledger)
    requires Inv(s) && LedgerOk(l, s.next)
    requires forall id :: id in s.reqs && s.reqs[id].Tx? && s.reqs[id].u == u ==> TxOk(l, s.next, s.reqs[id])
    ensures Inv(s.(users := s.users[u := l]))
  {
    var t := s.(users := s.users[u := l]);
    forall id | id in t.reqs ensures ReqOk(t, t.reqs[id]) { assert ReqOk(s, s.reqs[id]); }
  }

  /** A statement on a user row that no transaction holds. */
  lemma SetRowKeepsInv(s: State, u: Uuid, row: UserRow)
    requires Inv(s) && u in s.users && RowOk(row) && (s.users[u].row.deleted ==> row.deleted)
    requires row == s.users[u].row || !UserLocked(s, u)
    ensures Inv(SetRow(s, u, row))
  {
    var l := s.users[u].(row := row);
    assert LedgerOk(s.users[u], s.next);
    forall id | id in s.reqs && s.reqs[id].Tx? && s.reqs[id].u == u ensures TxOk(l, s.next, s.reqs[id]) {
      assert ReqOk(s, s.reqs[id]);
    }
    SetLedgerKeepsInv(s, u, l);
  }

  lemma RowStepKeepsInv(hotp: Hotp, s: State, step: Step)
    requires Inv(s) && (step.AddUser? || step.DeleteUser? || step.SweepDraft? || step.StoreDraft?)
    ensures Inv(Apply(hotp, s, step))
  {
    match step
    case AddUser(u) =>
      if u !in s.users {
        assert forall id :: id in s.reqs ==> ReqOk(s, s.reqs[id]);
        SetLedgerKeepsInv(s, u, NewLedger);
      }
    case DeleteUser(u) =>
      if u in s.users && !UserLocked(s, u) {
        assert LedgerOk(s.users[u], s.next);
        SetRowKeepsInv(s, u, s.users[u].row.(deleted := true));
      }
    case SweepDraft(u) =>
      if u in s.users && !UserLocked(s, u) {
        assert LedgerOk(s.users[u], s.next);
        SetRowKeepsInv(s, u, CleanupDraft(s.users[u].row, s.now));
      }
    case StoreDraft(id) =>
      if id in s.reqs && s.reqs[id].Drafting? && s.reqs[id].u in s.users && !UserLocked(s, s.reqs[id].u) {
        var (u, row) := (s.reqs[id].u, SetPending(s.users[s.reqs[id].u].row, s.reqs[id].secret, s.now));
        assert LedgerOk(s.users[u], s.next);
        SetRowKeepsInv(s, u, row);
        EndKeepsInv(SetRow(s, u, row), id);
      }
  }

  lemma ReadKeepsInv(hotp: Hotp, s: State, step: Step)
    requires Inv(s) && (step.ReadForSetup? || step.ReadForConfirm? || step.ReadForVerify?)
    ensures Inv(Apply(hotp, s, step))
  {
    var t := Apply(hotp, s, step);
    if step.id in t.reqs && step.id !in s.reqs { SetReqKeepsInv(s, step.id, t.reqs[step.id]); }
  }

  function Consumed(l: Ledger, code: CodeRow): Ledger {
    l.(codes := l.codes - {code}, spent := l.spent + 1)
  }

  lemma ConsumedKeepsInv(s: State, u: Uuid, code: CodeRow)
    requires Inv(s) && u in s.users && !CodeLocked(s, u, code)
    ensures Inv(s.(users := s.users[u := Consumed(s.users[u], code)]))
  {
    var l := s.users[u];
    assert LedgerOk(l, s.next);
    forall j | j in s.reqs && s.reqs[j].Tx? && s.reqs[j].u == u ensures TxOk(Consumed(l, code), s.next, s.reqs[j]) {
      assert ReqOk(s, s.reqs[j]) && code !in s.reqs[j].hits;
    }
    SetLedgerKeepsInv(s, u, Consumed(l, code));
  }

  lemma ConsumeKeepsInv(s: State, id: nat, code: CodeRow)
    requires Inv(s)
    ensures Inv(ApplyConsume(s, id, code))
  {
    EndKeepsInv(s, id);
    if id in s.reqs && s.reqs[id].Spending? && s.reqs[id].u in s.users && !CodeLocked(s, s.reqs[id].u, code) {
      var u := s.reqs[id].u;
      ConsumedKeepsInv(s, u, code);
      var t := s.(users := s.users[u := Consumed(s.users[u], code)]);
      SetReqKeepsInv(t, id, Disabling(u));
      EndKeepsInv(t, id);
    }
  }

  lemma TouchKeepsInv(s: State, id: nat)
    requires Inv(s)
    ensures Inv(ApplyTouch(s, id))
  {
    var t := ApplyTouch(s, id);
    if t != s {
      var q := t.reqs[id];
      assert LedgerOk(s.users[q.u], s.next);
      forall j | j in s.reqs && j != id && s.reqs[j].Tx? && s.reqs[j].u == q.u ensures Apart(q, s.reqs[j]) {
        assert ReqOk(s, s.reqs[j]);
      }
      SetReqKeepsInv(s, id, q);
    }
  }

  lemma SeeKeepsInv(s: State, id: nat)
    requires Inv(s)
    ensures Inv(ApplySee(s, id))
  {
    var t := ApplySee(s, id);
    if t != s {
      var (p, q) := (s.reqs[id], t.reqs[id]);
      assert LedgerOk(s.users[q.u], s.next) && ReqOk(s, p);
      forall j | j in s.reqs && j != id && s.reqs[j].Tx? && s.reqs[j].u == q.u ensures Apart(q, s.reqs[j]) {
        assert ReqOk(s, s.reqs[j]) && Apart(p, s.reqs[j]);
      }
      SetReqKeepsInv(s, id, q);
    }
  }

  lemma StrikeKeepsInv(s: State, id: nat)
    requires Inv(s)
    ensures Inv(ApplyStrike(s, id))
  {
    var t := ApplyStrike(s, id);
    if t != s {
      var (p, q) := (s.reqs[id], t.reqs[id]);
      assert ReqOk(s, p);
      forall j | j in s.reqs && j != id && s.reqs[j].Tx? && s.reqs[j].u == q.u ensures Apart(q, s.reqs[j]) {
        assert Apart(p, s.reqs[j]);
        forall r | r in q.hits ensures r !in s.reqs[j].hits { assert !CodeLocked(s, q.u, r); }
      }
      SetReqKeepsInv(s, id, q);
    }
  }

  lemma {:induction false} RowsAreNew(next: nat, hs: seq<CodeHash>)
    ensures |RowsOf(next, hs)| == |hs| && forall r :: r in RowsOf(next, hs) ==> next <= r.row < next + |hs|
  {
    if hs != [] {
      var (n, init) := (|hs| - 1, hs[..|hs| - 1]);
      RowsAreNew(next, init);
      assert RowsOf(next, hs) == RowsOf(next, init) + {CodeRow(next + n, hs[n])};
    }
  }

  lemma RaiseNextKeepsInv(s: State, next: nat)
    requires Inv(s) && s.next <= next
    ensures Inv(s.(next := next))
  {
    var t := s.(next := next);
    forall u | u in t.users ensures LedgerOk(t.users[u], next) { assert LedgerOk(s.users[u], s.next); }
    forall id | id in t.reqs ensures ReqOk(t, t.reqs[id]) { assert ReqOk(s, s.reqs[id]); }
  }

  lemma FilledOk(l: Ledger, next: nat, p: Req, rows: set<CodeRow>)
    requires p.Tx? && p.stage.Struck? && LedgerOk(l, next) && TxOk(l, next, p)
    requires |rows| == 10 && forall r :: r in rows ==> next <= r.row < next + 10
    ensures TxOk(l, next + 10, p.(stage := Filled, rows := rows))
  {
  }

  lemma FilledApart(l: Ledger, next: nat, p: Req, q: Req, rows: set<CodeRow>)
    requires p.Tx? && q.Tx? && Apart(p, q) && TxOk(l, next, q) && forall r :: r in rows ==> next <= r.row
    ensures Apart(p.(stage := Filled, rows := rows), q)
  {
  }

  lemma FillKeepsInv(s: State, id: nat, e: Entropy)
    requires Inv(s)
    ensures Inv(ApplyFill(s, id, e))
  {
    var t := ApplyFill(s, id, e);
    if t.next != s.next {
      var (p, rows, u) := (s.reqs[id], NewRows(s.next, e), s.(next := s.next + 10));
      var q := p.(stage := Filled, rows := rows);
      RaiseNextKeepsInv(s, s.next + 10);
      RowsAreNew(s.next, CodeHashes(e));
      assert ReqOk(s, p) && LedgerOk(s.users[p.u], s.next);
      FilledOk(s.users[p.u], s.next, p, rows);
      forall j | j in u.reqs && j != id && u.reqs[j].Tx? && u.reqs[j].u == q.u ensures Apart(q, u.reqs[j]) {
        assert ReqOk(s, s.reqs[j]) && Apart(p, s.reqs[j]);
        FilledApart(s.users[p.u], s.next, p, s.reqs[j], rows);
      }
      SetReqKeepsInv(u, id, q);
    } else {
      EndKeepsInv(s, id);
    }
  }

  /** The other transactions of the user keep what they hold across a sound commit. */
  lemma SettledKeepsTx(l: Ledger, next: nat, q: Req, p: Req, now: nat)
    requires q.Tx? && p.Tx? && LedgerOk(l, next) && TxOk(l, next, q) && TxOk(l, next, p) && Apart(p, q)
    requires if q.confirm then q.stage.Filled? else q.stage.Struck?
    requires l.row.deleted || (q.confirm ==> Settled(l, q, now).codes == q.rows)
    ensures TxOk(Settled(l, q, now), next, p) && LedgerOk(Settled(l, q, now), next)
  {
  }

  lemma CommitKeepsInv(s: State, id: nat)
    requires Inv(s) && ReadyToCommit(s, id)
    requires var l := s.users[s.reqs[id].u];
             l.row.deleted || (s.reqs[id].confirm ==> Settled(l, s.reqs[id], s.now).codes == s.reqs[id].rows)
    ensures Inv(ApplyCommit(s, id))
  {
    var (q, l, t) := (s.reqs[id], s.users[s.reqs[id].u], End(s, id));
    assert LedgerOk(l, s.next) && ReqOk(s, q);
    EndKeepsInv(s, id);
    forall j | j in t.reqs && t.reqs[j].Tx? && t.reqs[j].u == q.u
      ensures TxOk(Settled(l, q, s.now), s.next, t.reqs[j])
    {
      assert ReqOk(s, s.reqs[j]) && Apart(s.reqs[j], q);
      SettledKeepsTx(l, s.next, q, s.reqs[j], s.now);
    }
    assert LedgerOk(Settled(l, q, s.now), s.next);
    SetLedgerKeepsInv(t, q.u, Settled(l, q, s.now));
  }

  lemma OneLedgerChanges(s: State, u: Uuid, l: Ledger)
    requires AllConserved(s)
    ensures AllConserved(s.(users := s.users[u := l])) <==> Conserved(l)
  {
    assert s.users[u := l][u] == l;
  }

  /** A commit keeps conservation exactly when it is sound, and a sound commit keeps the invariants. */
  lemma CommitExact(s: State, id: nat)
    requires Inv(s) && AllConserved(s) && ReadyToCommit(s, id)
    ensures var l := s.users[s.reqs[id].u];
            && (AllConserved(ApplyCommit(s, id)) <==> l.row.deleted || Sound(l, s.reqs[id]))
            && (l.row.deleted || Sound(l, s.reqs[id]) ==> Inv(ApplyCommit(s, id)))
  {
    var q := s.reqs[id];
    var l := s.users[q.u];
    assert LedgerOk(l, s.next) && ReqOk(s, q) && Conserved(l);
    OneLedgerChanges(s, q.u, Settled(l, q, s.now));
    if l.row.deleted {
      CommitKeepsInv(s, id);
    } else {
      SettledIff(l, s.next, q, s.now);
      if Sound(l, q) { CommitKeepsInv(s, id); }
    }
  }

  lemma ConsumeConserves(s: State, id: nat, code: CodeRow)
    requires AllConserved(s)
    ensures AllConserved(ApplyConsume(s, id, code))
  {
    var t := ApplyConsume(s, id, code);
    forall u | u in t.users ensures Conserved(t.users[u]) { assert Conserved(s.users[u]); }
  }

  lemma OtherConserves(hotp: Hotp, s: State, step: Step)
    requires AllConserved(s) && !step.Consume? && !step.Commit?
    ensures AllConserved(Apply(hotp, s, step))
  {
    var t := Apply(hotp, s, step);
    forall u | u in t.users ensures Conserved(t.users[u]) { assert u in s.users ==> Conserved(s.users[u]); }
  }

  lemma OtherKeepsInv(hotp: Hotp, s: State, step: Step)
    requires Inv(s) && !step.Commit?
    ensures Inv(Apply(hotp, s, step))
  {
    match step
    case AddUser(_) => RowStepKeepsInv(hotp, s, step);
    case DeleteUser(_) => RowStepKeepsInv(hotp, s, step);
    case SweepDraft(_) => RowStepKeepsInv(hotp, s, step);
    case StoreDraft(_) => RowStepKeepsInv(hotp, s, step);
    case ReadForSetup(_, _, _) => ReadKeepsInv(hotp, s, step);
    case ReadForConfirm(_, _, _) => ReadKeepsInv(hotp, s, step);
    case ReadForVerify(_, _, _, _) => ReadKeepsInv(hotp, s, step);
    case Consume(id, code) => ConsumeKeepsInv(s, id, code);
    case Touch(id) => TouchKeepsInv(s, id);
    case See(id) => SeeKeepsInv(s, id);
    case Strike(id) => StrikeKeepsInv(s, id);
    case Fill(id, e) => FillKeepsInv(s, id, e);
    case Drop(id) => EndKeepsInv(s, id);
    case Tick(_) =>
  }

  lemma StepExact(hotp: Hotp, s: State, step: Step)
    requires Inv(s) && AllConserved(s)
    ensures AllConserved(Apply(hotp, s, step)) <==> SoundStep(s, step)
    ensures SoundStep(s, step) ==> Inv(Apply(hotp, s, step))
  {
    if step.Commit? {
      if ReadyToCommit(s, step.id) { CommitExact(s, step.id); }
    } else {
      OtherKeepsInv(hotp, s, step);
      if step.Consume? { ConsumeConserves(s, step.id, step.target); } else { OtherConserves(hotp, s, step); }
    }
  }

  // ----- Conservation over every run -----

  /** The conservation law at every point of the run. */
  ghost predicate ConservedThroughout(hotp: Hotp, steps: seq<Step>) {
    forall k :: 0 <= k <= |steps| ==> AllConserved(Run(hotp, steps[..k]))
  }

  ghost predicate SoundThroughout(hotp: Hotp, steps: seq<Step>) {
    forall k :: 0 <= k < |steps| ==> SoundStep(Run(hotp, steps[..k]), steps[k])
  }

  lemma PrefixStep(hotp: Hotp, steps: seq<Step>, k: nat)
    requires k < |steps|
    ensures Run(hotp, steps[..k + 1]) == Apply(hotp, Run(hotp, steps[..k]), steps[k])
  {
    assert steps[..k + 1][..k] == steps[..k];
  }

  lemma {:induction false} PrefixExact(hotp: Hotp, steps: seq<Step>, k: nat)
    requires k <= |steps| && (SoundThroughout(hotp, steps) || ConservedThroughout(hotp, steps))
    ensures Inv(Run(hotp, steps[..k])) && AllConserved(Run(hotp, steps[..k]))
    ensures k < |steps| ==> SoundStep(Run(hotp, steps[..k]), steps[k])
  {
    if k > 0 {
      PrefixExact(hotp, steps, k - 1);
      PrefixStep(hotp, steps, k - 1);
      StepExact(hotp, Run(hotp, steps[..k - 1]), steps[k - 1]);
    }
    if k < |steps| {
      PrefixStep(hotp, steps, k);
      StepExact(hotp, Run(hotp, steps[..k]), steps[k]);
    }
  }

  /**
   However the statements of concurrent calls interleave, recovery codes are conserved throughout a run
   exactly when every transaction that commits in it, for a user that exists, is sound.
   */
  lemma {:induction false} ConservedIffSound(hotp: Hotp, steps: seq<Step>)
    ensures ConservedThroughout(hotp, steps) <==> SoundThroughout(hotp, steps)
  {
    if SoundThroughout(hotp, steps) {
      forall k | 0 <= k <= |steps| ensures AllConserved(Run(hotp, steps[..k])) { PrefixExact(hotp, steps, k); }
    }
    if ConservedThroughout(hotp, steps) {
      forall k | 0 <= k < |steps| ensures SoundStep(Run(hotp, steps[..k]), steps[k]) { PrefixExact(hotp, steps, k); }
    }
  }

  // ----- Transactions whose first statement matched -----

  /**
   If the step commits a transaction, its UPDATE of the user row matched: a draft was promoted, or 2FA
   switched off.
   */
  predicate MatchedStep(s: State, step: Step) {
    step.Commit? && ReadyToCommit(s, step.id) ==> s.reqs[step.id].matched
  }

  ghost predicate MatchedThroughout(hotp: Hotp, steps: seq<Step>) {
    forall k :: 0 <= k < |steps| ==> MatchedStep(Run(hotp, steps[..k]), steps[k])
  }

  /** Who holds the user row has read the latest codes. */
  ghost predicate HoldersCurrent(s: State) {
    forall id :: id in s.reqs && s.reqs[id].Tx? && s.reqs[id].matched && !s.reqs[id].stage.Touched? ==>
      s.reqs[id].u in s.users && s.reqs[id].since == s.users[s.reqs[id].u].confirms
  }

  lemma MatchedCommitKeepsHolders(s: State, id: nat)
    requires Inv(s) && HoldersCurrent(s) && ReadyToCommit(s, id) && s.reqs[id].matched
    ensures HoldersCurrent(ApplyCommit(s, id))
  {
    var t := ApplyCommit(s, id);
    forall j | j in t.reqs && t.reqs[j].Tx? && t.reqs[j].matched && !t.reqs[j].stage.Touched?
      ensures t.reqs[j].u in t.users && t.reqs[j].since == t.users[t.reqs[j].u].confirms
    {
      assert t.reqs[j] == s.reqs[j];
      assert s.reqs[j].u == s.reqs[id].u ==> Apart(s.reqs[j], s.reqs[id]);
    }
  }

  lemma TxStepKeepsHolders(s: State, id: nat, e: Entropy)
    requires HoldersCurrent(s)
    ensures HoldersCurrent(ApplyTouch(s, id)) && HoldersCurrent(ApplySee(s, id))
    ensures HoldersCurrent(ApplyStrike(s, id)) && HoldersCurrent(ApplyFill(s, id, e))
  {
  }

  lemma OtherStepKeepsHolders(hotp: Hotp, s: State, step: Step)
    requires HoldersCurrent(s) && !step.Touch? && !step.See? && !step.Strike? && !step.Fill? && !step.Commit?
    ensures HoldersCurrent(Apply(hotp, s, step))
  {
  }

  lemma MatchedStepKeepsHolders(hotp: Hotp, s: State, step: Step)
    requires Inv(s) && HoldersCurrent(s) && MatchedStep(s, step)
    ensures HoldersCurrent(Apply(hotp, s, step))
  {
    if step.Commit? {
      if ReadyToCommit(s, step.id) { MatchedCommitKeepsHolders(s, step.id); }
    } else if step.Touch? || step.See? || step.Strike? || step.Fill? {
      TxStepKeepsHolders(s, step.id, if step.Fill? then step.e else seq(100, _ => 0));
    } else {
      OtherStepKeepsHolders(hotp, s, step);
    }
  }

  lemma MatchedStepIsSound(s: State, step: Step)
    requires HoldersCurrent(s) && MatchedStep(s, step)
    ensures SoundStep(s, step)
  {
  }

  lemma {:induction false} MatchedPrefix(hotp: Hotp, steps: seq<Step>, k: nat)
    requires k <= |steps| && MatchedThroughout(hotp, steps)
    ensures var s := Run(hotp, steps[..k]); Inv(s) && AllConserved(s) && HoldersCurrent(s)
    ensures k < |steps| ==> SoundStep(Run(hotp, steps[..k]), steps[k])
  {
    if k > 0 {
      MatchedPrefix(hotp, steps, k - 1);
      PrefixStep(hotp, steps, k - 1);
      MatchedStepKeepsHolders(hotp, Run(hotp, steps[..k - 1]), steps[k - 1]);
      MatchedStepIsSound(Run(hotp, steps[..k - 1]), steps[k - 1]);
      StepExact(hotp, Run(hotp, steps[..k - 1]), steps[k - 1]);
    }
    if k < |steps| { MatchedStepIsSound(Run(hotp, steps[..k]), steps[k]); }
  }

  /**
   Codes are conserved when every committed confirmation promoted a draft and every committed disable
   switched 2FA off.
   */
  lemma {:induction false} MatchedConserves(hotp: Hotp, steps: seq<Step>)
    requires MatchedThroughout(hotp, steps)
    ensures ConservedThroughout(hotp, steps)
  {
    forall k | 0 <= k <= |steps| ensures AllConserved(Run(hotp, steps[..k])) { MatchedPrefix(hotp, steps, k); }
  }
}
