/** Whole runs of the two-factor service, each call one atomic step of a monotone clock. */
module TotpRuns {
  import opened Wrappers
  import opened Clock
  import opened TtlCaches
  import opened AccessTokens
  import opened RecoveryCodes
  import opened TotpService

  datatype Call =
    | AddUser(u: Uuid)
    | DeleteUser(u: Uuid)
    | SetupCall(u: Uuid, newSecret: TotpSecret)
    | ConfirmCall(u: Uuid, code: string, e: Option<Entropy>)
    | VerifyCall(u: Uuid, code: string)
    | DisableCall(u: Uuid, code: string)
    | CleanupCall

  /** A call and the instant at which it runs. */
  datatype Op = Op(at: nat, call: Call)

  function Perform(hotp: Hotp, s: Totp, op: Op): (Totp, Reply) {
    match op.call
    case AddUser(u) => (if u in s.users then s else s.(users := s.users[u := NewUser]), Done)
    case DeleteUser(u) => (if u in s.users then s.(users := s.users[u := s.users[u].(deleted := true)]) else s, Done)
    case SetupCall(u, newSecret) => Setup(s, u, op.at, newSecret)
    case ConfirmCall(u, code, e) => Confirm(hotp, s, u, op.at, code, e)
    case VerifyCall(u, code) => Verify(hotp, s, u, op.at, code)
    case DisableCall(u, code) => TurnOffCall(hotp, s, u, op.at, code)
    case CleanupCall => (Cleanup(s, op.at), Done)
  }

  const Init: Totp := Totp(map[], map[], map[])

  function Run(hotp: Hotp, ops: seq<Op>): Totp {
    if ops == [] then Init else Perform(hotp, Run(hotp, ops[..|ops| - 1]), ops[|ops| - 1]).0
  }

  /** The reply to the i-th call of a run. */
  function ReplyTo(hotp: Hotp, ops: seq<Op>, i: nat): Reply
    requires i < |ops|
  {
    Perform(hotp, Run(hotp, ops[..i]), ops[i]).1
  }

  ghost predicate Monotone(ops: seq<Op>) {
    forall i, j :: 0 <= i < j < |ops| ==> ops[i].at <= ops[j].at
  }

  // ----- Cleanup is invisible -----

  function Visible(ops: seq<Op>): seq<Op> {
    if ops == [] then []
    else Visible(ops[..|ops| - 1]) + (if ops[|ops| - 1].call.CleanupCall? then [] else [ops[|ops| - 1]])
  }

  /** What the callers of a run see: the replies to everything but the cleanups. */
  function VisibleReplies(hotp: Hotp, ops: seq<Op>): seq<Reply> {
    if ops == [] then []
    else VisibleReplies(hotp, ops[..|ops| - 1])
         + (if ops[|ops| - 1].call.CleanupCall? then []
            else [Perform(hotp, Run(hotp, ops[..|ops| - 1]), ops[|ops| - 1]).1])
  }

  /** `a` is `b` after a sweep of a draft that has expired by `now`, or the same. */
  predicate RowSwept(a: UserRow, b: UserRow, now: nat) {
    || a == b
    || (a == b.(pending := None, pendingAt := None) && b.pendingAt.Some? && b.pendingAt.value + DRAFT_TTL <= now)
  }

  ghost predicate Swept(a: Totp, b: Totp, now: nat) {
    && a.users.Keys == b.users.Keys && a.codes == b.codes && a.replay == b.replay
    && forall u :: u in a.users ==> RowSwept(a.users[u], b.users[u], now)
  }

  lemma SweptSetup(a: Totp, b: Totp, u: Uuid, now: nat, newSecret: TotpSecret)
    requires Swept(a, b, now)
    ensures Setup(a, u, now, newSecret).1 == Setup(b, u, now, newSecret).1
    ensures Swept(Setup(a, u, now, newSecret).0, Setup(b, u, now, newSecret).0, now)
  {
  }

  lemma SweptConfirm(hotp: Hotp, a: Totp, b: Totp, u: Uuid, now: nat, code: string, e: Option<Entropy>)
    requires Swept(a, b, now)
    ensures Confirm(hotp, a, u, now, code, e).1 == Confirm(hotp, b, u, now, code, e).1
    ensures Swept(Confirm(hotp, a, u, now, code, e).0, Confirm(hotp, b, u, now, code, e).0, now)
  {
  }

  /** A sweep touches neither the enabled flag, nor the active secret, nor any code. */
  lemma SweptVerify(hotp: Hotp, a: Totp, b: Totp, u: Uuid, now: nat, code: string)
    requires Swept(a, b, now)
    ensures Verify(hotp, a, u, now, code).1 == Verify(hotp, b, u, now, code).1
    ensures Swept(Verify(hotp, a, u, now, code).0, Verify(hotp, b, u, now, code).0, now)
    ensures Verify(hotp, a, u, now, code).0.users == a.users && Verify(hotp, b, u, now, code).0.users == b.users
  {
    if u in a.users {
      assert RowSwept(a.users[u], b.users[u], now);
    }
  }

  lemma SweptDisable(hotp: Hotp, a: Totp, b: Totp, u: Uuid, now: nat, code: string)
    requires Swept(a, b, now)
    ensures TurnOffCall(hotp, a, u, now, code).1 == TurnOffCall(hotp, b, u, now, code).1
    ensures Swept(TurnOffCall(hotp, a, u, now, code).0, TurnOffCall(hotp, b, u, now, code).0, now)
  {
    SweptVerify(hotp, a, b, u, now, code);
    var (a', reply) := Verify(hotp, a, u, now, code);
    if reply.Verified? {
      assert RowSwept(a.users[u], b.users[u], now);
      assert RowSwept(Disable(a.users[u]), Disable(b.users[u]), now);
    }
  }

  lemma SweptPerforms(hotp: Hotp, a: Totp, b: Totp, op: Op)
    requires Swept(a, b, op.at) && !op.call.CleanupCall?
    ensures Perform(hotp, a, op).1 == Perform(hotp, b, op).1
    ensures Swept(Perform(hotp, a, op).0, Perform(hotp, b, op).0, op.at)
  {
    match op.call
    case SetupCall(u, newSecret) => SweptSetup(a, b, u, op.at, newSecret);
    case ConfirmCall(u, code, e) => SweptConfirm(hotp, a, b, u, op.at, code, e);
    case VerifyCall(u, code) => SweptVerify(hotp, a, b, u, op.at, code);
    case DisableCall(u, code) => SweptDisable(hotp, a, b, u, op.at, code);
    case _ =>
  }

  lemma {:induction false} RunIsSwept(hotp: Hotp, ops: seq<Op>, now: nat)
    requires Monotone(ops) && forall i :: 0 <= i < |ops| ==> ops[i].at <= now
    ensures Swept(Run(hotp, ops), Run(hotp, Visible(ops)), now)
    ensures VisibleReplies(hotp, ops) == VisibleReplies(hotp, Visible(ops))
  {
    if ops != [] {
      var (init, op) := (ops[..|ops| - 1], ops[|ops| - 1]);
      RunIsSwept(hotp, init, op.at);
      if !op.call.CleanupCall? {
        SweptPerforms(hotp, Run(hotp, init), Run(hotp, Visible(init)), op);
        var visible := Visible(ops);
        assert visible[..|visible| - 1] == Visible(init) && visible[|visible| - 1] == op;
      } else {
        assert Visible(ops) == Visible(init);
      }
    }
  }

  /** Cleanup steps, wherever they are inserted in a run, change the reply to no call. */
  lemma CleanupInvisible(hotp: Hotp, ops: seq<Op>)
    requires Monotone(ops)
    ensures VisibleReplies(hotp, ops) == VisibleReplies(hotp, Visible(ops))
  {
    if ops != [] {
      RunIsSwept(hotp, ops, ops[|ops| - 1].at);
    }
  }

  // ----- A live draft -----

  predicate Concerns(call: Call, u: Uuid) {
    !call.CleanupCall? && !call.AddUser? && call.u == u
  }

  /** Nothing but a call for `u` itself, or the end of its draft, changes the row of `u`. */
  lemma DraftStep(hotp: Hotp, s: Totp, op: Op, u: Uuid, secret: TotpSecret)
    requires u in s.users && GetPending(s.users[u], op.at) == Some(secret)
    requires Concerns(op.call, u) ==> op.call.SetupCall?
    ensures u in Perform(hotp, s, op).0.users && Perform(hotp, s, op).0.users[u] == s.users[u]
    ensures op.call.SetupCall? && op.call.u == u ==> Perform(hotp, s, op).1 == SetupDone(secret)
  {
  }

  /**
   While a draft is live, every further setup returns its secret, and any number of them, with any calls
   for other users and any cleanups in between, leave the draft and its expiry as they are.
   */
  lemma {:induction false} LiveDraftIsResumed(hotp: Hotp, ops: seq<Op>, k: nat, u: Uuid, secret: TotpSecret)
    requires k <= |ops| && u in Run(hotp, ops[..k]).users
    requires forall i :: k <= i < |ops| ==> GetPending(Run(hotp, ops[..k]).users[u], ops[i].at) == Some(secret)
    requires forall i :: k <= i < |ops| && Concerns(ops[i].call, u) ==> ops[i].call.SetupCall?
    ensures u in Run(hotp, ops).users && Run(hotp, ops).users[u] == Run(hotp, ops[..k]).users[u]
    ensures forall i :: k <= i < |ops| && ops[i].call.SetupCall? && ops[i].call.u == u ==>
              ReplyTo(hotp, ops, i) == SetupDone(secret)
  {
    if k == |ops| {
      assert ops[..k] == ops;
    } else {
      var (init, op) := (ops[..|ops| - 1], ops[|ops| - 1]);
      assert init[..k] == ops[..k];
      LiveDraftIsResumed(hotp, init, k, u, secret);
      DraftStep(hotp, Run(hotp, init), op, u, secret);
      forall i | k <= i < |ops| && ops[i].call.SetupCall? && ops[i].call.u == u
        ensures ReplyTo(hotp, ops, i) == SetupDone(secret)
      {
        if i < |init| {
          assert init[..i] == ops[..i] && ReplyTo(hotp, init, i) == SetupDone(secret);
        }
      }
    }
  }

  // ----- Where secrets come from -----

  /** Some call of the run was a setup of `u` that answered `secret`, at that instant. */
  ghost predicate HandedOut(hotp: Hotp, ops: seq<Op>, u: Uuid, secret: TotpSecret, at: nat) {
    exists i :: 0 <= i < |ops| && ops[i].call.SetupCall? && ops[i].call.u == u && ops[i].at == at
                && ReplyTo(hotp, ops, i) == SetupDone(secret)
  }

  lemma LongerRunHandedOut(hotp: Hotp, ops: seq<Op>, op: Op, u: Uuid, secret: TotpSecret, at: nat)
    requires HandedOut(hotp, ops, u, secret, at)
    ensures HandedOut(hotp, ops + [op], u, secret, at)
  {
    var ops' := ops + [op];
    var i :| 0 <= i < |ops| && ops[i].call.SetupCall? && ops[i].call.u == u && ops[i].at == at
             && ReplyTo(hotp, ops, i) == SetupDone(secret);
    assert ops'[i] == ops[i] && ops'[..i] == ops[..i];
  }

  lemma SetupHandsOut(hotp: Hotp, ops: seq<Op>, op: Op)
    requires op.call.SetupCall? && Perform(hotp, Run(hotp, ops), op).1.SetupDone?
    ensures HandedOut(hotp, ops + [op], op.call.u, Perform(hotp, Run(hotp, ops), op).1.secret, op.at)
  {
    var ops' := ops + [op];
    assert ops'[|ops|] == op && ops'[..|ops|] == ops;
  }

  /** What one call does to the draft and the secret of `u`. */
  lemma SecretStep(hotp: Hotp, s: Totp, op: Op, u: Uuid)
    requires u in Perform(hotp, s, op).0.users
    ensures var (t, reply) := Perform(hotp, s, op);
            var row := t.users[u];
            && (row.pending.Some? ==>
                  || (u in s.users && row.pending == s.users[u].pending && row.pendingAt == s.users[u].pendingAt)
                  || (op.call.SetupCall? && op.call.u == u && row.pendingAt == Some(op.at)
                       && reply == SetupDone(row.pending.value)))
            && (row.secret.Some? ==>
                  && u in s.users
                  && (row.secret == s.users[u].secret || (op.call.ConfirmCall? && row.secret == s.users[u].pending)))
  {
  }

  /**
   In every run the draft of a user was handed out by a setup of that user at the draft's own instant,
   and so was, at some instant, the secret that is in force.
   */
  lemma {:induction false} SecretProvenance(hotp: Hotp, ops: seq<Op>, u: Uuid)
    requires u in Run(hotp, ops).users
    ensures var row := Run(hotp, ops).users[u];
            && (row.pending.Some? <==> row.pendingAt.Some?)
            && (row.pending.Some? ==> HandedOut(hotp, ops, u, row.pending.value, row.pendingAt.value))
            && (row.secret.Some? ==> exists at :: HandedOut(hotp, ops, u, row.secret.value, at))
  {
    RecoveryCodeConservation(hotp, ops, u);
    assert RowOk(Run(hotp, ops).users[u]);
    if ops != [] {
      var (init, op) := (ops[..|ops| - 1], ops[|ops| - 1]);
      var (s, row) := (Run(hotp, init), Run(hotp, ops).users[u]);
      assert ops == init + [op];
      SecretStep(hotp, s, op, u);
      if u in s.users {
        SecretProvenance(hotp, init, u);
        KeptSecrets(hotp, init, op, u);
      }
      if op.call.SetupCall? && Perform(hotp, s, op).1.SetupDone? { SetupHandsOut(hotp, init, op); }
    }
  }

  lemma KeptSecrets(hotp: Hotp, ops: seq<Op>, op: Op, u: Uuid)
    requires u in Run(hotp, ops).users
    requires var row := Run(hotp, ops).users[u];
             && (row.pending.Some? <==> row.pendingAt.Some?)
             && (row.pending.Some? ==> HandedOut(hotp, ops, u, row.pending.value, row.pendingAt.value))
             && (row.secret.Some? ==> exists at :: HandedOut(hotp, ops, u, row.secret.value, at))
    ensures var row := Run(hotp, ops).users[u];
            && (row.pending.Some? ==> HandedOut(hotp, ops + [op], u, row.pending.value, row.pendingAt.value))
            && (row.secret.Some? ==> exists at :: HandedOut(hotp, ops + [op], u, row.secret.value, at))
  {
    var row := Run(hotp, ops).users[u];
    if row.pending.Some? { LongerRunHandedOut(hotp, ops, op, u, row.pending.value, row.pendingAt.value); }
    if row.secret.Some? {
      var at :| HandedOut(hotp, ops, u, row.secret.value, at);
      LongerRunHandedOut(hotp, ops, op, u, row.secret.value, at);
    }
  }

  /**
   2FA is switched on only by a code for a secret that a setup of this very user handed out less than
   ten minutes before, and that secret is then in force.
   */
  lemma {:induction false} ActivationNeedsSetup(hotp: Hotp, ops: seq<Op>, op: Op) returns (secret: TotpSecret, at: nat)
    requires op.call.ConfirmCall? && Perform(hotp, Run(hotp, ops), op).1.Activated?
    ensures HandedOut(hotp, ops, op.call.u, secret, at) && op.at < at + 600_000_000_000
    ensures VerifyCode(hotp, secret, op.call.code, op.at)
    ensures var t := Perform(hotp, Run(hotp, ops), op).0;
            op.call.u in t.users && t.users[op.call.u].secret == Some(secret)
  {
    var row := Run(hotp, ops).users[op.call.u];
    SecretProvenance(hotp, ops, op.call.u);
    secret, at := row.pending.value, row.pendingAt.value;
  }

  // ----- Conservation of recovery codes -----

  /** The recovery codes of `u` accepted by a verification since the last activation. */
  function SpentSinceConfirm(hotp: Hotp, ops: seq<Op>, u: Uuid): nat {
    if ops == [] then 0
    else
      var (init, op) := (ops[..|ops| - 1], ops[|ops| - 1]);
      var reply := Perform(hotp, Run(hotp, init), op).1;
      SpentAfter(op, reply, u, SpentSinceConfirm(hotp, init, u))
  }

  function SpentAfter(op: Op, reply: Reply, u: Uuid, spent: nat): nat {
    if op.call.ConfirmCall? && op.call.u == u && reply.Activated? then 0
    else spent + (if op.call.VerifyCall? && op.call.u == u && reply == Verified(RecoveryCode) then 1 else 0)
  }

  ghost predicate CodesOk(s: Totp) {
    && (forall u :: u in s.users ==> RowOk(s.users[u]))
    && (forall u :: u in s.codes && s.codes[u] != {} ==> u in s.users && s.users[u].enabled)
  }

  lemma VerifyKeepsCodesOk(hotp: Hotp, s: Totp, u: Uuid, now: nat, code: string)
    requires CodesOk(s)
    ensures CodesOk(Verify(hotp, s, u, now, code).0) && CodesOk(TurnOffCall(hotp, s, u, now, code).0)
  {
  }

  lemma PerformKeepsCodesOk(hotp: Hotp, s: Totp, op: Op)
    requires CodesOk(s)
    ensures CodesOk(Perform(hotp, s, op).0)
  {
    match op.call
    case VerifyCall(u, code) => VerifyKeepsCodesOk(hotp, s, u, op.at, code);
    case DisableCall(u, code) => VerifyKeepsCodesOk(hotp, s, u, op.at, code);
    case ConfirmCall(u, code, e) => if u in s.users { assert RowOk(s.users[u]); }
    case SetupCall(u, _) => if u in s.users { assert RowOk(s.users[u]); }
    case _ =>
  }

  /** How one call moves the number of a user's unused codes. */
  lemma CodeCountStep(hotp: Hotp, s: Totp, op: Op, u: Uuid)
    requires CodesOk(s)
    ensures var (t, reply) := Perform(hotp, s, op);
            var (n, m) := (|ActiveCodes(s, u)|, |ActiveCodes(t, u)|);
            if op.call.ConfirmCall? && op.call.u == u && reply.Activated? then m == 10
            else if op.call.DisableCall? && op.call.u == u && reply.Disabled? then m == 0
            else m == n - (if op.call.VerifyCall? && op.call.u == u && reply == Verified(RecoveryCode) then 1 else 0)
  {
    match op.call
    case ConfirmCall(v, _, e) => if v == u && e.Some? { TenHashes(e.value); }
    case VerifyCall(v, code) => VerifyFrame(hotp, s, v, op.at, code);
    case DisableCall(v, code) => VerifyFrame(hotp, s, v, op.at, code);
    case _ =>
  }

  lemma TenHashes(e: Entropy)
    ensures |Hashes(FreshCodes(e))| <= 10
  {
    HashesBounded(FreshCodes(e));
  }

  lemma EnabledStep(hotp: Hotp, s: Totp, op: Op, u: Uuid)
    requires CodesOk(s) && u in s.users
    ensures var (t, reply) := Perform(hotp, s, op);
            && u in t.users
            && (t.users[u].enabled <==>
                  || (op.call.ConfirmCall? && op.call.u == u && reply.Activated?)
                  || (s.users[u].enabled && !(op.call.DisableCall? && op.call.u == u && reply.Disabled?)))
  {
    assert RowOk(s.users[u]);
    match op.call
    case VerifyCall(v, code) => VerifyFrame(hotp, s, v, op.at, code);
    case DisableCall(v, code) => VerifyFrame(hotp, s, v, op.at, code);
    case _ =>
  }

  /** A verification changes no user row, and no codes but those of its own user. */
  lemma VerifyFrame(hotp: Hotp, s: Totp, u: Uuid, now: nat, code: string)
    ensures var (t, reply) := Verify(hotp, s, u, now, code);
            && t.users == s.users && (reply.Verified? ==> u in s.users && s.users[u].enabled && !s.users[u].deleted)
            && (forall v :: v != u ==> ActiveCodes(t, v) == ActiveCodes(s, v))
            && |ActiveCodes(t, u)| == |ActiveCodes(s, u)| - (if reply == Verified(RecoveryCode) then 1 else 0)
  {
  }

  lemma ConservationStep(hotp: Hotp, s: Totp, op: Op, u: Uuid, spent: nat)
    requires CodesOk(s) && |ActiveCodes(s, u)| == if u in s.users && s.users[u].enabled then 10 - spent else 0
    ensures var (t, reply) := Perform(hotp, s, op);
            |ActiveCodes(t, u)|
            == if u in t.users && t.users[u].enabled then 10 - SpentAfter(op, reply, u, spent) else 0
  {
    CodeCountStep(hotp, s, op, u);
    if u in s.users { EnabledStep(hotp, s, op, u); }
  }

  /**
   In every run, a user with 2FA on has exactly 10 unused recovery codes minus those accepted since
   activation, and a user with 2FA off has none.
   */
  lemma {:induction false} RecoveryCodeConservation(hotp: Hotp, ops: seq<Op>, u: Uuid)
    ensures CodesOk(Run(hotp, ops))
    ensures var s := Run(hotp, ops);
            |ActiveCodes(s, u)|
            == if u in s.users && s.users[u].enabled then 10 - SpentSinceConfirm(hotp, ops, u) else 0
  {
    if ops != [] {
      var (init, op) := (ops[..|ops| - 1], ops[|ops| - 1]);
      var s := Run(hotp, init);
      RecoveryCodeConservation(hotp, init, u);
      PerformKeepsCodesOk(hotp, s, op);
      ConservationStep(hotp, s, op, u, SpentSinceConfirm(hotp, init, u));
    }
  }

  predicate Issues(hotp: Hotp, s: Totp, op: Op, u: Uuid, h: CodeHash) {
    op.call.ConfirmCall? && op.call.u == u && Perform(hotp, s, op).1.Activated?
    && op.call.e.Some? && h in Hashes(FreshCodes(op.call.e.value))
  }

  /** A recovery code passes, in a verification or as the step-up of a disable. */
  predicate Accepts(hotp: Hotp, s: Totp, op: Op, u: Uuid, h: CodeHash) {
    && (op.call.VerifyCall? || op.call.DisableCall?) && op.call.u == u
    && IsRecoveryCode(op.call.code) && HashRecoveryCode(op.call.code) == h && !Perform(hotp, s, op).1.Refused?
  }

  function Issued(hotp: Hotp, ops: seq<Op>, u: Uuid, h: CodeHash): nat {
    if ops == [] then 0
    else Issued(hotp, ops[..|ops| - 1], u, h)
         + (if Issues(hotp, Run(hotp, ops[..|ops| - 1]), ops[|ops| - 1], u, h) then 1 else 0)
  }

  function Accepted(hotp: Hotp, ops: seq<Op>, u: Uuid, h: CodeHash): nat {
    if ops == [] then 0
    else Accepted(hotp, ops[..|ops| - 1], u, h)
         + (if Accepts(hotp, Run(hotp, ops[..|ops| - 1]), ops[|ops| - 1], u, h) then 1 else 0)
  }

  /** A code enters the unused set only when issued, and leaves it when accepted. */
  lemma CodeStep(hotp: Hotp, s: Totp, op: Op, u: Uuid, h: CodeHash)
    ensures var t := Perform(hotp, s, op).0;
            && (Accepts(hotp, s, op, u, h) ==> h in ActiveCodes(s, u) && h !in ActiveCodes(t, u))
            && (h in ActiveCodes(t, u) ==> h in ActiveCodes(s, u) || Issues(hotp, s, op, u, h))
  {
  }

  /** No recovery code is accepted more often than it was issued to that user, in any run. */
  lemma {:induction false} AcceptedAtMostIssued(hotp: Hotp, ops: seq<Op>, u: Uuid, h: CodeHash)
    ensures var unused := if h in ActiveCodes(Run(hotp, ops), u) then 1 else 0;
            Accepted(hotp, ops, u, h) + unused <= Issued(hotp, ops, u, h)
  {
    if ops != [] {
      var (init, op) := (ops[..|ops| - 1], ops[|ops| - 1]);
      AcceptedAtMostIssued(hotp, init, u, h);
      CodeStep(hotp, Run(hotp, init), op, u, h);
    }
  }

  /** A recovery code that is not an unused code of this user is refused and changes nothing for anybody. */
  lemma ForeignCodeChangesNothing(hotp: Hotp, s: Totp, u: Uuid, now: nat, code: string)
    requires IsRecoveryCode(code) && HashRecoveryCode(code) !in ActiveCodes(s, u)
    ensures Verify(hotp, s, u, now, code).0 == s && Verify(hotp, s, u, now, code).1.Refused?
    ensures TurnOffCall(hotp, s, u, now, code) == Verify(hotp, s, u, now, code)
  {
  }
}
