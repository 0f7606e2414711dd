/**
 The calls of the two-factor service spelled out: over the fields of a user's row, with the ten minutes of a draft, the
 thirty seconds of a time step and the ninety seconds of the replay cache in nanoseconds.
 */
module TotpLaws {
  import opened Wrappers
  import opened TtlCaches
  import opened AccessTokens
  import opened RecoveryCodes
  import opened TotpService
  import opened TotpRuns

  /** The user exists and is not deleted. */
  predicate Exists(s: Totp, u: Uuid) {
    u in s.users && !s.users[u].deleted
  }

  /** The row holds a draft less than ten minutes old. */
  predicate DraftAt(row: UserRow, now: nat) {
    row.pending.Some? && row.pendingAt.Some? && now < row.pendingAt.value + 600_000_000_000
  }

  /** The typed code, blanks aside, is that of the current thirty seconds or of the ones next to them. */
  predicate RightCode(hotp: Hotp, secret: TotpSecret, code: string, now: nat) {
    var k := now / 30_000_000_000;
    hotp(secret, k) == Trim(code) || hotp(secret, k + 1) == Trim(code) || (k > 0 && hotp(secret, k - 1) == Trim(code))
  }

  /** Setup resumes a draft less than ten minutes old; otherwise it starts one now. */
  lemma SetupLaw(s: Totp, u: Uuid, now: nat, newSecret: TotpSecret)
    ensures var (t, reply) := Setup(s, u, now, newSecret);
            if !Exists(s, u) then t == s && reply == Refused(Unauthorized)
            else if s.users[u].enabled then t == s && reply == Refused(Conflict)
            else if DraftAt(s.users[u], now) then t == s && reply == SetupDone(s.users[u].pending.value)
            else
              && reply == SetupDone(newSecret)
              && t == s.(users := s.users[u := s.users[u].(pending := Some(newSecret), pendingAt := Some(now))])
  {
  }

  /** Confirmation with the right code for a draft less than ten minutes old: it is in force, with ten codes. */
  lemma ConfirmLaw(hotp: Hotp, s: Totp, u: Uuid, now: nat, code: string, e: Option<Entropy>)
    ensures var (t, reply) := Confirm(hotp, s, u, now, code, e);
            if !Exists(s, u) then t == s && reply == Refused(Unauthorized)
            else if s.users[u].enabled || !DraftAt(s.users[u], now) then t == s && reply == Refused(Conflict)
            else if !RightCode(hotp, s.users[u].pending.value, code, now) then t == s && reply == Refused(Unauthorized)
            else if e.None? || |Hashes(FreshCodes(e.value))| < 10 then t == s && reply == Refused(Internal)
            else
              && reply.Activated? && |reply.codes| == 10
              && (forall i :: 0 <= i < 10 ==> reply.codes[i] == Print(e.value[10 * i..10 * i + 10]))
              && t.users == s.users[u := UserRow(s.users[u].pending, true, Some(now), None, None, false)]
              && t.codes == s.codes[u := set i | 0 <= i < 10 :: HashRecoveryCode(reply.codes[i])]
              && t.replay == s.replay
  {
  }

  /** A recovery code is spent iff it is an unused one of the user; a TOTP code must be right and new for 90 s. */
  lemma VerifyLaw(hotp: Hotp, s: Totp, u: Uuid, now: nat, code: string)
    ensures var (t, reply) := Verify(hotp, s, u, now, code);
            var (h, key) := (HashRecoveryCode(code), ReplayKey(u, Trim(code)));
            if !Exists(s, u) then t == s && reply == Refused(Unauthorized)
            else if !s.users[u].enabled then t == s && reply == Refused(Conflict)
            else if IsRecoveryCode(code) then
              if u in s.codes && h in s.codes[u] then
                t == s.(codes := s.codes[u := s.codes[u] - {h}]) && reply == Verified(RecoveryCode)
              else t == s && reply == Refused(Unauthorized)
            else if s.users[u].secret.None? || !RightCode(hotp, s.users[u].secret.value, code, now)
                    || (key in s.replay && now < s.replay[key].at + 90_000_000_000) then
              t == s && reply == Refused(Unauthorized)
            else t == s.(replay := s.replay[key := Entry(true, now)]) && reply == Verified(TotpCode)
  {
  }

  /** A disable that passes its step-up leaves neither secret, draft nor code; one that does not is the verification. */
  lemma DisableLaw(hotp: Hotp, s: Totp, u: Uuid, now: nat, code: string)
    ensures var (t, reply) := TurnOffCall(hotp, s, u, now, code);
            var (checked, verdict) := Verify(hotp, s, u, now, code);
            if verdict.Refused? then (t, reply) == (checked, verdict)
            else
              && reply == Disabled && t.replay == checked.replay && t.codes == checked.codes[u := {}]
              && t.users == s.users[u := UserRow(None, false, None, None, None, false)]
  {
  }

  /** A cleanup removes exactly the drafts more than ten minutes old. */
  lemma CleanupLaw(s: Totp, now: nat)
    ensures var t := Cleanup(s, now);
            && t.users.Keys == s.users.Keys && t.codes == s.codes && t.replay == s.replay
            && forall u :: u in s.users ==>
                 t.users[u] == if s.users[u].pendingAt.Some? && s.users[u].pendingAt.value + 600_000_000_000 < now
                               then s.users[u].(pending := None, pendingAt := None) else s.users[u]
  {
  }

  /**
   The ten minutes of a draft in every run, cleanups anywhere: a draft that a setup handed out at `t`, and that no
   later setup replaced and no confirmation promoted, is what a setup returns iff less than ten minutes have passed; a
   confirmation with the right code and ten different codes activates it iff the same.
   */
  lemma {:induction false} DraftWindow(hotp: Hotp, ops: seq<Op>, now: nat, u: Uuid, secret: TotpSecret, t: nat,
                                       newSecret: TotpSecret, code: string, e: Entropy)
    requires Monotone(ops) && forall i :: 0 <= i < |ops| ==> ops[i].at <= now
    requires var v := Run(hotp, Visible(ops));
             && Exists(v, u) && !v.users[u].enabled
             && v.users[u].pending == Some(secret) && v.users[u].pendingAt == Some(t)
    requires newSecret != secret && RightCode(hotp, secret, code, now) && |Hashes(FreshCodes(e))| == 10
    ensures HandedOut(hotp, Visible(ops), u, secret, t)
    ensures var s := Run(hotp, ops);
            && (Setup(s, u, now, newSecret).1 == SetupDone(secret) <==> now < t + 600_000_000_000)
            && (Confirm(hotp, s, u, now, code, Some(e)).1.Activated? <==> now < t + 600_000_000_000)
  {
    var (s, v) := (Run(hotp, ops), Run(hotp, Visible(ops)));
    SecretProvenance(hotp, Visible(ops), u);
    RunIsSwept(hotp, ops, now);
    assert RowSwept(s.users[u], v.users[u], now);
    SetupLaw(s, u, now, newSecret);
    ConfirmLaw(hotp, s, u, now, code, Some(e));
  }
}
