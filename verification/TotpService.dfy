/**
 Two-factor enrolment, verification and recovery codes, each service call one atomic step. The
 statement functions are the guarded updates of one `dpop_users` row.
 */
module TotpService {
  import opened Wrappers
  import opened Clock
  import opened TtlCaches
  import opened AccessTokens
  import opened RecoveryCodes

  type TotpSecret = nat

  /** The one-time password of a secret for a time step. */
  type Hotp = (TotpSecret, nat) -> string

  const STEP: nat := 30 * SEC

  const DRAFT_TTL: nat := 600 * SEC

  const REPLAY_TTL: nat := 90 * SEC

  // ----- Statements on a user row -----

  datatype UserRow = UserRow(secret: Option<TotpSecret>, enabled: bool, enabledAt: Option<nat>,
                             pending: Option<TotpSecret>, pendingAt: Option<nat>, deleted: bool)

  const NewUser: UserRow := UserRow(None, false, None, None, None, false)

  function SetPending(row: UserRow, secret: TotpSecret, now: nat): UserRow {
    if !row.enabled && !row.deleted then row.(pending := Some(secret), pendingAt := Some(now)) else row
  }

  function GetPending(row: UserRow, now: nat): Option<TotpSecret> {
    if !row.enabled && row.pendingAt.Some? && now < row.pendingAt.value + DRAFT_TTL && !row.deleted then row.pending
    else None
  }

  function Activate(row: UserRow, now: nat): UserRow {
    if row.pending.Some? && !row.deleted then UserRow(row.pending, true, Some(now), None, None, false) else row
  }

  function Disable(row: UserRow): UserRow {
    if row.enabled && !row.deleted then UserRow(None, false, None, None, None, false) else row
  }

  function CleanupDraft(row: UserRow, now: nat): UserRow {
    if row.pendingAt.Some? && row.pendingAt.value + DRAFT_TTL < now then row.(pending := None, pendingAt := None)
    else row
  }

  /** Enabled, active secret and enabling time stand or fall together; so do draft and draft time; never both. */
  predicate RowOk(row: UserRow) {
    && (row.enabled <==> row.secret.Some?) && (row.enabled <==> row.enabledAt.Some?)
    && (row.pending.Some? <==> row.pendingAt.Some?)
    && (row.enabled ==> row.pending.None?)
  }

  datatype Statement =
    | WriteDraft(secret: TotpSecret, now: nat)
    | Promote(now: nat)
    | TurnOff
    | Sweep(now: nat)
    | SoftDelete
    | RollbackTo(version: nat)

  function Execute(row: UserRow, st: Statement): UserRow
    requires !st.RollbackTo?
  {
    match st
    case WriteDraft(secret, now) => SetPending(row, secret, now)
    case Promote(now) => Activate(row, now)
    case TurnOff => Disable(row)
    case Sweep(now) => CleanupDraft(row, now)
    case SoftDelete => row.(deleted := true)
  }

  /** The versions a row goes through under any interleaving; a rollback brings back any earlier version. */
  function Versions(statements: seq<Statement>): (rows: seq<UserRow>)
    ensures |rows| == |statements| + 1
  {
    if statements == [] then [NewUser]
    else
      var rows, st := Versions(statements[..|statements| - 1]), statements[|statements| - 1];
      rows + [if st.RollbackTo? then rows[if st.version < |rows| then st.version else 0]
              else Execute(rows[|rows| - 1], st)]
  }

  /** The row invariant holds in every version, whatever the order of statements and rollbacks. */
  lemma {:induction false} EveryVersionOk(statements: seq<Statement>)
    ensures forall i :: 0 <= i < |Versions(statements)| ==> RowOk(Versions(statements)[i])
  {
    if statements != [] {
      EveryVersionOk(statements[..|statements| - 1]);
    }
  }

  // ----- Service calls -----

  datatype ReplayKey = ReplayKey(user: Uuid, code: string)

  /** `codes` holds the hashes of a user's unused recovery codes; a unique index keeps them distinct. */
  datatype Totp = Totp(users: map<Uuid, UserRow>, codes: map<Uuid, set<CodeHash>>, replay: map<ReplayKey, Entry<bool>>)

  datatype Failure = Unauthorized | Conflict | Internal

  datatype Factor = TotpCode | RecoveryCode

  datatype Reply =
    | SetupDone(secret: TotpSecret)
    | Activated(codes: seq<string>)
    | Verified(factor: Factor)
    | Disabled
    | Refused(why: Failure)
    | Done

  type Entropy = e: seq<Byte> | |e| == 100 witness seq(100, _ => 0)

  predicate Present(s: Totp, u: Uuid) {
    u in s.users && !s.users[u].deleted
  }

  function ActiveCodes(s: Totp, u: Uuid): set<CodeHash> {
    if u in s.codes then s.codes[u] else {}
  }

  /** The code of one of the three steps around now, blanks ignored. */
  predicate VerifyCode(hotp: Hotp, secret: TotpSecret, code: string, now: nat) {
    var (k, c) := (now / STEP, Trim(code));
    hotp(secret, k) == c || hotp(secret, k + 1) == c || (k > 0 && hotp(secret, k - 1) == c)
  }

  function FreshCodes(e: Entropy): (codes: seq<string>)
    ensures |codes| == 10
  {
    seq(10, i requires 0 <= i < 10 => Print(e[10 * i..10 * i + 10]))
  }

  function Hashes(codes: seq<string>): set<CodeHash> {
    set i | 0 <= i < |codes| :: HashRecoveryCode(codes[i])
  }

  lemma {:induction false} HashesBounded(codes: seq<string>)
    ensures |Hashes(codes)| <= |codes|
  {
    if codes != [] {
      var init := codes[..|codes| - 1];
      HashesBounded(init);
      assert Hashes(codes) == Hashes(init) + {HashRecoveryCode(codes[|codes| - 1])};
    }
  }

  function Setup(s: Totp, u: Uuid, now: nat, newSecret: TotpSecret): (Totp, Reply) {
    if !Present(s, u) then (s, Refused(Unauthorized))
    else if s.users[u].enabled then (s, Refused(Conflict))
    else
      match GetPending(s.users[u], now)
      case Some(secret) => (s, SetupDone(secret))
      case None => (s.(users := s.users[u := SetPending(s.users[u], newSecret, now)]), SetupDone(newSecret))
  }

  /**
   Activation, invalidation of old codes and insertion of the new ones commit together; a failing entropy
   source or equal codes, which violate the index, leave all as it was.
   */
  function Confirm(hotp: Hotp, s: Totp, u: Uuid, now: nat, code: string, e: Option<Entropy>): (Totp, Reply) {
    if !Present(s, u) then (s, Refused(Unauthorized))
    else if s.users[u].enabled then (s, Refused(Conflict))
    else
      match GetPending(s.users[u], now)
      case None => (s, Refused(Conflict))
      case Some(secret) =>
        if !VerifyCode(hotp, secret, code, now) then (s, Refused(Unauthorized))
        else if e.None? || |Hashes(FreshCodes(e.value))| < 10 then (s, Refused(Internal))
        else (s.(users := s.users[u := Activate(s.users[u], now)], codes := s.codes[u := Hashes(FreshCodes(e.value))]),
              Activated(FreshCodes(e.value)))
  }

  /** A recovery code is spent; a TOTP code must match and be new to the replay cache. */
  function Verify(hotp: Hotp, s: Totp, u: Uuid, now: nat, code: string): (Totp, Reply) {
    if !Present(s, u) then (s, Refused(Unauthorized))
    else if !s.users[u].enabled then (s, Refused(Conflict))
    else if IsRecoveryCode(code) then
      var h := HashRecoveryCode(code);
      if h in ActiveCodes(s, u) then (s.(codes := s.codes[u := ActiveCodes(s, u) - {h}]), Verified(RecoveryCode))
      else (s, Refused(Unauthorized))
    else
      var key := ReplayKey(u, Trim(code));
      if s.users[u].secret.None? || !VerifyCode(hotp, s.users[u].secret.value, code, now)
         || Live(s.replay, REPLAY_TTL, key, now)
      then (s, Refused(Unauthorized))
      else (s.(replay := s.replay[key := Entry(true, now)]), Verified(TotpCode))
  }

  function TurnOffCall(hotp: Hotp, s: Totp, u: Uuid, now: nat, code: string): (Totp, Reply) {
    var (t, reply) := Verify(hotp, s, u, now, code);
    if reply.Verified? then (t.(users := t.users[u := Disable(t.users[u])], codes := t.codes[u := {}]), Disabled)
    else (t, reply)
  }

  function Cleanup(s: Totp, now: nat): Totp {
    s.(users := map u | u in s.users :: CleanupDraft(s.users[u], now))
  }

  class Service {
    const hotp: Hotp
    const replayCache: TtlCache<ReplayKey, bool>
    var users: map<Uuid, UserRow>
    var codes: map<Uuid, set<CodeHash>>

    constructor (hotp: Hotp)
      ensures Valid() && fresh(replayCache) && View() == Totp(map[], map[], map[])
      ensures replayCache.ttl == 90_000_000_000
    {
      this.hotp := hotp;
      replayCache := new TtlCache<ReplayKey, bool>(REPLAY_TTL);
      users := map[];
      codes := map[];
    }

    ghost predicate Valid() {
      replayCache.ttl == REPLAY_TTL
    }

    ghost function View(): Totp
      reads this, replayCache
    {
      Totp(users, codes, replayCache.entries)
    }

    method SetupTwoFactor(u: Uuid, now: nat, newSecret: TotpSecret) returns (reply: Reply)
      modifies `users
      ensures (View(), reply) == Setup(old(View()), u, now, newSecret)
    {
      if u !in users || users[u].deleted {
        return Refused(Unauthorized);
      }
      if users[u].enabled {
        return Refused(Conflict);
      }
      var existing := GetPending(users[u], now);
      if existing.Some? {
        return SetupDone(existing.value);
      }
      users := users[u := SetPending(users[u], newSecret, now)];
      return SetupDone(newSecret);
    }

    method ConfirmTwoFactor(u: Uuid, now: nat, code: string, e: Option<Entropy>) returns (reply: Reply)
      modifies `users, `codes
      ensures (View(), reply) == Confirm(hotp, old(View()), u, now, code, e)
    {
      if u !in users || users[u].deleted {
        return Refused(Unauthorized);
      }
      if users[u].enabled {
        return Refused(Conflict);
      }
      var draft := GetPending(users[u], now);
      if draft.None? {
        return Refused(Conflict);
      }
      if !VerifyCode(hotp, draft.value, code, now) {
        return Refused(Unauthorized);
      }
      var generated := GenerateRecoveryCodes(10, if e.Some? then Some(e.value) else None);
      if generated.None? {
        return Refused(Internal);
      }
      var issued := generated.value;
      assert issued == FreshCodes(e.value);
      var (begunUsers, begunCodes) := (users, codes);
      users := users[u := Activate(users[u], now)];
      codes := codes[u := {}];
      var hashes := Hashes(issued);
      if |hashes| < 10 {
        users, codes := begunUsers, begunCodes;
        return Refused(Internal);
      }
      codes := codes[u := hashes];
      assert codes == begunCodes[u := hashes];
      return Activated(issued);
    }

    /** `consume_recovery_code`: only an unused code of this very user is spent. */
    method ConsumeRecoveryCode(u: Uuid, h: CodeHash) returns (spent: bool)
      modifies `codes
      ensures spent <==> u in old(codes) && h in old(codes)[u]
      ensures codes == if spent then old(codes)[u := old(codes)[u] - {h}] else old(codes)
    {
      spent := u in codes && h in codes[u];
      if spent {
        codes := codes[u := codes[u] - {h}];
      }
    }

    method VerifyTwoFactor(u: Uuid, now: nat, code: string) returns (reply: Reply)
      requires Valid()
      modifies `codes, replayCache
      ensures (View(), reply) == Verify(hotp, old(View()), u, now, code)
    {
      if u !in users || users[u].deleted {
        return Refused(Unauthorized);
      }
      if !users[u].enabled {
        return Refused(Conflict);
      }
      if IsRecoveryCode(code) {
        var spent := ConsumeRecoveryCode(u, HashRecoveryCode(code));
        return if spent then Verified(RecoveryCode) else Refused(Unauthorized);
      }
      if users[u].secret.None? || !VerifyCode(hotp, users[u].secret.value, code, now) {
        return Refused(Unauthorized);
      }
      var isNew := replayCache.OrInsert(ReplayKey(u, Trim(code)), true, now);
      return if isNew then Verified(TotpCode) else Refused(Unauthorized);
    }

    method DisableTwoFactor(u: Uuid, now: nat, code: string) returns (reply: Reply)
      requires Valid()
      modifies `users, `codes, replayCache
      ensures (View(), reply) == TurnOffCall(hotp, old(View()), u, now, code)
    {
      if u !in users || users[u].deleted {
        return Refused(Unauthorized);
      }
      if !users[u].enabled {
        return Refused(Conflict);
      }
      reply := VerifyTwoFactor(u, now, code);
      if reply.Refused? {
        return;
      }
      users := users[u := Disable(users[u])];
      codes := codes[u := {}];
      return Disabled;
    }

    method CleanupExpiredDrafts(now: nat)
      modifies `users
      ensures View() == Cleanup(old(View()), now)
    {
      users := map u | u in users :: CleanupDraft(users[u], now);
    }
  }
}
