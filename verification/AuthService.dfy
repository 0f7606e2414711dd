/**
 The token service with each transaction as one atomic step: login, refresh and logout over the
 token table and the grace cache. The functions say what a transaction leaves behind; the class runs
 the statements, with rollback, and is proved to leave just that.
 */
module AuthService {
  import opened Wrappers
  import opened Clock
  import opened TtlCaches
  import opened AccessTokens
  import opened RefreshTokens

  datatype Config = Config(accessTtl: nat, refreshTtl: nat, grace: nat, skew: nat)

  datatype User = User(publicId: Uuid, deleted: bool)

  datatype Store = Store(users: map<Uuid, User>, rows: Table, grace: map<GraceKey, Entry<Pair>>)

  /** The random choices of one call: the new refresh secret and the `jti` of the access token. */
  datatype Choice = Choice(secret: Secret, jti: Uuid)

  /**
   The clock readings of one call. `checked`: the swap and the expiry check, or a login's new expiry;
   `acted`: the grace cache is read or written and the access token issued.
   */
  datatype Timing = Timing(checked: nat, acted: nat)

  predicate Present(users: map<Uuid, User>, user: Uuid) {
    user in users && !users[user].deleted
  }

  function Family(rows: Table, fam: Uuid): set<Digest> {
    set h | h in rows && rows[h].fam == fam
  }

  /** The lifetime of a new family, truncated to whole seconds. */
  function RefreshExpiry(cfg: Config, now: nat): nat {
    now + WholeSecs(cfg.refreshTtl) * SEC
  }

  function NewPair(cfg: Config, publicId: Uuid, jkt: Thumbprint, choice: Choice, now: nat): Pair {
    Pair(IssueAccessToken(cfg.accessTtl, publicId, jkt, choice.jti, now), choice.secret)
  }

  /** The compare-and-swap wins and every check passes. */
  predicate CanRotate(s: Store, now: nat, h: Digest, jkt: Thumbprint) {
    Active(s.rows, h) && now < s.rows[h].expiresAt && s.rows[h].jkt == jkt && Present(s.users, s.rows[h].user)
  }

  function Rotate(rows: Table, h: Digest, succ: Digest, now: nat): Table
    requires h in rows
  {
    rows[h := rows[h].(revokedAt := Some(now))][succ := rows[h].(revokedAt := None)]
  }

  /** A token that is revoked and has no live grace entry: its reuse revokes the family. */
  predicate ReuseDetected(cfg: Config, s: Store, now: nat, h: Digest) {
    h in s.rows && s.rows[h].revokedAt.Some? && !Live(s.grace, cfg.grace, GraceKey(s.rows[h].fam, h), now)
  }

  /** What one refresh transaction leaves behind and answers; `commits` is the verdict of its commit. */
  function RefreshTx(cfg: Config, s: Store, at: Timing, secret: Secret, jkt: Thumbprint, choice: Choice, commits: bool)
    : (Store, Answer)
  {
    var h := Sha256(secret);
    if CanRotate(s, at.checked, h, jkt) then
      var row, succ := s.rows[h], Sha256(choice.secret);
      if succ in s.rows then (s, Err(Internal))
      else
        var pair := NewPair(cfg, s.users[row.user].publicId, jkt, choice, at.acted);
        var s' := s.(grace := s.grace[GraceKey(row.fam, h) := Entry(pair, at.acted)]);
        if commits then (s'.(rows := Rotate(s.rows, h, succ, at.checked)), Ok(pair)) else (s', Err(Internal))
    else if ReuseDetected(cfg, s, at.acted, h) then
      if commits then (s.(rows := RevokeWhere(s.rows, Family(s.rows, s.rows[h].fam), at.acted)), Err(Unauthorized))
      else (s, Err(Internal))
    else if h in s.rows && s.rows[h].revokedAt.Some? then (s, Ok(s.grace[GraceKey(s.rows[h].fam, h)].value))
    else (s, Err(Unauthorized))
  }

  /** Login: the first row of a family. A hash already in use violates UNIQUE and nothing is inserted. */
  function LoginTx(cfg: Config, s: Store, at: Timing, user: Uuid, jkt: Thumbprint, fam: Uuid, choice: Choice)
    : (Store, Answer)
  {
    if !Present(s.users, user) then (s, Err(Unauthorized))
    else if Sha256(choice.secret) in s.rows then (s, Err(Internal))
    else
      (s.(rows := s.rows[Sha256(choice.secret) := Row(user, fam, jkt, RefreshExpiry(cfg, at.checked), None)]),
       Ok(NewPair(cfg, s.users[user].publicId, jkt, choice, at.acted)))
  }

  /**
   Every failed refresh leaves the table exactly as it was, except a committed reuse detection; that
   one turns null `revoked_at` fields of the token's own family non-null and touches nothing else.
   */
  lemma FailureFrame(cfg: Config, s: Store, at: Timing, secret: Secret, jkt: Thumbprint, choice: Choice, commits: bool)
    requires RefreshTx(cfg, s, at, secret, jkt, choice, commits).1.Err?
    ensures var t := RefreshTx(cfg, s, at, secret, jkt, choice, commits).0;
            var h := Sha256(secret);
            if ReuseDetected(cfg, s, at.acted, h) && commits then
              && t.rows.Keys == s.rows.Keys && t.grace == s.grace
              && forall g :: g in s.rows ==>
                   t.rows[g] == if Active(s.rows, g) && s.rows[g].fam == s.rows[h].fam
                                then s.rows[g].(revokedAt := Some(at.acted)) else s.rows[g]
            else t.rows == s.rows
  {
  }

  /**
   An active token, field by field. It is rotated iff it is presented before its end of life, with its own key, for a
   user that exists and is not deleted, and a new successor hash is drawn; the pair is then cached and, if the
   commit succeeds, the row revoked and its successor added. Any other outcome changes nothing.
   */
  lemma ActiveTokenLaw(cfg: Config, s: Store, at: Timing, secret: Secret, jkt: Thumbprint, choice: Choice,
                       commits: bool)
    requires Sha256(secret) in s.rows && s.rows[Sha256(secret)].revokedAt.None?
    ensures var (h, succ) := (Sha256(secret), Sha256(choice.secret));
            var (row, tx) := (s.rows[h], RefreshTx(cfg, s, at, secret, jkt, choice, commits));
            if !(at.checked < row.expiresAt && row.jkt == jkt && row.user in s.users && !s.users[row.user].deleted) then
              tx == (s, Err(Unauthorized))
            else if succ in s.rows then tx == (s, Err(Internal))
            else
              var iat := at.acted / 1_000_000_000;
              var exp := if iat + cfg.accessTtl / 1_000_000_000 <= 0xFFFF_FFFF_FFFF_FFFF
                         then iat + cfg.accessTtl / 1_000_000_000 else 0xFFFF_FFFF_FFFF_FFFF;
              var pair := Pair(AccessToken(s.users[row.user].publicId, choice.jti, jkt, iat, exp), choice.secret);
              && tx.0.users == s.users && tx.0.grace == s.grace[GraceKey(row.fam, h) := Entry(pair, at.acted)]
              && (commits ==>
                    && tx.1 == Ok(pair)
                    && tx.0.rows == s.rows[h := row.(revokedAt := Some(at.checked))]
                                          [succ := Row(row.user, row.fam, jkt, row.expiresAt, None)])
              && (!commits ==> tx.1 == Err(Internal) && tx.0.rows == s.rows)
  {
  }

  /**
   A token that is not active. Unknown: refused. Revoked and replaced less than the grace period ago: the cached pair.
   Revoked otherwise: every active row of its family is revoked, if the commit succeeds, and the answer is a refusal.
   */
  lemma RevokedTokenLaw(cfg: Config, s: Store, at: Timing, secret: Secret, jkt: Thumbprint, choice: Choice,
                        commits: bool)
    requires Sha256(secret) in s.rows ==> s.rows[Sha256(secret)].revokedAt.Some?
    ensures var (h, tx) := (Sha256(secret), RefreshTx(cfg, s, at, secret, jkt, choice, commits));
            if h !in s.rows then tx == (s, Err(Unauthorized))
            else
              var (fam, key) := (s.rows[h].fam, GraceKey(s.rows[h].fam, h));
              if key in s.grace && at.acted < s.grace[key].at + cfg.grace then tx == (s, Ok(s.grace[key].value))
              else if !commits then tx == (s, Err(Internal))
              else
                && tx.1 == Err(Unauthorized) && tx.0 == s.(rows := tx.0.rows) && tx.0.rows.Keys == s.rows.Keys
                && forall g :: g in s.rows ==>
                     tx.0.rows[g] == if s.rows[g].fam == fam && s.rows[g].revokedAt.None?
                                     then s.rows[g].(revokedAt := Some(at.acted)) else s.rows[g]
  {
  }

  /** A login of a user that exists and is not deleted: a row that lives for the refresh lifetime in whole seconds. */
  lemma LoginLaw(cfg: Config, s: Store, at: Timing, user: Uuid, jkt: Thumbprint, fam: Uuid, choice: Choice)
    ensures var (h, tx) := (Sha256(choice.secret), LoginTx(cfg, s, at, user, jkt, fam, choice));
            if user !in s.users || s.users[user].deleted then tx == (s, Err(Unauthorized))
            else if h in s.rows then tx == (s, Err(Internal))
            else
              var end := at.checked + (cfg.refreshTtl / 1_000_000_000) * 1_000_000_000;
              && tx.0 == s.(rows := s.rows[h := Row(user, fam, jkt, end, None)])
              && tx.1.Ok? && tx.1.value.refresh == choice.secret
              && tx.1.value.access.sub == s.users[user].publicId && tx.1.value.access.jkt == jkt
              && tx.1.value.access.jti == choice.jti && tx.1.value.access.iat == at.acted / 1_000_000_000
  {
  }

  class AuthService {
    const cfg: Config
    const graceCache: TtlCache<GraceKey, Pair>
    var users: map<Uuid, User>
    var rows: Table

    constructor (cfg: Config)
      ensures this.cfg == cfg && Valid() && fresh(graceCache)
      ensures View() == Store(map[], map[], map[])
    {
      this.cfg := cfg;
      graceCache := new TtlCache<GraceKey, Pair>(cfg.grace);
      users := map[];
      rows := map[];
    }

    ghost predicate Valid()
      reads this
    {
      graceCache.ttl == cfg.grace
    }

    ghost function View(): Store
      reads this, graceCache
    {
      Store(users, rows, graceCache.entries)
    }

    /** `revoke_refresh_token_if_active`: the compare-and-swap, returning the row as revoked. */
    method RevokeIfActive(h: Digest, now: nat) returns (row: Option<Row>)
      modifies `rows
      ensures row.Some? <==> old(Active(rows, h))
      ensures row.Some? ==> row.value == old(rows)[h].(revokedAt := Some(now)) && rows == old(rows)[h := row.value]
      ensures row.None? ==> rows == old(rows)
    {
      if h in rows && rows[h].revokedAt.None? {
        rows := rows[h := rows[h].(revokedAt := Some(now))];
        return Some(rows[h]);
      }
      return None;
    }

    /** `revoke_refresh_token_family`. */
    method RevokeFamily(fam: Uuid, now: nat)
      modifies `rows
      ensures rows == RevokeWhere(old(rows), Family(old(rows), fam), now)
    {
      rows := map h | h in rows ::
        if rows[h].fam == fam && rows[h].revokedAt.None? then rows[h].(revokedAt := Some(now)) else rows[h];
    }

    /** `create_refresh_token` under the UNIQUE constraint on the hash. */
    method CreateRefreshToken(h: Digest, row: Row) returns (ok: bool)
      modifies `rows
      ensures ok <==> h !in old(rows)
      ensures rows == if ok then old(rows)[h := row] else old(rows)
    {
      ok := h !in rows;
      if ok {
        rows := rows[h := row];
      }
    }

    method Login(user: Uuid, jkt: Thumbprint, fam: Uuid, choice: Choice, at: Timing) returns (r: Answer)
      requires Valid()
      modifies `rows
      ensures (View(), r) == LoginTx(cfg, old(View()), at, user, jkt, fam, choice)
    {
      if user !in users || users[user].deleted {
        return Err(Unauthorized);
      }
      var ok := CreateRefreshToken(Sha256(choice.secret), Row(user, fam, jkt, RefreshExpiry(cfg, at.checked), None));
      if !ok {
        return Err(Internal);
      }
      r := Ok(NewPair(cfg, users[user].publicId, jkt, choice, at.acted));
    }

    /** Revoke a token by its hash; a second logout changes nothing. */
    method Logout(secret: Secret, now: nat)
      requires Valid()
      modifies `rows
      ensures View() == old(View()).(rows := RevokeWhere(old(rows), {Sha256(secret)}, now))
      ensures !Active(rows, Sha256(secret))
      ensures var h := Sha256(secret);
              rows == if h in old(rows) && old(rows)[h].revokedAt.None?
                      then old(rows)[h := old(rows)[h].(revokedAt := Some(now))] else old(rows)
    {
      var row := RevokeIfActive(Sha256(secret), now);
    }

    /** The statements of `refresh` in order; dropping the transaction restores the table of its start. */
    method Refresh(secret: Secret, jkt: Thumbprint, choice: Choice, at: Timing, commits: bool) returns (r: Answer)
      requires Valid()
      modifies `rows, graceCache
      ensures Valid()
      ensures (View(), r) == RefreshTx(cfg, old(View()), at, secret, jkt, choice, commits)
    {
      var begun := rows;
      var h := Sha256(secret);
      var swapped := RevokeIfActive(h, at.checked);
      if swapped.None? {
        if h !in rows {
          return Err(Unauthorized);
        }
        var cached := graceCache.Get(GraceKey(rows[h].fam, h), at.acted);
        if cached.Some? {
          return Ok(cached.value);
        }
        RevokeFamily(rows[h].fam, at.acted);
        if !commits {
          rows := begun;
          return Err(Internal);
        }
        return Err(Unauthorized);
      }
      var row := swapped.value;
      if row.expiresAt <= at.checked || row.jkt != jkt || row.user !in users || users[row.user].deleted {
        rows := begun;
        return Err(Unauthorized);
      }
      var created := CreateRefreshToken(Sha256(choice.secret), Row(row.user, row.fam, jkt, row.expiresAt, None));
      if !created {
        rows := begun;
        return Err(Internal);
      }
      var pair := NewPair(cfg, users[row.user].publicId, jkt, choice, at.acted);
      graceCache.Insert(GraceKey(row.fam, h), pair, at.acted);
      if !commits {
        rows := begun;
        return Err(Internal);
      }
      return Ok(pair);
    }
  }
}
