/** Access tokens: what they carry, when they are issued and until when they are accepted. */
module AccessTokens {
  import opened Clock

  type Uuid = nat
  type Thumbprint = nat

  /** The claims of a signed token; `jkt` is the thumbprint in `cnf`. Times are Unix seconds. */
  datatype AccessToken = AccessToken(sub: Uuid, jti: Uuid, jkt: Thumbprint, iat: nat, exp: nat)

  function IssueAccessToken(ttl: nat, sub: Uuid, jkt: Thumbprint, jti: Uuid, now: nat): AccessToken {
    AccessToken(sub, jti, jkt, WholeSecs(now), SaturatingAdd(WholeSecs(now), WholeSecs(ttl)))
  }

  /** The `exp` check of the verifier, with the clock skew in whole seconds as leeway. */
  predicate Unexpired(token: AccessToken, skew: nat, now: nat) {
    WholeSecs(now) <= token.exp + WholeSecs(skew)
  }

  /** The exact lifetime: a token is accepted up to the last instant of its last whole second. */
  lemma ExactLifetime(ttl: nat, sub: Uuid, jkt: Thumbprint, jti: Uuid, issuedAt: nat, skew: nat, now: nat)
    ensures Unexpired(IssueAccessToken(ttl, sub, jkt, jti, issuedAt), skew, now)
            <==> now < (SaturatingAdd(WholeSecs(issuedAt), WholeSecs(ttl)) + WholeSecs(skew) + 1) * SEC
  {
  }
}

/** The rows of `dpop_refresh_tokens` and the pair a rotation hands out. */
module RefreshTokens {
  import opened Wrappers
  import opened AccessTokens

  type Secret = nat

  /** SHA-256 as a free constructor: digests of different secrets differ. */
  datatype Digest = Sha256(preimage: Secret)

  /** A row, stored under its UNIQUE `token_hash`. */
  datatype Row = Row(user: Uuid, fam: Uuid, jkt: Thumbprint, expiresAt: nat, revokedAt: Option<nat>)

  type Table = map<Digest, Row>

  datatype Pair = Pair(access: AccessToken, refresh: Secret)

  datatype Failure = Unauthorized | Internal

  type Answer = Result<Pair, Failure>

  /** Key of the grace cache: family and digest of the replaced token. */
  datatype GraceKey = GraceKey(fam: Uuid, replaced: Digest)

  predicate Active(rows: Table, h: Digest) {
    h in rows && rows[h].revokedAt.None?
  }

  /** `UPDATE ... SET revoked_at = now() WHERE revoked_at IS NULL` restricted to the rows in `which`. */
  function RevokeWhere(rows: Table, which: set<Digest>, now: nat): Table {
    map h | h in rows :: if h in which && rows[h].revokedAt.None? then rows[h].(revokedAt := Some(now)) else rows[h]
  }

  /** Two rows of one session: same user, same key, same end of life. */
  predicate SameSession(a: Row, b: Row) {
    a.user == b.user && a.fam == b.fam && a.jkt == b.jkt && a.expiresAt == b.expiresAt
  }

  /** No row disappears, nothing but `revoked_at` changes, and a `revoked_at` once set stays as it is. */
  ghost predicate OnlyRevokes(before: Table, after: Table) {
    forall h :: h in before ==> h in after && SameSession(before[h], after[h])
                                && (before[h].revokedAt.Some? ==> after[h] == before[h])
  }
}
