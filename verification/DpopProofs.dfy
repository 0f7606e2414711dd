/** DPoP proof validation (section 4.3 of RFC 9449): the checks in their order, and the two caches. */
module DpopProofs {
  import opened Wrappers
  import opened Clock
  import opened TtlCaches
  import opened AccessTokens
  import opened TargetUri

  const MAX_PROOF_LEN: nat := 8192

  /** Lifetime of an issued nonce: 300 seconds. */
  const NONCE_TTL: nat := 300 * SEC

  /** Lifetime of a seen `jti`: both halves of the window and a buffer of 5 seconds. */
  function JtiTtl(skew: nat): nat {
    2 * skew + 5 * SEC
  }

  /** The access-token hash as a free constructor. */
  datatype Ath = Ath(token: AccessToken)

  datatype Claims = Claims(htm: string, htu: Option<Url>, iat: nat, jti: Uuid, nonce: Option<Uuid>, ath: Option<Ath>)

  datatype Jwk = Jwk(thumbprint: Thumbprint, symmetric: bool, privateOps: bool)

  /** A proof as its decoding presents it; `verified` is the verdict of the signature under the header's key. */
  datatype Proof = Proof(len: nat, headerReadable: bool, privateMaterial: bool, typ: Option<string>, alg: nat,
                         jwk: Option<Jwk>, verified: bool, claims: Claims)

  datatype DpopError =
    | MissingHeader | InvalidTyp | InvalidAlgorithm | InvalidSignature | HtmMismatch | HtuMismatch
    | JtiReplay | Expired | TokenNonceRequired(nonce: Uuid) | ResourceNonceRequired(nonce: Uuid) | Internal

  datatype ValidatedProof = ValidatedProof(key: Thumbprint, claims: Claims)

  datatype Context = Context(htm: string, htu: Option<Url>, token: Option<AccessToken>, nonceRequired: bool,
                             algs: set<nat>)

  /** The cheap structural checks and the signature. */
  function Decode(proof: Proof, algs: set<nat>): Result<ValidatedProof, DpopError> {
    if proof.len > MAX_PROOF_LEN || !proof.headerReadable || proof.privateMaterial then Err(InvalidSignature)
    else if proof.typ != Some("dpop+jwt") then Err(InvalidTyp)
    else if proof.alg !in algs then Err(InvalidAlgorithm)
    else if proof.jwk.None? || proof.jwk.value.symmetric || proof.jwk.value.privateOps || !proof.verified then
      Err(InvalidSignature)
    else Ok(ValidatedProof(proof.jwk.value.thumbprint, proof.claims))
  }

  /** The freshness window: whole seconds, with saturating bounds. */
  predicate InWindow(iat: nat, skew: nat, now: nat) {
    && SaturatingSub(iat, WholeSecs(skew)) <= WholeSecs(now)
    && WholeSecs(now) <= SaturatingAdd(iat, WholeSecs(skew))
  }

  /** Everything up to the nonce: no cache is read. */
  function Admit(proof: Proof, ctx: Context, skew: nat, now: nat): Result<ValidatedProof, DpopError> {
    match Decode(proof, ctx.algs)
    case Err(e) => Err(e)
    case Ok(v) =>
      if !InWindow(v.claims.iat, skew, now) then Err(Expired)
      else if v.claims.htm != ctx.htm then Err(HtmMismatch)
      else if NormalizeHtu(v.claims.htu).None? || NormalizeHtu(v.claims.htu) != NormalizeHtu(ctx.htu) then
        Err(HtuMismatch)
      else Ok(v)
  }

  /** A nonce is needed if required or present, and must be one this server issued and still remembers. */
  predicate NonceOk(nonces: map<Uuid, Entry<bool>>, claims: Claims, ctx: Context, now: nat) {
    (ctx.nonceRequired || claims.nonce.Some?) ==> claims.nonce.Some? && Live(nonces, NONCE_TTL, claims.nonce.value, now)
  }

  function NonceChallenge(ctx: Context, nonce: Uuid): DpopError {
    if ctx.token.Some? then ResourceNonceRequired(nonce) else TokenNonceRequired(nonce)
  }

  predicate AthOk(claims: Claims, ctx: Context) {
    ctx.token.Some? ==> claims.ath == Some(Ath(ctx.token.value))
  }

  /** The instants at which one validation reads the clock: window, nonce, `jti`. */
  datatype Instants = Instants(window: nat, nonce: nat, jti: nat)

  datatype Caches = Caches(jtis: map<Uuid, Entry<bool>>, nonces: map<Uuid, Entry<bool>>)

  /** The whole validation: the caches it leaves and its result. `newNonce` is the nonce it may issue. */
  function Validate(c: Caches, skew: nat, proof: Proof, ctx: Context, at: Instants, newNonce: Uuid)
    : (Caches, Result<ValidatedProof, DpopError>)
  {
    match Admit(proof, ctx, skew, at.window)
    case Err(e) => (c, Err(e))
    case Ok(v) =>
      if !NonceOk(c.nonces, v.claims, ctx, at.nonce) then
        (c.(nonces := c.nonces[newNonce := Entry(true, at.nonce)]), Err(NonceChallenge(ctx, newNonce)))
      else if !AthOk(v.claims, ctx) then (c, Err(InvalidSignature))
      else if Live(c.jtis, JtiTtl(skew), v.claims.jti, at.jti) then (c, Err(JtiReplay))
      else (c.(jtis := c.jtis[v.claims.jti := Entry(true, at.jti)]), Ok(v))
  }

  predicate IsNonceChallenge(r: Result<ValidatedProof, DpopError>) {
    r.Err? && (r.error.TokenNonceRequired? || r.error.ResourceNonceRequired?)
  }

  /**
   Frame of the caches: only an acceptance adds a `jti`, its own; only a nonce challenge adds a nonce,
   the one it returns; every other exit leaves both caches alone.
   */
  lemma CacheFrame(c: Caches, skew: nat, proof: Proof, ctx: Context, at: Instants, newNonce: Uuid)
    ensures var (c', r) := Validate(c, skew, proof, ctx, at, newNonce);
            && (r.Ok? ==> c' == c.(jtis := c.jtis[proof.claims.jti := Entry(true, at.jti)]))
            && (r.Err? ==> c'.jtis == c.jtis)
            && (IsNonceChallenge(r) ==>
                  r.error.nonce == newNonce && c'.nonces == c.nonces[newNonce := Entry(true, at.nonce)])
            && (!IsNonceChallenge(r) ==> c'.nonces == c.nonces)
  {
  }

  /** The header names an allowed algorithm and carries a public, asymmetric key that verifies the signature. */
  predicate WellSigned(proof: Proof, algs: set<nat>) {
    && proof.len <= 8192 && proof.headerReadable && !proof.privateMaterial && proof.typ == Some("dpop+jwt")
    && proof.alg in algs && proof.verified
    && proof.jwk.Some? && !proof.jwk.value.symmetric && !proof.jwk.value.privateOps
  }

  /**
   A proof is accepted iff it is well signed, made for this method and target, at most the whole seconds
   of the skew away from now, bound to the access token presented, carries an issued nonce if it carries
   or needs one, and its `jti` has not been seen for a lifetime. It then yields the key that signed it.
   */
  lemma AcceptedIff(c: Caches, skew: nat, proof: Proof, ctx: Context, at: Instants, newNonce: Uuid)
    ensures var (r, claims) := (Validate(c, skew, proof, ctx, at, newNonce).1, proof.claims);
            && (r.Ok? <==>
                  && WellSigned(proof, ctx.algs) && claims.htm == ctx.htm
                  && claims.htu.Some? && NormalizeHtu(claims.htu) == NormalizeHtu(ctx.htu)
                  && claims.iat - skew / 1_000_000_000 <= at.window / 1_000_000_000
                  && at.window / 1_000_000_000 <= SaturatingAdd(claims.iat, skew / 1_000_000_000)
                  && (ctx.token.Some? ==> claims.ath.Some? && claims.ath.value.token == ctx.token.value)
                  && (claims.nonce.Some? ==>
                        claims.nonce.value in c.nonces && at.nonce < c.nonces[claims.nonce.value].at + 300_000_000_000)
                  && (ctx.nonceRequired ==> claims.nonce.Some?)
                  && (claims.jti in c.jtis ==> c.jtis[claims.jti].at + 2 * skew + 5_000_000_000 <= at.jti))
            && (r.Ok? ==> r.value == ValidatedProof(proof.jwk.value.thumbprint, claims))
  {
  }

  /**
   The result is decided by the first check that fails, in this order. A nonce that is missing where one is required,
   or is not one issued less than 300 seconds ago, gets a challenge with the new nonce: that of the token endpoint
   without an access token, that of a resource with one.
   */
  lemma FirstFailingCheck(c: Caches, skew: nat, proof: Proof, ctx: Context, at: Instants, newNonce: Uuid)
    ensures var (r, claims) := (Validate(c, skew, proof, ctx, at, newNonce).1, proof.claims);
            var (now, window) := (at.window / 1_000_000_000, skew / 1_000_000_000);
            var latest := if claims.iat + window <= 0xFFFF_FFFF_FFFF_FFFF then claims.iat + window
                          else 0xFFFF_FFFF_FFFF_FFFF;
            if proof.len > 8192 || !proof.headerReadable || proof.privateMaterial then r == Err(InvalidSignature)
            else if proof.typ != Some("dpop+jwt") then r == Err(InvalidTyp)
            else if proof.alg !in ctx.algs then r == Err(InvalidAlgorithm)
            else if proof.jwk.None? || proof.jwk.value.symmetric || proof.jwk.value.privateOps || !proof.verified then
              r == Err(InvalidSignature)
            else if now + window < claims.iat || latest < now then r == Err(Expired)
            else if claims.htm != ctx.htm then r == Err(HtmMismatch)
            else if claims.htu.None? || NormalizeHtu(claims.htu) != NormalizeHtu(ctx.htu) then r == Err(HtuMismatch)
            else if claims.nonce.None? && ctx.nonceRequired then
              r == Err(if ctx.token.None? then TokenNonceRequired(newNonce) else ResourceNonceRequired(newNonce))
            else if claims.nonce.Some? && !(claims.nonce.value in c.nonces
                                            && at.nonce < c.nonces[claims.nonce.value].at + 300_000_000_000) then
              r == Err(if ctx.token.None? then TokenNonceRequired(newNonce) else ResourceNonceRequired(newNonce))
            else if ctx.token.Some? && claims.ath != Some(Ath(ctx.token.value)) then r == Err(InvalidSignature)
            else if claims.jti in c.jtis && at.jti < c.jtis[claims.jti].at + 2 * skew + 5_000_000_000 then
              r == Err(JtiReplay)
            else r == Ok(ValidatedProof(proof.jwk.value.thumbprint, claims))
  {
  }

  /**
   The middleware's `authenticate` on tokens this server has `issued`: the caches it leaves and the session,
   if any.
   */
  function Session(c: Caches, skew: nat, issued: set<AccessToken>, token: AccessToken, proof: Proof, ctx: Context,
                   now: nat, at: Instants, newNonce: Uuid): (Caches, Result<AccessToken, DpopError>)
  {
    if token !in issued then (c, Err(InvalidSignature))
    else if !Unexpired(token, skew, now) then (c, Err(Expired))
    else
      match Validate(c, skew, proof, ctx.(token := Some(token)), at, newNonce)
      case (c', Err(e)) => (c', Err(e))
      case (c', Ok(v)) => (c', if v.key == token.jkt then Ok(token) else Err(InvalidSignature))
  }

  /** The verdict of the middleware and its errors, check by check: token, expiry, proof, key. */
  lemma SessionLaw(c: Caches, skew: nat, issued: set<AccessToken>, token: AccessToken, proof: Proof, ctx: Context,
                   now: nat, at: Instants, newNonce: Uuid)
    ensures var (c', r) := Session(c, skew, issued, token, proof, ctx, now, at, newNonce);
            var (d, v) := Validate(c, skew, proof, ctx.(token := Some(token)), at, newNonce);
            if token !in issued then c' == c && r == Err(InvalidSignature)
            else if token.exp + skew / 1_000_000_000 < now / 1_000_000_000 then c' == c && r == Err(Expired)
            else
              && c' == d && (v.Err? ==> r == Err(v.error))
              && (v.Ok? ==> r == if proof.jwk.value.thumbprint == token.jkt then Ok(token) else Err(InvalidSignature))
  {
  }

  /** The shared state of the DPoP layer. */
  class DpopState {
    const skew: nat
    const jtiCache: TtlCache<Uuid, bool>
    const nonceCache: TtlCache<Uuid, bool>

    constructor (skew: nat)
      ensures Valid() && this.skew == skew && fresh(jtiCache) && fresh(nonceCache)
      ensures View() == Caches(map[], map[])
      ensures jtiCache.ttl == 2 * skew + 5_000_000_000 && nonceCache.ttl == 300_000_000_000
    {
      this.skew := skew;
      jtiCache := new TtlCache<Uuid, bool>(2 * skew + 5 * SEC);
      nonceCache := new TtlCache<Uuid, bool>(NONCE_TTL);
    }

    ghost predicate Valid() {
      jtiCache != nonceCache && jtiCache.ttl == JtiTtl(skew) && nonceCache.ttl == NONCE_TTL
    }

    ghost function View(): Caches
      reads jtiCache, nonceCache
    {
      Caches(jtiCache.entries, nonceCache.entries)
    }

    method ValidateProof(proof: Proof, ctx: Context, at: Instants, newNonce: Uuid)
      returns (r: Result<ValidatedProof, DpopError>)
      requires Valid()
      modifies jtiCache, nonceCache
      ensures (View(), r) == Validate(old(View()), skew, proof, ctx, at, newNonce)
    {
      var admitted := Admit(proof, ctx, skew, at.window);
      if admitted.Err? {
        return Err(admitted.error);
      }
      var claims := admitted.value.claims;
      if ctx.nonceRequired || claims.nonce.Some? {
        var known := false;
        if claims.nonce.Some? {
          var entry := nonceCache.Get(claims.nonce.value, at.nonce);
          known := entry.Some?;
        }
        if !known {
          nonceCache.Insert(newNonce, true, at.nonce);
          return Err(NonceChallenge(ctx, newNonce));
        }
      }
      if ctx.token.Some? {
        if claims.ath.None? || claims.ath.value != Ath(ctx.token.value) {
          return Err(InvalidSignature);
        }
      }
      var isNew := jtiCache.OrInsert(claims.jti, true, at.jti);
      if !isNew {
        return Err(JtiReplay);
      }
      return Ok(admitted.value);
    }

    /**
     The middleware's `authenticate`: a session exists iff the token was issued here and is not expired,
     the proof validates for this token, and the proof's key is the one the token is bound to.
     */
    method Authenticate(token: AccessToken, issued: set<AccessToken>, proof: Proof, ctx: Context, now: nat,
                        at: Instants, newNonce: Uuid)
      returns (r: Result<AccessToken, DpopError>)
      requires Valid()
      modifies jtiCache, nonceCache
      ensures (View(), r) == Session(old(View()), skew, issued, token, proof, ctx, now, at, newNonce)
      ensures r.Ok? <==>
                && token in issued && Unexpired(token, skew, now)
                && var v := Validate(old(View()), skew, proof, ctx.(token := Some(token)), at, newNonce).1;
                   v.Ok? && v.value.key == token.jkt
    {
      if token !in issued {
        return Err(InvalidSignature);
      }
      if !Unexpired(token, skew, now) {
        return Err(Expired);
      }
      var v := ValidateProof(proof, ctx.(token := Some(token)), at, newNonce);
      if v.Err? {
        return Err(v.error);
      }
      if token.jkt != v.value.key {
        return Err(InvalidSignature);
      }
      return Ok(token);
    }
  }
}
