/** The nonce protocol from the client's side (sections 8 and 9 of RFC 9449): error responses and the retry loop. */
module NonceClient {
  import opened Wrappers
  import opened Clock
  import opened TtlCaches
  import opened AccessTokens
  import opened DpopProofs
  import Runs = DpopRuns

  /** Status and `DPoP-Nonce` header of a response. */
  datatype Response = Response(status: nat, nonce: Option<Uuid>)

  function IntoResponse(e: DpopError): Response {
    match e
    case TokenNonceRequired(nonce) => Response(400, Some(nonce))
    case ResourceNonceRequired(nonce) => Response(401, Some(nonce))
    case Internal => Response(500, None)
    case _ => Response(401, None)
  }

  /** The client signs again iff the response is a 400 or 401 that carries a nonce. */
  predicate Retries(r: Response) {
    (r.status == 401 || r.status == 400) && r.nonce.Some?
  }

  /** Nonce challenges and nothing else make the client retry, and it then holds the nonce of the challenge. */
  lemma RetryIffChallenge(e: DpopError)
    ensures Retries(IntoResponse(e)) <==> IsNonceChallenge(Err(e))
    ensures IsNonceChallenge(Err(e)) ==> IntoResponse(e).nonce == Some(e.nonce)
  {
  }

  /**
   Status and nonce of every error: 400 and 401 with the nonce for the two challenges, 500 for an internal error, 401
   without a nonce for the others.
   */
  lemma ResponseTable(e: DpopError)
    ensures IntoResponse(e).status == 400 <==> e.TokenNonceRequired?
    ensures IntoResponse(e).status == 500 <==> e == Internal
    ensures IntoResponse(e).status == 401 <==> !e.TokenNonceRequired? && e != Internal
    ensures IntoResponse(e).nonce.Some? <==> e.TokenNonceRequired? || e.ResourceNonceRequired?
    ensures e.TokenNonceRequired? || e.ResourceNonceRequired? ==> IntoResponse(e).nonce == Some(e.nonce)
  {
  }

  /**
   A proof that fails only for want of a nonce is answered 400 at the token endpoint and 401 at a resource, with the
   nonce the server then remembers.
   */
  lemma ChallengeStatus(c: Caches, skew: nat, proof: Proof, ctx: Context, at: Instants, newNonce: Uuid)
    requires Admit(proof, ctx, skew, at.window).Ok? && ctx.nonceRequired && proof.claims.nonce.None?
    ensures var (c', r) := Validate(c, skew, proof, ctx, at, newNonce);
            && r.Err? && newNonce in c'.nonces && c'.nonces[newNonce].at == at.nonce
            && IntoResponse(r.error) == Response(if ctx.token.None? then 400 else 401, Some(newNonce))
  {
  }

  /** Signs the request for a round of the loop with the nonce received so far. */
  type Signer = (nat, Option<Uuid>) -> Proof

  /** One round at the server: the caches it leaves and its result. */
  function Round(c: Caches, skew: nat, sign: Signer, n: nat, nonce: Option<Uuid>, ctx: Context, at: Instants,
                 newNonce: Uuid)
    : (Caches, Result<ValidatedProof, DpopError>)
  {
    Validate(c, skew, sign(n, nonce), ctx, at, newNonce)
  }

  /**
   `dpop_requests`: at most two requests, the second only after a nonce challenge and signed with its
   nonce. None is the client's own error, "nonce retry limit reached"; a client that signs the nonce it
   was given and is checked again less than 300 s after the challenge never sees it.
   */
  method DpopRequests(server: DpopState, sign: Signer, ctx: Context, at: seq<Instants>, newNonces: seq<Uuid>)
    returns (r: Option<Result<ValidatedProof, DpopError>>, sent: nat)
    requires server.Valid() && |at| == 2 && |newNonces| == 2
    modifies server.jtiCache, server.nonceCache
    ensures var (c, first) := Round(old(server.View()), server.skew, sign, 0, None, ctx, at[0], newNonces[0]);
            if !IsNonceChallenge(first) then sent == 1 && r == Some(first) && server.View() == c
            else
              var (d, second) := Round(c, server.skew, sign, 1, Some(newNonces[0]), ctx, at[1], newNonces[1]);
              && sent == 2 && server.View() == d
              && r == if IsNonceChallenge(second) then None else Some(second)
    ensures at[0].nonce <= at[1].nonce < at[0].nonce + NONCE_TTL ==>
              (forall n: Uuid :: sign(1, Some(n)).claims.nonce == Some(n)) ==> r.Some?
  {
    var nonce: Option<Uuid> := None;
    sent := 0;
    ghost var start := server.View();
    while sent < 2
      invariant sent <= 2
      invariant sent == 0 ==> nonce == None && server.View() == start
      invariant sent >= 1 ==>
        var (c, first) := Round(start, server.skew, sign, 0, None, ctx, at[0], newNonces[0]);
        && IsNonceChallenge(first)
        && (sent == 1 ==> nonce == Some(newNonces[0]) && server.View() == c)
        && (sent == 2 ==>
              var (d, second) := Round(c, server.skew, sign, 1, Some(newNonces[0]), ctx, at[1], newNonces[1]);
              IsNonceChallenge(second) && server.View() == d)
    {
      var result := server.ValidateProof(sign(sent, nonce), ctx, at[sent], newNonces[sent]);
      sent := sent + 1;
      if result.Ok? {
        return Some(result), sent;
      }
      RetryIffChallenge(result.error);
      var response := IntoResponse(result.error);
      if !Retries(response) {
        return Some(result), sent;
      }
      nonce := response.nonce;
    }
    r := None;
  }

  /**
   The challenge can be met: a proof that is otherwise admissible and carries the nonce of an earlier
   challenge, checked less than 300 s after it, passes the nonce check in any run that does not evict
   the nonce, whatever other requests did in between.
   */
  lemma ChallengeCanBeMet(skew: nat, delay: nat, steps: seq<Runs.Step>, k: nat, id: nat, newNonce: Uuid)
    requires forall i :: 0 <= i < |steps| ==> !steps[i].EvictNonce?
    requires var s := Runs.Run(skew, delay, steps);
             && k < |s.challenges| && s.now < s.challenges[k].at + NONCE_TTL
             && id in s.flights && s.flights[id].Admitted?
             && s.flights[id].v.claims.nonce == Some(s.challenges[k].nonce)
    ensures var s := Runs.Run(skew, delay, steps);
            var t := Runs.Apply(skew, delay, s, Runs.CheckNonce(id, newNonce));
            t.challenges == s.challenges && id in t.flights && t.flights[id].Cleared?
  {
    Runs.NonceRemembered(skew, delay, steps, k);
  }
}
