/**
 Any number of proof validations in flight against the shared caches, each stopping between its
 clock readings. `jti` entries are not evicted; nonces may be.
 */
module DpopRuns {
  import opened Wrappers
  import opened Clock
  import opened TtlCaches
  import opened AccessTokens
  import opened TargetUri
  import opened DpopProofs
  import opened ReplayGuard

  datatype Phase =
    | Admitted(v: ValidatedProof, ctx: Context, checkedAt: nat)
    | Cleared(v: ValidatedProof, ctx: Context, checkedAt: nat, clearedAt: nat)

  datatype Acceptance = Acceptance(v: ValidatedProof, ctx: Context, checkedAt: nat, clearedAt: nat, recordedAt: nat)

  datatype Challenge = Challenge(nonce: Uuid, at: nat)

  datatype State = State(now: nat, caches: Caches, flights: map<nat, Phase>, accepted: seq<Acceptance>,
                         challenges: seq<Challenge>)

  datatype Step =
    | Tick(to: nat)
    | Arrive(id: nat, proof: Proof, ctx: Context)
    | CheckNonce(id: nat, newNonce: Uuid)
    | Record(id: nat)
    | Drop(id: nat)
    | EvictNonce(nonce: Uuid)

  const Init: State := State(0, Caches(map[], map[]), map[], [], [])

  function ApplyCheckNonce(s: State, id: nat, newNonce: Uuid): State {
    if !(id in s.flights && s.flights[id].Admitted?) then s
    else
      var f := s.flights[id];
      if NonceOk(s.caches.nonces, f.v.claims, f.ctx, s.now) then
        s.(flights := s.flights[id := Cleared(f.v, f.ctx, f.checkedAt, s.now)])
      else
        s.(flights := s.flights - {id},
           caches := s.caches.(nonces := s.caches.nonces[newNonce := Entry(true, s.now)]),
           challenges := s.challenges + [Challenge(newNonce, s.now)])
  }

  /** The `ath` check and the `jti` entry, in a run where this comes at most `delay` after the window check. */
  function ApplyRecord(skew: nat, delay: nat, s: State, id: nat): State {
    if !(id in s.flights && s.flights[id].Cleared? && s.now <= s.flights[id].checkedAt + delay) then s
    else
      var f := s.flights[id];
      var jti := f.v.claims.jti;
      if !AthOk(f.v.claims, f.ctx) || Live(s.caches.jtis, JtiTtl(skew), jti, s.now) then s.(flights := s.flights - {id})
      else
        s.(flights := s.flights - {id},
           caches := s.caches.(jtis := s.caches.jtis[jti := Entry(true, s.now)]),
           accepted := s.accepted + [Acceptance(f.v, f.ctx, f.checkedAt, f.clearedAt, s.now)])
  }

  function Apply(skew: nat, delay: nat, s: State, step: Step): State {
    match step
    case Tick(to) => if s.now <= to then s.(now := to) else s
    case Arrive(id, proof, ctx) =>
      var r := Admit(proof, ctx, skew, s.now);
      if id in s.flights || r.Err? then s else s.(flights := s.flights[id := Admitted(r.value, ctx, s.now)])
    case CheckNonce(id, newNonce) => ApplyCheckNonce(s, id, newNonce)
    case Record(id) => ApplyRecord(skew, delay, s, id)
    case Drop(id) => s.(flights := s.flights - {id})
    case EvictNonce(nonce) => s.(caches := s.caches.(nonces := s.caches.nonces - {nonce}))
  }

  function Run(skew: nat, delay: nat, steps: seq<Step>): State {
    if steps == [] then Init
    else Apply(skew, delay, Run(skew, delay, steps[..|steps| - 1]), steps[|steps| - 1])
  }

  /** Arrival, nonce check and record of one request, at its three clock readings. */
  function ThreeSteps(skew: nat, delay: nat, s: State, id: nat, proof: Proof, ctx: Context, at: Instants,
                      newNonce: Uuid): State {
    var a := Apply(skew, delay, s.(now := at.window), Arrive(id, proof, ctx));
    var b := Apply(skew, delay, a.(now := at.nonce), CheckNonce(id, newNonce));
    Apply(skew, delay, b.(now := at.jti), Record(id))
  }

  /** A validation that is not interrupted does what `Validate` says: same caches, accepted iff its result is Ok. */
  lemma UninterruptedIsValidate(skew: nat, delay: nat, s: State, id: nat, proof: Proof, ctx: Context, at: Instants,
                                newNonce: Uuid)
    requires id !in s.flights && at.jti <= at.window + delay
    ensures var t := ThreeSteps(skew, delay, s, id, proof, ctx, at, newNonce);
            var (c, r) := Validate(s.caches, skew, proof, ctx, at, newNonce);
            && t.caches == c
            && t.accepted == s.accepted
                 + (if r.Ok? then [Acceptance(r.value, ctx, at.window, at.nonce, at.jti)] else [])
            && t.challenges == s.challenges + (if IsNonceChallenge(r) then [Challenge(newNonce, at.nonce)] else [])
            && t.flights == s.flights
  {
  }

  // ----- Proof replay -----

  /** The window of a proof, in nanoseconds: it opens `skew` whole seconds before `iat` and is this long. */
  function WindowOpens(iat: nat, skew: nat): nat {
    SaturatingSub(iat, WholeSecs(skew)) * SEC
  }

  function WindowSpan(skew: nat): nat {
    (2 * WholeSecs(skew) + 1) * SEC
  }

  lemma WindowIsSpan(iat: nat, skew: nat, now: nat)
    requires InWindow(iat, skew, now)
    ensures WindowOpens(iat, skew) <= now < WindowOpens(iat, skew) + WindowSpan(skew)
  {
  }

  function Uses(accepted: seq<Acceptance>): seq<Use<Uuid>> {
    seq(|accepted|, i requires 0 <= i < |accepted| => Use(accepted[i].v.claims.jti, accepted[i].recordedAt))
  }

  /** Checked inside the window, recorded in time. */
  predicate Timely(skew: nat, delay: nat, a: Acceptance) {
    InWindow(a.v.claims.iat, skew, a.checkedAt) && a.checkedAt <= a.recordedAt <= a.checkedAt + delay
  }

  ghost predicate ReplayInv(skew: nat, delay: nat, s: State) {
    && (forall id :: id in s.flights ==>
          InWindow(s.flights[id].v.claims.iat, skew, s.flights[id].checkedAt) && s.flights[id].checkedAt <= s.now)
    && (forall i :: 0 <= i < |s.accepted| ==> Timely(skew, delay, s.accepted[i]))
    && GuardOk(s.caches.jtis, JtiTtl(skew), Uses(s.accepted), s.now)
  }

  lemma RecordKeepsReplayInv(skew: nat, delay: nat, s: State, id: nat)
    requires ReplayInv(skew, delay, s)
    ensures ReplayInv(skew, delay, ApplyRecord(skew, delay, s, id))
  {
    var t := ApplyRecord(skew, delay, s, id);
    if t.accepted != s.accepted {
      var jti := s.flights[id].v.claims.jti;
      GuardedUse(s.caches.jtis, JtiTtl(skew), Uses(s.accepted), jti, true, s.now);
      assert Uses(t.accepted) == Uses(s.accepted) + [Use(jti, s.now)];
    }
  }

  lemma {:induction false} RunKeepsReplayInv(skew: nat, delay: nat, steps: seq<Step>)
    ensures ReplayInv(skew, delay, Run(skew, delay, steps))
  {
    if steps != [] {
      var (s, step) := (Run(skew, delay, steps[..|steps| - 1]), steps[|steps| - 1]);
      RunKeepsReplayInv(skew, delay, steps[..|steps| - 1]);
      if step.Record? { RecordKeepsReplayInv(skew, delay, s, step.id); }
    }
  }

  /** No run accepts the same proof (same `jti`, same `iat`) twice. */
  ghost predicate ReplayFree(skew: nat, delay: nat) {
    forall steps, i, j :: 0 <= i < j < |Run(skew, delay, steps).accepted| ==>
      var a, b := Run(skew, delay, steps).accepted[i].v.claims, Run(skew, delay, steps).accepted[j].v.claims;
      a.jti != b.jti || a.iat != b.iat
  }

  /** Two acceptances of one proof are less than window plus delay apart, and so less than one lifetime. */
  lemma DelayWithinBuffer(skew: nat, delay: nat)
    requires delay <= 4 * SEC + 2 * (skew % SEC)
    ensures ReplayFree(skew, delay)
  {
    forall steps, i, j | 0 <= i < j < |Run(skew, delay, steps).accepted|
      ensures var a, b := Run(skew, delay, steps).accepted[i].v.claims, Run(skew, delay, steps).accepted[j].v.claims;
              a.jti != b.jti || a.iat != b.iat
    {
      RunKeepsReplayInv(skew, delay, steps);
      var accepted := Run(skew, delay, steps).accepted;
      var (a, b) := (accepted[i], accepted[j]);
      assert Timely(skew, delay, a) && Timely(skew, delay, b);
      WindowIsSpan(a.v.claims.iat, skew, a.checkedAt);
      WindowIsSpan(b.v.claims.iat, skew, b.checkedAt);
      var uses := Uses(accepted);
      assert uses[i].key == uses[j].key ==> uses[i].recorded + JtiTtl(skew) <= uses[j].recorded;
      assert skew == WholeSecs(skew) * SEC + skew % SEC;
    }
  }

  lemma RunExtend(skew: nat, delay: nat, steps: seq<Step>, step: Step)
    ensures Run(skew, delay, steps + [step]) == Apply(skew, delay, Run(skew, delay, steps), step)
  {
  }

  /** A proof for the middle of the first window, and the request it fits. */
  function SampleProof(skew: nat): Proof {
    var url := Some(Url("https", Some("example.com"), None, "/token", None, None));
    Proof(100, true, false, Some("dpop+jwt"), 0, Some(Jwk(1, false, false)), true,
          Claims("POST", url, WholeSecs(skew), 5, None, None))
  }

  function SampleContext(): Context {
    Context("POST", Some(Url("https", Some("example.com"), None, "/token", None, None)), None, false, {0})
  }

  lemma SampleAdmitted(skew: nat, now: nat)
    requires 2 * WholeSecs(skew) <= U64_MAX && WholeSecs(now) <= 2 * WholeSecs(skew)
    ensures Admit(SampleProof(skew), SampleContext(), skew, now) == Ok(ValidatedProof(1, SampleProof(skew).claims))
  {
  }

  lemma AdmittedClears(skew: nat, delay: nat, s: State, id: nat, proof: Proof, ctx: Context, v: ValidatedProof)
    requires id !in s.flights && Admit(proof, ctx, skew, s.now) == Ok(v) && !NonceNeeded(v, ctx)
    ensures var t := Apply(skew, delay, Apply(skew, delay, s, Arrive(id, proof, ctx)), CheckNonce(id, 0));
            t == s.(flights := s.flights[id := Cleared(v, ctx, s.now, s.now)])
  {
  }

  lemma ClearedIsRecorded(skew: nat, delay: nat, s: State, id: nat, recordAt: nat)
    requires id in s.flights && s.flights[id].Cleared? && s.flights[id].ctx.token.None?
    requires s.now <= recordAt <= s.flights[id].checkedAt + delay
    requires !Live(s.caches.jtis, JtiTtl(skew), s.flights[id].v.claims.jti, recordAt)
    ensures var (f, t) := (s.flights[id], Apply(skew, delay, Apply(skew, delay, s, Tick(recordAt)), Record(id)));
            && t.accepted == s.accepted + [Acceptance(f.v, f.ctx, f.checkedAt, f.clearedAt, recordAt)]
            && t.now == recordAt && t.flights == s.flights - {id}
            && t.caches.jtis == s.caches.jtis[f.v.claims.jti := Entry(true, recordAt)]
  {
  }

  /** One validation of the sample proof, from its arrival now to its record at `recordAt`. */
  lemma OneAcceptance(skew: nat, delay: nat, steps: seq<Step>, id: nat, recordAt: nat) returns (steps': seq<Step>)
    requires 2 * WholeSecs(skew) <= U64_MAX
    requires var s := Run(skew, delay, steps);
             && id !in s.flights && WholeSecs(s.now) <= 2 * WholeSecs(skew)
             && s.now <= recordAt <= s.now + delay && !Live(s.caches.jtis, JtiTtl(skew), 5, recordAt)
    ensures var (s, t) := (Run(skew, delay, steps), Run(skew, delay, steps'));
            && |t.accepted| == |s.accepted| + 1 && s.accepted <= t.accepted
            && t.accepted[|s.accepted|].v == ValidatedProof(1, SampleProof(skew).claims)
            && t.now == recordAt && id !in t.flights && t.flights.Keys <= s.flights.Keys
            && t.caches.jtis == s.caches.jtis[5 := Entry(true, recordAt)]
  {
    var s := Run(skew, delay, steps);
    var (proof, ctx) := (SampleProof(skew), SampleContext());
    SampleAdmitted(skew, s.now);
    AdmittedClears(skew, delay, s, id, proof, ctx, ValidatedProof(1, proof.claims));
    RunExtend(skew, delay, steps, Arrive(id, proof, ctx));
    steps' := steps + [Arrive(id, proof, ctx)];
    RunExtend(skew, delay, steps', CheckNonce(id, 0));
    steps' := steps' + [CheckNonce(id, 0)];
    ClearedIsRecorded(skew, delay, Run(skew, delay, steps'), id, recordAt);
    RunExtend(skew, delay, steps', Tick(recordAt));
    steps' := steps' + [Tick(recordAt)];
    RunExtend(skew, delay, steps', Record(id));
    steps' := steps' + [Record(id)];
  }

  /** With any longer delay some run accepts one proof twice. */
  lemma DelayBeyondBuffer(skew: nat, delay: nat)
    requires 2 * WholeSecs(skew) <= U64_MAX && delay > 4 * SEC + 2 * (skew % SEC)
    ensures !ReplayFree(skew, delay)
  {
    var first := OneAcceptance(skew, delay, [], 1, 0);
    var late := WindowSpan(skew) - 1;
    RunExtend(skew, delay, first, Tick(late));
    assert late / SEC == 2 * WholeSecs(skew);
    assert skew == WholeSecs(skew) * SEC + skew % SEC;
    var steps := OneAcceptance(skew, delay, first + [Tick(late)], 2, JtiTtl(skew));
    var accepted := Run(skew, delay, steps).accepted;
    assert |accepted| == 2 && accepted[0].v == accepted[1].v;
  }

  /**
   Proofs are replay-free exactly when every validation records its `jti` at most 4 seconds, plus twice
   the fraction of a second that the window drops from the skew, after it read the clock.
   */
  lemma ProofReplayFreeIff(skew: nat, delay: nat)
    requires 2 * WholeSecs(skew) <= U64_MAX
    ensures ReplayFree(skew, delay) <==> delay <= 4 * SEC + 2 * (skew % SEC)
  {
    if delay <= 4 * SEC + 2 * (skew % SEC) {
      DelayWithinBuffer(skew, delay);
    } else {
      DelayBeyondBuffer(skew, delay);
    }
  }

  // ----- Nonces -----

  ghost predicate RecentlyIssued(challenges: seq<Challenge>, nonce: Uuid, now: nat) {
    exists k :: 0 <= k < |challenges| && challenges[k].nonce == nonce
                && challenges[k].at <= now < challenges[k].at + NONCE_TTL
  }

  predicate NonceNeeded(v: ValidatedProof, ctx: Context) {
    ctx.nonceRequired || v.claims.nonce.Some?
  }

  ghost predicate NonceProven(challenges: seq<Challenge>, v: ValidatedProof, ctx: Context, clearedAt: nat) {
    NonceNeeded(v, ctx) ==> v.claims.nonce.Some? && RecentlyIssued(challenges, v.claims.nonce.value, clearedAt)
  }

  ghost predicate NonceInv(s: State) {
    && (forall n :: n in s.caches.nonces ==> s.caches.nonces[n].at <= s.now)
    && (forall n :: n in s.caches.nonces ==>
          exists k :: 0 <= k < |s.challenges| && s.challenges[k] == Challenge(n, s.caches.nonces[n].at))
    && (forall id :: id in s.flights && s.flights[id].Cleared?
          ==> NonceProven(s.challenges, s.flights[id].v, s.flights[id].ctx, s.flights[id].clearedAt))
    && (forall i :: 0 <= i < |s.accepted|
          ==> NonceProven(s.challenges, s.accepted[i].v, s.accepted[i].ctx, s.accepted[i].clearedAt))
  }

  lemma ChallengeKeepsNonceInv(s: State, id: nat, newNonce: Uuid)
    requires NonceInv(s)
    ensures NonceInv(ApplyCheckNonce(s, id, newNonce))
  {
    var t := ApplyCheckNonce(s, id, newNonce);
    if t.challenges != s.challenges {
      assert t.challenges[|s.challenges|] == Challenge(newNonce, s.now);
      forall n | n in t.caches.nonces
        ensures exists k :: 0 <= k < |t.challenges| && t.challenges[k] == Challenge(n, t.caches.nonces[n].at)
      {
        if n != newNonce {
          var k :| 0 <= k < |s.challenges| && s.challenges[k] == Challenge(n, s.caches.nonces[n].at);
          assert t.challenges[k] == s.challenges[k];
        }
      }
      forall v, ctx, at: nat | NonceProven(s.challenges, v, ctx, at)
        ensures NonceProven(t.challenges, v, ctx, at)
      {
        if NonceNeeded(v, ctx) {
          var k :| 0 <= k < |s.challenges| && s.challenges[k].nonce == v.claims.nonce.value
                   && s.challenges[k].at <= at < s.challenges[k].at + NONCE_TTL;
          assert t.challenges[k] == s.challenges[k];
        }
      }
    }
  }

  lemma {:induction false} RunKeepsNonceInv(skew: nat, delay: nat, steps: seq<Step>)
    ensures NonceInv(Run(skew, delay, steps))
  {
    if steps != [] {
      var (s, step) := (Run(skew, delay, steps[..|steps| - 1]), steps[|steps| - 1]);
      RunKeepsNonceInv(skew, delay, steps[..|steps| - 1]);
      if step.CheckNonce? { ChallengeKeepsNonceInv(s, step.id, step.newNonce); }
    }
  }

  /**
   An accepted proof that carried or needed a nonce carried one this server issued less than 300 s before the
   nonce check.
   */
  lemma NonceSoundness(skew: nat, delay: nat, steps: seq<Step>, i: nat)
    requires i < |Run(skew, delay, steps).accepted|
    requires var a := Run(skew, delay, steps).accepted[i]; a.ctx.nonceRequired || a.v.claims.nonce.Some?
    ensures var (s, a) := (Run(skew, delay, steps), Run(skew, delay, steps).accepted[i]);
            a.v.claims.nonce.Some? && RecentlyIssued(s.challenges, a.v.claims.nonce.value, a.clearedAt)
  {
    RunKeepsNonceInv(skew, delay, steps);
  }

  ghost predicate ChallengesRemembered(s: State) {
    forall k :: 0 <= k < |s.challenges| ==>
      && s.challenges[k].nonce in s.caches.nonces
      && s.challenges[k].at <= s.caches.nonces[s.challenges[k].nonce].at <= s.now
  }

  /** Without eviction every issued nonce is still in the cache, at least as young as its challenge. */
  lemma {:induction false} NonceRemembered(skew: nat, delay: nat, steps: seq<Step>, k: nat)
    requires forall i :: 0 <= i < |steps| ==> !steps[i].EvictNonce?
    requires k < |Run(skew, delay, steps).challenges|
    ensures var s := Run(skew, delay, steps);
            s.now < s.challenges[k].at + NONCE_TTL ==> Live(s.caches.nonces, NONCE_TTL, s.challenges[k].nonce, s.now)
  {
    RunRemembersChallenges(skew, delay, steps);
  }

  lemma {:induction false} RunRemembersChallenges(skew: nat, delay: nat, steps: seq<Step>)
    requires forall i :: 0 <= i < |steps| ==> !steps[i].EvictNonce?
    ensures ChallengesRemembered(Run(skew, delay, steps))
  {
    if steps != [] {
      RunRemembersChallenges(skew, delay, steps[..|steps| - 1]);
    }
  }
}
