/**
 The life of a TOTP code under `verify_totp_once` (section 5.2 of RFC 6238): any number of
 verifications in flight, each stopping between its clock reading and the replay cache. The entry
 lifetime and the longest delay between the two are parameters.
 */
module TotpReplay {
  import opened Wrappers
  import opened Clock
  import opened TtlCaches
  import opened AccessTokens
  import opened ReplayGuard
  import opened RecoveryCodes
  import opened TotpService

  datatype Attempt = Attempt(user: Uuid, secret: TotpSecret, code: string, checkedAt: nat)

  datatype Acceptance = Acceptance(attempt: Attempt, recordedAt: nat)

  datatype State = State(now: nat, replay: map<ReplayKey, Entry<bool>>, flights: map<nat, Attempt>,
                         accepted: seq<Acceptance>)

  datatype Step =
    | Tick(to: nat)
    | Submit(id: nat, user: Uuid, secret: TotpSecret, code: string)
    | Record(id: nat)
    | Drop(id: nat)

  datatype Setting = Setting(hotp: Hotp, ttl: nat, delay: nat)

  const Init: State := State(0, map[], map[], [])

  function KeyOf(a: Attempt): ReplayKey {
    ReplayKey(a.user, Trim(a.code))
  }

  function Apply(env: Setting, s: State, step: Step): State {
    match step
    case Tick(to) => if s.now <= to then s.(now := to) else s
    case Submit(id, user, secret, code) =>
      if id in s.flights || !VerifyCode(env.hotp, secret, code, s.now) then s
      else s.(flights := s.flights[id := Attempt(user, secret, code, s.now)])
    case Record(id) =>
      if !(id in s.flights && s.now <= s.flights[id].checkedAt + env.delay) then s
      else
        var a := s.flights[id];
        if Live(s.replay, env.ttl, KeyOf(a), s.now) then s.(flights := s.flights - {id})
        else s.(flights := s.flights - {id}, replay := s.replay[KeyOf(a) := Entry(true, s.now)],
                accepted := s.accepted + [Acceptance(a, s.now)])
    case Drop(id) => s.(flights := s.flights - {id})
  }

  function Run(env: Setting, steps: seq<Step>): State {
    if steps == [] then Init else Apply(env, Run(env, steps[..|steps| - 1]), steps[|steps| - 1])
  }

  /** The code of attempt `a` is the one of time step `k`, which is at most one step from its clock reading. */
  predicate Matches(hotp: Hotp, a: Attempt, k: nat) {
    hotp(a.secret, k) == Trim(a.code)
    && k <= a.checkedAt / 30_000_000_000 + 1 && a.checkedAt / 30_000_000_000 <= k + 1
  }

  /** Verification succeeds iff some step matches. */
  lemma VerifiedIffMatches(hotp: Hotp, a: Attempt)
    ensures VerifyCode(hotp, a.secret, a.code, a.checkedAt) <==> exists k: nat :: Matches(hotp, a, k)
  {
    var c := a.checkedAt / STEP;
    if VerifyCode(hotp, a.secret, a.code, a.checkedAt) {
      assert Matches(hotp, a, c) || Matches(hotp, a, c + 1) || (c > 0 && Matches(hotp, a, c - 1));
    }
  }

  /** A submission recorded at once is the TOTP path of the service's `Verify`: same replay cache, same verdict. */
  lemma AtOnceIsVerify(hotp: Hotp, delay: nat, s: State, totp: Totp, id: nat, u: Uuid, code: string)
    requires id !in s.flights && s.replay == totp.replay && !IsRecoveryCode(code)
    requires Present(totp, u) && totp.users[u].enabled && totp.users[u].secret.Some?
    ensures var env := Setting(hotp, 90_000_000_000, delay);
            var (secret, (totp', reply)) := (totp.users[u].secret.value, Verify(hotp, totp, u, s.now, code));
            var t := Apply(env, Apply(env, s, Submit(id, u, secret, code)), Record(id));
            && t.replay == totp'.replay
            && var a := Acceptance(Attempt(u, secret, code, s.now), s.now);
               t.accepted == s.accepted + if reply == Verified(TotpCode) then [a] else []
  {
  }

  /** Each time step of a user's secret accounts for at most one acceptance, even when steps share digits. */
  ghost predicate SingleUse(env: Setting) {
    forall steps, i, j, k: nat :: 0 <= i < j < |Run(env, steps).accepted| ==>
      var a, b := Run(env, steps).accepted[i].attempt, Run(env, steps).accepted[j].attempt;
      !(a.user == b.user && a.secret == b.secret && Matches(env.hotp, a, k) && Matches(env.hotp, b, k))
  }

  function Uses(accepted: seq<Acceptance>): seq<Use<ReplayKey>> {
    seq(|accepted|, i requires 0 <= i < |accepted| => Use(KeyOf(accepted[i].attempt), accepted[i].recordedAt))
  }

  ghost predicate Inv(env: Setting, s: State) {
    && (forall id :: id in s.flights ==> s.flights[id].checkedAt <= s.now)
    && (forall i :: 0 <= i < |s.accepted| ==>
          s.accepted[i].attempt.checkedAt <= s.accepted[i].recordedAt <= s.accepted[i].attempt.checkedAt + env.delay)
    && GuardOk(s.replay, env.ttl, Uses(s.accepted), s.now)
  }

  lemma RecordKeepsInv(env: Setting, s: State, id: nat)
    requires Inv(env, s)
    ensures Inv(env, Apply(env, s, Record(id)))
  {
    var t := Apply(env, s, Record(id));
    if t.accepted != s.accepted {
      var key := KeyOf(s.flights[id]);
      GuardedUse(s.replay, env.ttl, Uses(s.accepted), key, true, s.now);
      assert Uses(t.accepted) == Uses(s.accepted) + [Use(key, s.now)];
    }
  }

  lemma {:induction false} RunKeepsInv(env: Setting, steps: seq<Step>)
    ensures Inv(env, Run(env, steps))
  {
    if steps != [] {
      var (s, step) := (Run(env, steps[..|steps| - 1]), steps[|steps| - 1]);
      RunKeepsInv(env, steps[..|steps| - 1]);
      if step.Record? { RecordKeepsInv(env, s, step.id); }
    }
  }

  lemma LongEnough(env: Setting)
    requires 90_000_000_000 + env.delay <= env.ttl
    ensures SingleUse(env)
  {
    forall steps, i, j, k: nat | 0 <= i < j < |Run(env, steps).accepted|
      ensures var a, b := Run(env, steps).accepted[i].attempt, Run(env, steps).accepted[j].attempt;
              !(a.user == b.user && a.secret == b.secret && Matches(env.hotp, a, k) && Matches(env.hotp, b, k))
    {
      RunKeepsInv(env, steps);
      var accepted := Run(env, steps).accepted;
      var uses := Uses(accepted);
      assert uses[i].key == uses[j].key ==> uses[i].recorded + env.ttl <= uses[j].recorded;
    }
  }

  lemma RunExtend(env: Setting, steps: seq<Step>, step: Step)
    ensures Run(env, steps + [step]) == Apply(env, Run(env, steps), step)
  {
  }

  /** One submission of the code of step 1, recorded at `recordAt`. */
  lemma OneAcceptance(env: Setting, steps: seq<Step>, id: nat, recordAt: nat) returns (steps': seq<Step>)
    requires Trim(env.hotp(0, 1)) == env.hotp(0, 1)
    requires var s := Run(env, steps);
             && id !in s.flights && s.now < 3 * STEP && s.now <= recordAt <= s.now + env.delay
             && !Live(s.replay, env.ttl, ReplayKey(0, env.hotp(0, 1)), recordAt)
    ensures var (s, t) := (Run(env, steps), Run(env, steps'));
            var a := Attempt(0, 0, env.hotp(0, 1), s.now);
            && t.accepted == s.accepted + [Acceptance(a, recordAt)] && Matches(env.hotp, a, 1)
            && t.now == recordAt && t.flights.Keys <= s.flights.Keys
            && t.replay == s.replay[ReplayKey(0, env.hotp(0, 1)) := Entry(true, recordAt)]
  {
    var s := Run(env, steps);
    var a := Attempt(0, 0, env.hotp(0, 1), s.now);
    assert Matches(env.hotp, a, 1);
    VerifiedIffMatches(env.hotp, a);
    RunExtend(env, steps, Submit(id, 0, 0, env.hotp(0, 1)));
    steps' := steps + [Submit(id, 0, 0, env.hotp(0, 1))];
    RunExtend(env, steps', Tick(recordAt));
    steps' := steps' + [Tick(recordAt)];
    RunExtend(env, steps', Record(id));
    steps' := steps' + [Record(id)];
  }

  lemma TooShort(env: Setting)
    requires env.ttl < 90_000_000_000 + env.delay && Trim(env.hotp(0, 1)) == env.hotp(0, 1)
    ensures !SingleUse(env)
  {
    var first := OneAcceptance(env, [], 1, 0);
    var late := if env.ttl < 3 * STEP then env.ttl else 3 * STEP - 1;
    RunExtend(env, first, Tick(late));
    var steps := OneAcceptance(env, first + [Tick(late)], 2, env.ttl);
    var accepted := Run(env, steps).accepted;
    assert |accepted| == 2 && Matches(env.hotp, accepted[0].attempt, 1) && Matches(env.hotp, accepted[1].attempt, 1);
  }

  /**
   Codes are single-use per time step exactly when entries live for the three steps of the acceptance
   window plus the longest delay. No shorter lifetime would do.
   */
  lemma SingleUseIff(env: Setting)
    requires Trim(env.hotp(0, 1)) == env.hotp(0, 1)
    ensures SingleUse(env) <==> 90_000_000_000 + env.delay <= env.ttl
  {
    if 90_000_000_000 + env.delay <= env.ttl {
      LongEnough(env);
    } else {
      TooShort(env);
    }
  }

  /**
   The 90 seconds of the replay cache are exactly enough for a verification that records at once, and for no
   other.
   */
  lemma NinetySecondsIff(hotp: Hotp, delay: nat)
    requires Trim(hotp(0, 1)) == hotp(0, 1)
    ensures SingleUse(Setting(hotp, 90_000_000_000, delay)) <==> delay == 0
  {
    SingleUseIff(Setting(hotp, 90_000_000_000, delay));
  }
}
