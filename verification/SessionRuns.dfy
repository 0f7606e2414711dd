/**
 Whole runs of the token service together with the resource server: who can still use a session,
 for whom, and until when. Transactions are atomic steps of one monotone clock; `delay` is the longest
 time one of them takes from its first clock reading to its second.
 */
module SessionRuns {
  import opened Wrappers
  import opened Clock
  import opened TtlCaches
  import opened AccessTokens
  import opened RefreshTokens
  import opened AuthService
  import Dpop = DpopProofs

  /** What a login fixed for its family, and the instant `at` from which the family's life counts. */
  datatype Origin = Origin(user: Uuid, publicId: Uuid, jkt: Thumbprint, at: nat, expiresAt: nat)

  /**
   One issued pair: its family, the instant, the token it replaces (None for a login's), and whether the
   row of its refresh token was committed.
   */
  datatype Mint = Mint(pair: Pair, fam: Uuid, at: nat, replaced: Option<Digest>, stored: bool)

  /**
   An accepted resource request: the token, the key that signed the proof, the instant of the token's expiry
   check.
   */
  datatype Access = Access(token: AccessToken, key: Thumbprint, at: nat)

  /** `origins`, `mints`, `accesses` and `revoked` (the first reuse detection of a family) are history. */
  datatype System = System(
    now: nat,
    store: Store,
    origins: map<Uuid, Origin>,
    mints: seq<Mint>,
    accesses: seq<Access>,
    revoked: map<Uuid, nat>)

  datatype Op =
    | Wait(to: nat)
    | AddUser(user: Uuid, publicId: Uuid)
    | DeleteUser(user: Uuid)
    | Login(user: Uuid, jkt: Thumbprint, fam: Uuid, choice: Choice, took: nat)
    | Refresh(secret: Secret, jkt: Thumbprint, choice: Choice, commits: bool, took: nat)
    | Logout(secret: Secret)
    | Evict(entry: GraceKey)
    | Request(token: AccessToken, key: Thumbprint)

  const Init: System := System(0, Store(map[], map[], map[]), map[], [], [], map[])

  predicate Issued(sys: System, token: AccessToken) {
    exists i | 0 <= i < |sys.mints| :: sys.mints[i].pair.access == token
  }

  /**
   The middleware's verdict on a request whose proof verified under `key`: a token this server signed,
   not expired within the skew, bound to that key.
   */
  predicate Authenticated(cfg: Config, sys: System, token: AccessToken, key: Thumbprint) {
    Issued(sys, token) && Unexpired(token, cfg.skew, sys.now) && token.jkt == key
  }

  function IssuedTokens(sys: System): set<AccessToken> {
    set i | 0 <= i < |sys.mints| :: sys.mints[i].pair.access
  }

  /**
   A request gets a session of the middleware iff its proof validates for the token, under a key for which it
   is authenticated.
   */
  lemma AuthenticatedIffSession(cfg: Config, sys: System, c: Dpop.Caches, token: AccessToken, proof: Dpop.Proof,
                                ctx: Dpop.Context, at: Dpop.Instants, newNonce: Uuid)
    ensures var v := Dpop.Validate(c, cfg.skew, proof, ctx.(token := Some(token)), at, newNonce).1;
            Dpop.Session(c, cfg.skew, IssuedTokens(sys), token, proof, ctx, sys.now, at, newNonce).1.Ok?
            <==> v.Ok? && Authenticated(cfg, sys, token, v.value.key)
  {
  }

  function Times(sys: System, took: nat): Timing {
    Timing(sys.now, sys.now + took)
  }

  /** A family id is a fresh UUID, so a login never lands in a family that exists. */
  function ApplyLogin(cfg: Config, delay: nat, sys: System, user: Uuid, jkt: Thumbprint, fam: Uuid, choice: Choice,
                      took: nat): System {
    var (store, answer) := LoginTx(cfg, sys.store, Times(sys, took), user, jkt, fam, choice);
    if took > delay || fam in sys.origins || answer.Err? then sys
    else sys.(
      now := sys.now + took,
      store := store,
      origins := sys.origins[fam := Origin(user, sys.store.users[user].publicId, jkt, sys.now,
                                           store.rows[Sha256(choice.secret)].expiresAt)],
      mints := sys.mints + [Mint(answer.value, fam, sys.now + took, None, true)])
  }

  /** A pair is issued whenever the successor was inserted, whether or not the commit then succeeds. */
  function ApplyRefresh(cfg: Config, delay: nat, sys: System, secret: Secret, jkt: Thumbprint, choice: Choice,
                        commits: bool, took: nat)
    : System
  {
    var (s, h, at) := (sys.store, Sha256(secret), Times(sys, took));
    var (store, _) := RefreshTx(cfg, s, at, secret, jkt, choice, commits);
    var t := sys.(now := at.acted, store := store);
    if took > delay then sys
    else if CanRotate(s, at.checked, h, jkt) && Sha256(choice.secret) !in s.rows then
      var pair := NewPair(cfg, s.users[s.rows[h].user].publicId, jkt, choice, at.acted);
      t.(mints := sys.mints + [Mint(pair, s.rows[h].fam, at.acted, Some(h), commits)])
    else if !CanRotate(s, at.checked, h, jkt) && ReuseDetected(cfg, s, at.acted, h) && commits
            && s.rows[h].fam !in sys.revoked then
      t.(revoked := sys.revoked[s.rows[h].fam := at.acted])
    else t
  }

  function Apply(cfg: Config, delay: nat, sys: System, op: Op): System {
    match op
    case Wait(to) => if sys.now <= to then sys.(now := to) else sys
    case AddUser(user, publicId) =>
      if user in sys.store.users then sys
      else sys.(store := sys.store.(users := sys.store.users[user := User(publicId, false)]))
    case DeleteUser(user) =>
      if user !in sys.store.users then sys
      else sys.(store := sys.store.(users := sys.store.users[user := sys.store.users[user].(deleted := true)]))
    case Login(user, jkt, fam, choice, took) => ApplyLogin(cfg, delay, sys, user, jkt, fam, choice, took)
    case Refresh(secret, jkt, choice, commits, took) =>
      ApplyRefresh(cfg, delay, sys, secret, jkt, choice, commits, took)
    case Logout(secret) =>
      sys.(store := sys.store.(rows := RevokeWhere(sys.store.rows, {Sha256(secret)}, sys.now)))
    case Evict(key) => sys.(store := sys.store.(grace := sys.store.grace - {key}))
    case Request(token, key) =>
      if Authenticated(cfg, sys, token, key) then sys.(accesses := sys.accesses + [Access(token, key, sys.now)])
      else sys
  }

  /** The system after `ops`, starting from `sys`. */
  function RunFrom(cfg: Config, delay: nat, sys: System, ops: seq<Op>): System {
    if ops == [] then sys
    else Apply(cfg, delay, RunFrom(cfg, delay, sys, ops[..|ops| - 1]), ops[|ops| - 1])
  }

  // ----- Invariants -----

  predicate RowOk(sys: System, row: Row) {
    && row.fam in sys.origins
    && var o := sys.origins[row.fam]; row.user == o.user && row.jkt == o.jkt && row.expiresAt == o.expiresAt
  }

  /**
   A token's session is its family's; it is issued before the family's end of life but for the delay; a
   stored row stays.
   */
  predicate MintOk(cfg: Config, delay: nat, sys: System, m: Mint) {
    && m.fam in sys.origins
    && (m.stored ==> Sha256(m.pair.refresh) in sys.store.rows && sys.store.rows[Sha256(m.pair.refresh)].fam == m.fam)
    && var (o, token) := (sys.origins[m.fam], m.pair.access);
       && token.sub == o.publicId && token.jkt == o.jkt
       && token.exp == SaturatingAdd(WholeSecs(m.at), WholeSecs(cfg.accessTtl))
       && m.at <= sys.now && m.at + Gap(cfg) <= o.expiresAt + delay + 1
  }

  /** Nothing is checked in the very instant of the end of life, unless that is the login's own. */
  function Gap(cfg: Config): nat {
    if cfg.refreshTtl >= SEC then 2 else 1
  }

  /** A cached pair was issued for the key's family when it was cached. */
  ghost predicate EntryOk(sys: System, key: GraceKey, e: Entry<Pair>) {
    e.at <= sys.now && exists i :: 0 <= i < |sys.mints| && IsMintFor(sys.mints[i], e, key)
  }

  predicate IsMintFor(m: Mint, e: Entry<Pair>, key: GraceKey) {
    m.pair == e.value && m.fam == key.fam && m.at == e.at && m.replaced == Some(key.replaced)
  }

  predicate OriginOk(cfg: Config, sys: System, o: Origin) {
    && o.user in sys.store.users && sys.store.users[o.user].publicId == o.publicId
    && o.at <= sys.now && o.expiresAt == o.at + (cfg.refreshTtl / 1_000_000_000) * 1_000_000_000
  }

  ghost predicate AccessOk(cfg: Config, sys: System, a: Access) {
    && a.at <= sys.now && Unexpired(a.token, cfg.skew, a.at) && a.token.jkt == a.key
    && exists i :: 0 <= i < |sys.mints| && sys.mints[i].pair.access == a.token
  }

  ghost predicate ProvenanceOk(cfg: Config, delay: nat, sys: System) {
    && (forall h :: h in sys.store.rows ==> RowOk(sys, sys.store.rows[h]))
    && (forall fam :: fam in sys.origins ==> OriginOk(cfg, sys, sys.origins[fam]))
    && (forall i :: 0 <= i < |sys.mints| ==> MintOk(cfg, delay, sys, sys.mints[i]))
    && (forall key :: key in sys.store.grace ==> EntryOk(sys, key, sys.store.grace[key]))
    && (forall i :: 0 <= i < |sys.accesses| ==> AccessOk(cfg, sys, sys.accesses[i]))
  }

  /** After the reuse detection at `t`: no active row, nothing cached and nothing issued for the family since. */
  ghost predicate FamilyDead(sys: System, fam: Uuid, t: nat) {
    && t <= sys.now && fam in sys.origins
    && (forall h :: h in sys.store.rows && sys.store.rows[h].fam == fam ==> sys.store.rows[h].revokedAt.Some?)
    && (forall key :: key in sys.store.grace && key.fam == fam ==> sys.store.grace[key].at <= t)
    && (forall i :: 0 <= i < |sys.mints| && sys.mints[i].fam == fam ==> sys.mints[i].at <= t)
  }

  ghost predicate RevokedOk(sys: System) {
    forall fam :: fam in sys.revoked ==> FamilyDead(sys, fam, sys.revoked[fam])
  }

  /** New mints, new origins, new rows and a later clock keep what was known of rows, mints, entries and accesses. */
  lemma GrowthKeeps(cfg: Config, delay: nat, sys: System, t: System)
    requires ProvenanceOk(cfg, delay, sys) && sys.now <= t.now && sys.mints <= t.mints
             && t.store.users == sys.store.users
    requires forall fam :: fam in sys.origins ==> fam in t.origins && t.origins[fam] == sys.origins[fam]
    requires OnlyRevokes(sys.store.rows, t.store.rows)
    ensures forall h :: h in sys.store.rows ==> RowOk(t, sys.store.rows[h])
    ensures forall fam :: fam in sys.origins ==> OriginOk(cfg, t, sys.origins[fam])
    ensures forall i :: 0 <= i < |sys.mints| ==> MintOk(cfg, delay, t, sys.mints[i])
    ensures forall key :: key in sys.store.grace ==> EntryOk(t, key, sys.store.grace[key])
    ensures forall i :: 0 <= i < |sys.accesses| ==> AccessOk(cfg, t, sys.accesses[i])
  {
  }

  lemma LoginKeepsProvenance(cfg: Config, delay: nat, sys: System, op: Op)
    requires ProvenanceOk(cfg, delay, sys) && op.Login?
    ensures ProvenanceOk(cfg, delay, Apply(cfg, delay, sys, op))
  {
    var t := Apply(cfg, delay, sys, op);
    GrowthKeeps(cfg, delay, sys, t);
    if t != sys {
      assert MintOk(cfg, delay, t, t.mints[|sys.mints|]);
    }
  }

  /** A rotation passes on its family's session. */
  lemma RotationKeepsProvenance(cfg: Config, delay: nat, sys: System, op: Op)
    requires ProvenanceOk(cfg, delay, sys) && op.Refresh? && op.took <= delay
    requires CanRotate(sys.store, sys.now, Sha256(op.secret), op.jkt) && Sha256(op.choice.secret) !in sys.store.rows
    ensures ProvenanceOk(cfg, delay, Apply(cfg, delay, sys, op))
  {
    var t := Apply(cfg, delay, sys, op);
    var h := Sha256(op.secret);
    GrowthKeeps(cfg, delay, sys, t);
    var row := sys.store.rows[h];
    assert RowOk(sys, row) && OriginOk(cfg, sys, sys.origins[row.fam]);
    assert MintOk(cfg, delay, t, t.mints[|sys.mints|]);
    var key := GraceKey(row.fam, h);
    assert EntryOk(t, key, t.store.grace[key]) by {
      assert IsMintFor(t.mints[|sys.mints|], t.store.grace[key], key);
    }
  }

  /** Nothing issued, nothing cached, no row added: rows may only be revoked. */
  ghost predicate OnlyRevocations(sys: System, t: System) {
    && sys.now <= t.now && t.mints == sys.mints && t.origins == sys.origins && t.accesses == sys.accesses
    && t.store.users == sys.store.users && t.store.grace == sys.store.grace
    && t.store.rows.Keys == sys.store.rows.Keys && OnlyRevokes(sys.store.rows, t.store.rows)
  }

  lemma RevocationsKeepProvenance(cfg: Config, delay: nat, sys: System, t: System)
    requires ProvenanceOk(cfg, delay, sys) && OnlyRevocations(sys, t)
    ensures ProvenanceOk(cfg, delay, t)
  {
    GrowthKeeps(cfg, delay, sys, t);
  }

  lemma TxOnlyRevokes(cfg: Config, s: Store, at: Timing, op: Op)
    requires op.Refresh? && (!CanRotate(s, at.checked, Sha256(op.secret), op.jkt) || Sha256(op.choice.secret) in s.rows)
    ensures var t := RefreshTx(cfg, s, at, op.secret, op.jkt, op.choice, op.commits).0;
            t.users == s.users && t.grace == s.grace && t.rows.Keys == s.rows.Keys && OnlyRevokes(s.rows, t.rows)
  {
  }

  lemma OtherRefreshOnlyRevokes(cfg: Config, delay: nat, sys: System, op: Op)
    requires op.Refresh?
    requires !CanRotate(sys.store, sys.now, Sha256(op.secret), op.jkt) || Sha256(op.choice.secret) in sys.store.rows
    ensures OnlyRevocations(sys, Apply(cfg, delay, sys, op))
  {
    TxOnlyRevokes(cfg, sys.store, Times(sys, op.took), op);
  }

  lemma OtherKeepsProvenance(cfg: Config, delay: nat, sys: System, op: Op)
    requires ProvenanceOk(cfg, delay, sys) && !op.Login? && !op.Refresh?
    ensures ProvenanceOk(cfg, delay, Apply(cfg, delay, sys, op))
  {
    if !op.AddUser? && !op.DeleteUser? {
      GrowthKeeps(cfg, delay, sys, Apply(cfg, delay, sys, op));
    }
  }

  lemma StepKeepsProvenance(cfg: Config, delay: nat, sys: System, op: Op)
    requires ProvenanceOk(cfg, delay, sys)
    ensures ProvenanceOk(cfg, delay, Apply(cfg, delay, sys, op))
  {
    if op.Login? {
      LoginKeepsProvenance(cfg, delay, sys, op);
    } else if !op.Refresh? {
      OtherKeepsProvenance(cfg, delay, sys, op);
    } else if CanRotate(sys.store, sys.now, Sha256(op.secret), op.jkt) && Sha256(op.choice.secret) !in sys.store.rows {
      if op.took <= delay { RotationKeepsProvenance(cfg, delay, sys, op); }
    } else {
      OtherRefreshOnlyRevokes(cfg, delay, sys, op);
      RevocationsKeepProvenance(cfg, delay, sys, Apply(cfg, delay, sys, op));
    }
  }

  // ----- Dead families -----

  /** Only an active row can be rotated, so no refresh brings a dead family back or adds to it. */
  lemma RefreshKeepsDead(cfg: Config, delay: nat, sys: System, op: Op, fam: Uuid, t: nat)
    requires FamilyDead(sys, fam, t) && op.Refresh?
    ensures FamilyDead(Apply(cfg, delay, sys, op), fam, t)
    ensures Family(Apply(cfg, delay, sys, op).store.rows, fam) == Family(sys.store.rows, fam)
  {
    var h, s, u := Sha256(op.secret), sys.store, Apply(cfg, delay, sys, op);
    if CanRotate(s, sys.now, h, op.jkt) && Sha256(op.choice.secret) !in s.rows {
      assert s.rows[h].fam != fam;
      assert forall i :: 0 <= i < |u.mints| && u.mints[i].fam == fam ==> i < |sys.mints|;
    }
  }

  lemma StepKeepsDead(cfg: Config, delay: nat, sys: System, op: Op, fam: Uuid, t: nat)
    requires FamilyDead(sys, fam, t)
    ensures FamilyDead(Apply(cfg, delay, sys, op), fam, t)
    ensures Family(Apply(cfg, delay, sys, op).store.rows, fam) == Family(sys.store.rows, fam)
  {
    if op.Refresh? {
      RefreshKeepsDead(cfg, delay, sys, op, fam, t);
    } else if op.Login? {
      var u := Apply(cfg, delay, sys, op);
      assert forall i :: 0 <= i < |u.mints| && u.mints[i].fam == fam ==> i < |sys.mints|;
    }
  }

  lemma {:induction false} DeadStaysDead(cfg: Config, delay: nat, sys: System, ops: seq<Op>, fam: Uuid, t: nat)
    requires FamilyDead(sys, fam, t)
    ensures FamilyDead(RunFrom(cfg, delay, sys, ops), fam, t)
    ensures Family(RunFrom(cfg, delay, sys, ops).store.rows, fam) == Family(sys.store.rows, fam)
  {
    if ops != [] {
      var ops' := ops[..|ops| - 1];
      DeadStaysDead(cfg, delay, sys, ops', fam, t);
      StepKeepsDead(cfg, delay, RunFrom(cfg, delay, sys, ops'), ops[|ops| - 1], fam, t);
    }
  }

  /** The refresh of `op` detects reuse and commits the revocation of the family. */
  predicate Detects(cfg: Config, delay: nat, sys: System, op: Op) {
    && op.Refresh? && op.commits && op.took <= delay
    && ReuseDetected(cfg, sys.store, sys.now + op.took, Sha256(op.secret))
  }

  /** A committed reuse detection kills the family at that instant. */
  lemma ReuseKillsFamily(cfg: Config, delay: nat, sys: System, op: Op)
    requires ProvenanceOk(cfg, delay, sys) && Detects(cfg, delay, sys, op)
    ensures var fam := sys.store.rows[Sha256(op.secret)].fam;
            var t := Apply(cfg, delay, sys, op);
            && FamilyDead(t, fam, t.now) && t.now == sys.now + op.took
            && Family(t.store.rows, fam) == Family(sys.store.rows, fam)
  {
  }

  lemma StepKeepsRevoked(cfg: Config, delay: nat, sys: System, op: Op)
    requires ProvenanceOk(cfg, delay, sys) && RevokedOk(sys)
    ensures RevokedOk(Apply(cfg, delay, sys, op))
  {
    var t := Apply(cfg, delay, sys, op);
    forall fam | fam in t.revoked
      ensures FamilyDead(t, fam, t.revoked[fam])
    {
      if fam in sys.revoked {
        StepKeepsDead(cfg, delay, sys, op, fam, sys.revoked[fam]);
      } else {
        ReuseKillsFamily(cfg, delay, sys, op);
      }
    }
  }

  lemma {:induction false} RunKeepsInv(cfg: Config, delay: nat, ops: seq<Op>)
    ensures ProvenanceOk(cfg, delay, RunFrom(cfg, delay, Init, ops)) && RevokedOk(RunFrom(cfg, delay, Init, ops))
  {
    if ops != [] {
      var ops' := ops[..|ops| - 1];
      RunKeepsInv(cfg, delay, ops');
      StepKeepsProvenance(cfg, delay, RunFrom(cfg, delay, Init, ops'), ops[|ops| - 1]);
      StepKeepsRevoked(cfg, delay, RunFrom(cfg, delay, Init, ops'), ops[|ops| - 1]);
    }
  }

  // ----- Cached pairs and committed rotations -----

  /** A committed rotation of the token `h` is in the history. */
  ghost predicate WasRotated(sys: System, h: Digest) {
    exists k :: 0 <= k < |sys.mints| && sys.mints[k].stored && sys.mints[k].replaced == Some(h)
  }

  /** What is cached for a token is the pair of its committed rotation, if there was one, or else of a failed one. */
  ghost predicate CacheOk(sys: System, key: GraceKey, e: Entry<Pair>) {
    && key.replaced in sys.store.rows && sys.store.rows[key.replaced].fam == key.fam
    && exists i :: 0 <= i < |sys.mints| && IsMintFor(sys.mints[i], e, key)
                   && (sys.mints[i].stored <==> WasRotated(sys, key.replaced))
  }

  ghost predicate RotationsOk(sys: System) {
    && (forall k :: 0 <= k < |sys.mints| && sys.mints[k].stored && sys.mints[k].replaced.Some? ==>
          !Active(sys.store.rows, sys.mints[k].replaced.value))
    && (forall k :: 0 <= k < |sys.mints| && sys.mints[k].replaced.Some? ==>
         sys.mints[k].replaced.value in sys.store.rows)
    && (forall key :: key in sys.store.grace ==> CacheOk(sys, key, sys.store.grace[key]))
  }

  /** Nothing was issued but, at most, a login's pair; rows are kept; cached pairs at most dropped. */
  ghost predicate NoRotation(sys: System, t: System) {
    && OnlyRevokes(sys.store.rows, t.store.rows) && sys.mints <= t.mints
    && (forall k :: |sys.mints| <= k < |t.mints| ==> t.mints[k].replaced.None?)
    && (forall key :: key in t.store.grace ==> key in sys.store.grace && t.store.grace[key] == sys.store.grace[key])
  }

  lemma NoRotationKeepsCache(sys: System, t: System, key: GraceKey, e: Entry<Pair>)
    requires NoRotation(sys, t) && CacheOk(sys, key, e)
    ensures CacheOk(t, key, e)
  {
    var i :| 0 <= i < |sys.mints| && IsMintFor(sys.mints[i], e, key)
             && (sys.mints[i].stored <==> WasRotated(sys, key.replaced));
    assert t.mints[i] == sys.mints[i];
    assert WasRotated(t, key.replaced) <==> WasRotated(sys, key.replaced) by {
      if WasRotated(sys, key.replaced) {
        var k :| 0 <= k < |sys.mints| && sys.mints[k].stored && sys.mints[k].replaced == Some(key.replaced);
        assert t.mints[k] == sys.mints[k];
      }
    }
  }

  lemma NoRotationKeepsRotations(sys: System, t: System)
    requires NoRotation(sys, t) && RotationsOk(sys)
    ensures RotationsOk(t)
  {
    forall key | key in t.store.grace
      ensures CacheOk(t, key, t.store.grace[key])
    {
      NoRotationKeepsCache(sys, t, key, sys.store.grace[key]);
    }
  }

  lemma OtherStepIsNoRotation(cfg: Config, delay: nat, sys: System, op: Op)
    requires op.Refresh? ==> op.took > delay || !CanRotate(sys.store, sys.now, Sha256(op.secret), op.jkt)
                             || Sha256(op.choice.secret) in sys.store.rows
    ensures NoRotation(sys, Apply(cfg, delay, sys, op))
  {
    if op.Refresh? && op.took <= delay { OtherRefreshOnlyRevokes(cfg, delay, sys, op); }
  }

  /** A rotation attempt of the active token `h`, committed or not, replaces what was cached for it. */
  ghost predicate Rotation(sys: System, t: System, h: Digest, e: Entry<Pair>, stored: bool) {
    && Active(sys.store.rows, h) && OnlyRevokes(sys.store.rows, t.store.rows)
    && (stored ==> !Active(t.store.rows, h))
    && t.mints == sys.mints + [Mint(e.value, sys.store.rows[h].fam, e.at, Some(h), stored)]
    && t.store.grace == sys.store.grace[GraceKey(sys.store.rows[h].fam, h) := e]
  }

  lemma RotationKeepsCache(sys: System, t: System, h: Digest, e: Entry<Pair>, stored: bool, key: GraceKey)
    requires RotationsOk(sys) && Rotation(sys, t, h, e, stored) && key in t.store.grace
    ensures CacheOk(t, key, t.store.grace[key])
  {
    var n := |sys.mints|;
    if key == GraceKey(sys.store.rows[h].fam, h) {
      assert IsMintFor(t.mints[n], e, key);
      assert WasRotated(t, h) <==> stored by {
        if stored { assert t.mints[n].stored; }
      }
    } else {
      assert CacheOk(sys, key, sys.store.grace[key]) && key.replaced != h;
      var i :| 0 <= i < |sys.mints| && IsMintFor(sys.mints[i], sys.store.grace[key], key)
               && (sys.mints[i].stored <==> WasRotated(sys, key.replaced));
      assert t.mints[i] == sys.mints[i];
      assert WasRotated(t, key.replaced) <==> WasRotated(sys, key.replaced) by {
        if WasRotated(sys, key.replaced) {
          var k :| 0 <= k < |sys.mints| && sys.mints[k].stored && sys.mints[k].replaced == Some(key.replaced);
          assert t.mints[k] == sys.mints[k];
        }
      }
    }
  }

  lemma RotationKeepsRotations(sys: System, t: System, h: Digest, e: Entry<Pair>, stored: bool)
    requires RotationsOk(sys) && Rotation(sys, t, h, e, stored)
    ensures RotationsOk(t)
  {
    forall key | key in t.store.grace
      ensures CacheOk(t, key, t.store.grace[key])
    {
      RotationKeepsCache(sys, t, h, e, stored, key);
    }
  }

  lemma StepKeepsRotations(cfg: Config, delay: nat, sys: System, op: Op)
    requires RotationsOk(sys)
    ensures RotationsOk(Apply(cfg, delay, sys, op))
  {
    var t := Apply(cfg, delay, sys, op);
    if op.Refresh? && op.took <= delay && CanRotate(sys.store, sys.now, Sha256(op.secret), op.jkt)
       && Sha256(op.choice.secret) !in sys.store.rows {
      var h := Sha256(op.secret);
      var e := t.store.grace[GraceKey(sys.store.rows[h].fam, h)];
      RotationKeepsRotations(sys, t, h, e, op.commits);
    } else {
      OtherStepIsNoRotation(cfg, delay, sys, op);
      NoRotationKeepsRotations(sys, t);
    }
  }

  lemma {:induction false} RunKeepsRotations(cfg: Config, delay: nat, ops: seq<Op>)
    ensures RotationsOk(RunFrom(cfg, delay, Init, ops))
  {
    if ops != [] {
      RunKeepsRotations(cfg, delay, ops[..|ops| - 1]);
      StepKeepsRotations(cfg, delay, RunFrom(cfg, delay, Init, ops[..|ops| - 1]), ops[|ops| - 1]);
    }
  }

  // ----- Theorems over every run -----

  /**
   Whatever a refresh answers for a token, in any run, the whole pair was issued in one step for that
   token's own family, its user and its key. That step committed exactly when the token has been rotated
   by a step that committed; the refresh token of the pair is then a row of the family.
   */
  lemma {:induction false} AnswerProvenance(cfg: Config, delay: nat, ops: seq<Op>, op: Op) returns (i: nat)
    requires op.Refresh? && op.took <= delay
    requires var sys := RunFrom(cfg, delay, Init, ops);
             RefreshTx(cfg, sys.store, Times(sys, op.took), op.secret, op.jkt, op.choice, op.commits).1.Ok?
    ensures var (sys, t) := (RunFrom(cfg, delay, Init, ops), RunFrom(cfg, delay, Init, ops + [op]));
            var pair := RefreshTx(cfg, sys.store, Times(sys, op.took), op.secret, op.jkt, op.choice,
                op.commits).1.value;
            && i < |t.mints| && t.mints[i].pair == pair && Sha256(op.secret) in t.store.rows
            && var (fam, g) := (t.store.rows[Sha256(op.secret)].fam, Sha256(pair.refresh));
               && t.mints[i].fam == fam && fam in t.origins
               && pair.access.sub == t.origins[fam].publicId && pair.access.jkt == t.origins[fam].jkt
               && (t.mints[i].stored <==> WasRotated(t, Sha256(op.secret)))
               && (WasRotated(t, Sha256(op.secret)) ==> g in t.store.rows && t.store.rows[g].fam == fam)
  {
    var (sys, t) := (RunFrom(cfg, delay, Init, ops), RunFrom(cfg, delay, Init, ops + [op]));
    RunKeepsInv(cfg, delay, ops + [op]);
    RunKeepsRotations(cfg, delay, ops);
    RunExtend(cfg, delay, Init, ops, op);
    i := AnswerIsMint(cfg, delay, sys, op);
    assert MintOk(cfg, delay, t, t.mints[i]);
  }

  lemma AnswerIsMint(cfg: Config, delay: nat, sys: System, op: Op) returns (i: nat)
    requires RotationsOk(sys) && op.Refresh? && op.took <= delay
    requires RefreshTx(cfg, sys.store, Times(sys, op.took), op.secret, op.jkt, op.choice, op.commits).1.Ok?
    ensures var (h, t) := (Sha256(op.secret), Apply(cfg, delay, sys, op));
            && i < |t.mints| && h in sys.store.rows && h in t.store.rows
            && t.store.rows[h].fam == sys.store.rows[h].fam == t.mints[i].fam
            && (t.mints[i].stored <==> WasRotated(t, h))
            && t.mints[i].pair == RefreshTx(cfg, sys.store, Times(sys, op.took), op.secret, op.jkt, op.choice,
                 op.commits).1.value
  {
    var (h, t) := (Sha256(op.secret), Apply(cfg, delay, sys, op));
    if CanRotate(sys.store, sys.now, h, op.jkt) {
      i := |sys.mints|;
      assert t.mints[i].stored && t.mints[i].replaced == Some(h);
    } else {
      var key := GraceKey(sys.store.rows[h].fam, h);
      var e := sys.store.grace[key];
      assert CacheOk(sys, key, e);
      i :| i < |sys.mints| && IsMintFor(sys.mints[i], e, key) && (sys.mints[i].stored <==> WasRotated(sys, h));
      assert t.mints == sys.mints;
    }
  }

  /** The pair was issued for the family at `t` or before. */
  ghost predicate ReplaysBefore(u: System, pair: Pair, fam: Uuid, t: nat) {
    exists i :: 0 <= i < |u.mints| && u.mints[i].pair == pair && u.mints[i].fam == fam && u.mints[i].at <= t
  }

  /** In `u`, a refresh with a token of the family dead since `t` replays a pair issued by then, or is refused. */
  ghost predicate OnlyReplays(cfg: Config, u: System, fam: Uuid, t: nat) {
    forall g, at: Timing, jkt, choice, commits | Sha256(g) in Family(u.store.rows, fam)
        && u.now <= at.checked <= at.acted ::
      var answer := RefreshTx(cfg, u.store, at, g, jkt, choice, commits).1;
      && (answer.Ok? ==> ReplaysBefore(u, answer.value, fam, t))
      && (t + cfg.grace <= at.acted ==> answer == Err(if commits then Unauthorized else Internal))
  }

  lemma DeadOnlyReplays(cfg: Config, delay: nat, u: System, fam: Uuid, t: nat)
    requires ProvenanceOk(cfg, delay, u) && FamilyDead(u, fam, t)
    ensures OnlyReplays(cfg, u, fam, t)
  {
    forall g, at: Timing, jkt, choice, commits | Sha256(g) in Family(u.store.rows, fam)
        && u.now <= at.checked <= at.acted
      ensures var answer := RefreshTx(cfg, u.store, at, g, jkt, choice, commits).1;
              && (answer.Ok? ==> ReplaysBefore(u, answer.value, fam, t))
              && (t + cfg.grace <= at.acted ==> answer == Err(if commits then Unauthorized else Internal))
    {
      var key := GraceKey(fam, Sha256(g));
      if key in u.store.grace {
        assert EntryOk(u, key, u.store.grace[key]);
      }
    }
  }

  /**
   The life of a family, as a caller sees it in any run: an active token is rotated iff it is presented with the key
   of its login, before the login's instant plus the refresh lifetime in whole seconds, while the user of the
   login is there, with a new hash drawn and a commit that succeeds. Otherwise no row is added.
   */
  lemma {:induction false} RotatedIff(cfg: Config, delay: nat, ops: seq<Op>, op: Op)
    requires op.Refresh? && op.took <= delay
    requires Active(RunFrom(cfg, delay, Init, ops).store.rows, Sha256(op.secret))
    ensures var (sys, t) := (RunFrom(cfg, delay, Init, ops), RunFrom(cfg, delay, Init, ops + [op]));
            var (h, succ) := (Sha256(op.secret), Sha256(op.choice.secret));
            var fam := sys.store.rows[h].fam;
            && fam in sys.origins
            && var (o, users) := (sys.origins[fam], sys.store.users);
               && ((succ !in sys.store.rows && succ in t.store.rows && t.store.rows[h].revokedAt.Some?) <==>
                     && op.jkt == o.jkt && o.user in users && !users[o.user].deleted
                     && sys.now < o.at + (cfg.refreshTtl / 1_000_000_000) * 1_000_000_000
                     && succ !in sys.store.rows && op.commits)
               && (succ !in t.store.rows ==> t.store.rows == sys.store.rows)
  {
    var sys := RunFrom(cfg, delay, Init, ops);
    RunKeepsInv(cfg, delay, ops);
    RunExtend(cfg, delay, Init, ops, op);
    ActiveTokenLaw(cfg, sys.store, Times(sys, op.took), op.secret, op.jkt, op.choice, op.commits);
    var row := sys.store.rows[Sha256(op.secret)];
    assert RowOk(sys, row) && OriginOk(cfg, sys, sys.origins[row.fam]);
  }

  /** In any run, once a user is deleted neither a login of it nor a refresh of its active tokens does anything. */
  lemma {:induction false} DeletedUserIsRefused(cfg: Config, delay: nat, ops: seq<Op>, op: Op, user: Uuid)
    requires var sys := RunFrom(cfg, delay, Init, ops); user in sys.store.users && sys.store.users[user].deleted
    ensures var (sys, t) := (RunFrom(cfg, delay, Init, ops), RunFrom(cfg, delay, Init, ops + [op]));
            && user in t.store.users && t.store.users[user].deleted
            && (op.Login? && op.user == user ==> t == sys)
            && (op.Refresh? ==>
                  var h := Sha256(op.secret);
                  Active(sys.store.rows, h) && sys.store.rows[h].user == user ==>
                    && RefreshTx(cfg, sys.store, Times(sys, op.took), op.secret, op.jkt, op.choice, op.commits)
                       == (sys.store, Err(Unauthorized))
                    && t.store == sys.store && t.mints == sys.mints)
  {
    var sys := RunFrom(cfg, delay, Init, ops);
    RunExtend(cfg, delay, Init, ops, op);
    if op.Refresh? && Active(sys.store.rows, Sha256(op.secret)) {
      ActiveTokenLaw(cfg, sys.store, Times(sys, op.took), op.secret, op.jkt, op.choice, op.commits);
    }
    if op.Login? { LoginLaw(cfg, sys.store, Times(sys, op.took), op.user, op.jkt, op.fam, op.choice); }
  }

  /**
   After a reuse detection the family never has an active row again and never gains a row, in any
   continuation of any run. A refresh with one of its tokens, whoever sends it and whenever, is answered,
   if at all, with a pair issued before, and is refused once the grace period has passed.
   */
  lemma {:induction false} AfterReuse(cfg: Config, delay: nat, ops: seq<Op>, op: Op, later: seq<Op>)
    requires Detects(cfg, delay, RunFrom(cfg, delay, Init, ops), op)
    ensures var sys := RunFrom(cfg, delay, Init, ops);
            var (fam, detected) := (sys.store.rows[Sha256(op.secret)].fam, sys.now + op.took);
            var u := RunFrom(cfg, delay, Apply(cfg, delay, sys, op), later);
            && Family(u.store.rows, fam) == Family(sys.store.rows, fam)
            && (forall h :: h in Family(u.store.rows, fam) ==> !Active(u.store.rows, h))
            && OnlyReplays(cfg, u, fam, detected)
  {
    var sys := RunFrom(cfg, delay, Init, ops);
    var (fam, t) := (sys.store.rows[Sha256(op.secret)].fam, Apply(cfg, delay, sys, op));
    RunKeepsInv(cfg, delay, ops);
    ReuseKillsFamily(cfg, delay, sys, op);
    DeadStaysDead(cfg, delay, t, later, fam, t.now);
    StepKeepsProvenance(cfg, delay, sys, op);
    RunKeepsProvenance(cfg, delay, t, later);
    DeadOnlyReplays(cfg, delay, RunFrom(cfg, delay, t, later), fam, t.now);
  }

  lemma {:induction false} RunKeepsProvenance(cfg: Config, delay: nat, sys: System, ops: seq<Op>)
    requires ProvenanceOk(cfg, delay, sys)
    ensures ProvenanceOk(cfg, delay, RunFrom(cfg, delay, sys, ops))
  {
    if ops != [] {
      RunKeepsProvenance(cfg, delay, sys, ops[..|ops| - 1]);
      StepKeepsProvenance(cfg, delay, RunFrom(cfg, delay, sys, ops[..|ops| - 1]), ops[|ops| - 1]);
    }
  }

  /** Every accepted resource request goes back to one issuing step for the same user and the same key. */
  lemma {:induction false} SessionProvenance(cfg: Config, delay: nat, ops: seq<Op>, k: nat) returns (i: nat)
    requires k < |RunFrom(cfg, delay, Init, ops).accesses|
    ensures var sys := RunFrom(cfg, delay, Init, ops);
            var a := sys.accesses[k];
            && i < |sys.mints| && sys.mints[i].pair.access == a.token && sys.mints[i].fam in sys.origins
            && var o := sys.origins[sys.mints[i].fam]; a.token.sub == o.publicId && a.key == o.jkt
  {
    RunKeepsInv(cfg, delay, ops);
    var sys := RunFrom(cfg, delay, Init, ops);
    assert AccessOk(cfg, sys, sys.accesses[k]);
    i :| i < |sys.mints| && sys.mints[i].pair.access == sys.accesses[k].token;
    assert MintOk(cfg, delay, sys, sys.mints[i]);
  }

  /**
   No resource request is accepted on behalf of a family later than its original end of life, plus the
   delay of a refresh, plus access-token lifetime plus skew, nor later than its revocation plus lifetime
   plus skew; all in whole seconds.
   */
  lemma {:induction false} SessionBound(cfg: Config, delay: nat, ops: seq<Op>, k: nat, i: nat)
    requires var sys := RunFrom(cfg, delay, Init, ops);
             k < |sys.accesses| && i < |sys.mints| && sys.mints[i].pair.access == sys.accesses[k].token
    ensures var sys := RunFrom(cfg, delay, Init, ops);
            var (a, fam) := (sys.accesses[k], sys.mints[i].fam);
            && fam in sys.origins
            && WholeSecs(a.at) <= WholeSecs(sys.origins[fam].expiresAt + delay)
                                  + WholeSecs(cfg.accessTtl) + WholeSecs(cfg.skew)
            && (fam in sys.revoked ==>
                  WholeSecs(a.at) <= WholeSecs(sys.revoked[fam]) + WholeSecs(cfg.accessTtl) + WholeSecs(cfg.skew))
  {
    RunKeepsInv(cfg, delay, ops);
    var sys := RunFrom(cfg, delay, Init, ops);
    var m := sys.mints[i];
    assert MintOk(cfg, delay, sys, m) && AccessOk(cfg, sys, sys.accesses[k]);
    if m.fam in sys.revoked { assert FamilyDead(sys, m.fam, sys.revoked[m.fam]); }
  }

  lemma RunExtend(cfg: Config, delay: nat, sys: System, ops: seq<Op>, op: Op)
    ensures RunFrom(cfg, delay, sys, ops + [op]) == Apply(cfg, delay, RunFrom(cfg, delay, sys, ops), op)
  {
  }

  // ----- When the bounds of the design hold -----

  /** `late(a, sys, fam)` is true of no accepted request `a` of a family `fam`, in any run. */
  ghost predicate Never(cfg: Config, delay: nat, late: (Access, System, Uuid) -> bool) {
    forall ops, k, i |
      0 <= k < |RunFrom(cfg, delay, Init, ops).accesses| && 0 <= i < |RunFrom(cfg, delay, Init, ops).mints| ::
      var (a, m) := (RunFrom(cfg, delay, Init, ops).accesses[k], RunFrom(cfg, delay, Init, ops).mints[i]);
      m.pair.access == a.token ==> !late(a, RunFrom(cfg, delay, Init, ops), m.fam)
  }

  /** No request is accepted after end of life + access-token lifetime + skew, to the nanosecond. */
  ghost predicate EndOfLifeBound(cfg: Config, delay: nat) {
    Never(cfg, delay, (a: Access, sys: System, fam: Uuid) =>
      fam in sys.origins && sys.origins[fam].expiresAt + cfg.accessTtl + cfg.skew < a.at)
  }

  /** The same in whole seconds. */
  ghost predicate WholeSecondBound(cfg: Config, delay: nat) {
    Never(cfg, delay, (a: Access, sys: System, fam: Uuid) =>
      fam in sys.origins
      && WholeSecs(sys.origins[fam].expiresAt) + WholeSecs(cfg.accessTtl) + WholeSecs(cfg.skew) < WholeSecs(a.at))
  }

  /** No request is accepted after the detection of reuse + access-token lifetime + skew, to the nanosecond. */
  ghost predicate RevocationBound(cfg: Config, delay: nat) {
    Never(cfg, delay, (a: Access, sys: System, fam: Uuid) =>
      fam in sys.revoked && sys.revoked[fam] + cfg.accessTtl + cfg.skew < a.at)
  }

  /** What truncation to whole seconds takes from the two lifetimes. */
  function Fractions(cfg: Config): nat {
    cfg.accessTtl % SEC + cfg.skew % SEC
  }

  /** The last second in which a token issued at `issuedAt` is accepted. */
  function LastSecond(cfg: Config, issuedAt: nat): nat {
    WholeSecs(issuedAt) + WholeSecs(cfg.accessTtl) + WholeSecs(cfg.skew)
  }

  lemma LastSecondSpan(cfg: Config, issuedAt: nat)
    ensures (LastSecond(cfg, issuedAt) + 1) * SEC + Fractions(cfg) + issuedAt % SEC
              == issuedAt + cfg.accessTtl + cfg.skew + SEC
  {
    assert issuedAt == WholeSecs(issuedAt) * SEC + issuedAt % SEC;
    assert cfg.accessTtl == WholeSecs(cfg.accessTtl) * SEC + cfg.accessTtl % SEC;
    assert cfg.skew == WholeSecs(cfg.skew) * SEC + cfg.skew % SEC;
  }

  /** What every run guarantees of an accepted request and the step that issued its token. */
  lemma {:induction false} AcceptedUntil(cfg: Config, delay: nat, ops: seq<Op>, k: nat, i: nat)
    requires var sys := RunFrom(cfg, delay, Init, ops);
             k < |sys.accesses| && i < |sys.mints| && sys.mints[i].pair.access == sys.accesses[k].token
    ensures var sys := RunFrom(cfg, delay, Init, ops);
            var (at, m) := (sys.accesses[k].at, sys.mints[i]);
            && WholeSecs(at) <= LastSecond(cfg, m.at) && at + Fractions(cfg) < m.at + cfg.accessTtl + cfg.skew + SEC
            && m.fam in sys.origins && m.at + Gap(cfg) <= sys.origins[m.fam].expiresAt + delay + 1
            && (m.fam in sys.revoked ==> m.at <= sys.revoked[m.fam])
  {
    RunKeepsInv(cfg, delay, ops);
    var sys := RunFrom(cfg, delay, Init, ops);
    var (at, m) := (sys.accesses[k].at, sys.mints[i]);
    assert MintOk(cfg, delay, sys, m) && AccessOk(cfg, sys, sys.accesses[k]);
    LastSecondSpan(cfg, m.at);
    assert at < (WholeSecs(at) + 1) * SEC;
    if m.fam in sys.revoked { assert FamilyDead(sys, m.fam, sys.revoked[m.fam]); }
  }

  lemma FractionsCover(cfg: Config, delay: nat)
    ensures delay + SEC <= Fractions(cfg) + Gap(cfg) ==> EndOfLifeBound(cfg, delay)
    ensures delay < Gap(cfg) ==> WholeSecondBound(cfg, delay)
    ensures SEC <= Fractions(cfg) + 1 ==> RevocationBound(cfg, delay)
  {
    forall ops, k, i |
      && 0 <= k < |RunFrom(cfg, delay, Init, ops).accesses| && 0 <= i < |RunFrom(cfg, delay, Init, ops).mints|
      && RunFrom(cfg, delay, Init, ops).mints[i].pair.access == RunFrom(cfg, delay, Init, ops).accesses[k].token
      ensures var sys := RunFrom(cfg, delay, Init, ops);
              var (at, m) := (sys.accesses[k].at, sys.mints[i]);
              && WholeSecs(at) <= LastSecond(cfg, m.at) && at + Fractions(cfg) < m.at + cfg.accessTtl + cfg.skew + SEC
              && m.fam in sys.origins && m.at + Gap(cfg) <= sys.origins[m.fam].expiresAt + delay + 1
              && (m.fam in sys.revoked ==> m.at <= sys.revoked[m.fam])
    {
      AcceptedUntil(cfg, delay, ops, k, i);
    }
  }

  /** The user 7, the public id 8, the key 9 and the family 10 of the runs below. */
  lemma LoginAt(cfg: Config, delay: nat, at: nat, took: nat) returns (ops: seq<Op>)
    requires took <= delay
    ensures RunFrom(cfg, delay, Init, ops) == System(
      at + took,
      Store(map[7 := User(8, false)], map[Sha256(1) := Row(7, 10, 9, RefreshExpiry(cfg, at), None)], map[]),
      map[10 := Origin(7, 8, 9, at, RefreshExpiry(cfg, at))],
      [Mint(Pair(IssueAccessToken(cfg.accessTtl, 8, 9, 2, at + took), 1), 10, at + took, None, true)],
      [],
      map[])
  {
    ops := [];
    RunExtend(cfg, delay, Init, ops, Wait(at));
    ops := ops + [Wait(at)];
    RunExtend(cfg, delay, Init, ops, AddUser(7, 8));
    ops := ops + [AddUser(7, 8)];
    RunExtend(cfg, delay, Init, ops, Login(7, 9, 10, Choice(1, 2), took));
    ops := ops + [Login(7, 9, 10, Choice(1, 2), took)];
  }

  /** A token just issued is used in the last instant of its last whole second. */
  lemma UsedAtLastInstant(cfg: Config, delay: nat, ops: seq<Op>, i: nat) returns (ops': seq<Op>)
    requires var sys := RunFrom(cfg, delay, Init, ops);
             && i < |sys.mints| && sys.accesses == []
             && sys.mints[i].pair.access.exp == WholeSecs(sys.now) + WholeSecs(cfg.accessTtl)
    ensures var (sys, t) := (RunFrom(cfg, delay, Init, ops), RunFrom(cfg, delay, Init, ops'));
            && t.origins == sys.origins && t.revoked == sys.revoked && t.mints == sys.mints && |t.accesses| == 1
            && t.accesses[0].token == sys.mints[i].pair.access
            && t.accesses[0].at == (LastSecond(cfg, sys.now) + 1) * SEC - 1
  {
    var sys := RunFrom(cfg, delay, Init, ops);
    var last := (LastSecond(cfg, sys.now) + 1) * SEC - 1;
    assert sys.now <= last && WholeSecs(last) == LastSecond(cfg, sys.now);
    RunExtend(cfg, delay, Init, ops, Wait(last));
    ops' := ops + [Wait(last)];
    var token := sys.mints[i].pair.access;
    RunExtend(cfg, delay, Init, ops', Request(token, token.jkt));
    ops' := ops' + [Request(token, token.jkt)];
  }

  /** The latest instant at which a family that logged in at `login` issues a token, by a call that takes `took`. */
  lemma IssuedLate(cfg: Config, delay: nat, login: nat, took: nat) returns (ops: seq<Op>, i: nat)
    requires login + 1 >= Gap(cfg) && took <= delay
    ensures var (sys, end) := (RunFrom(cfg, delay, Init, ops), RefreshExpiry(cfg, login));
            && sys.now + Gap(cfg) == end + took + 1 && sys.accesses == [] && i < |sys.mints|
            && sys.mints[i].fam in sys.origins && sys.origins[sys.mints[i].fam].expiresAt == end
            && sys.mints[i].pair.access.exp == SaturatingAdd(WholeSecs(sys.now), WholeSecs(cfg.accessTtl))
  {
    if cfg.refreshTtl < SEC {
      ops := LoginAt(cfg, delay, login, took);
      i := 0;
    } else {
      ops := LoginAt(cfg, delay, login, 0);
      var end := RefreshExpiry(cfg, login);
      RunExtend(cfg, delay, Init, ops, Wait(end - 1));
      ops := ops + [Wait(end - 1)];
      RunExtend(cfg, delay, Init, ops, Refresh(1, 9, Choice(3, 4), true, took));
      ops := ops + [Refresh(1, 9, Choice(3, 4), true, took)];
      i := 1;
    }
  }

  /** Such a token, issued in the first instant of a second and used in its last, breaks the bound to the nanosecond. */
  lemma EndOfLifeOverrun(cfg: Config, delay: nat)
    requires WholeSecs(cfg.refreshTtl) + WholeSecs(cfg.accessTtl) + 2 <= U64_MAX
    requires Fractions(cfg) + Gap(cfg) < delay + SEC
    ensures !EndOfLifeBound(cfg, delay)
  {
    var took := if delay < 2 * SEC then delay else 2 * SEC;
    var login := Gap(cfg) - 1 + 2 * SEC - took;
    var ops, i := IssuedLate(cfg, delay, login, took);
    var sys := RunFrom(cfg, delay, Init, ops);
    assert sys.now == (WholeSecs(cfg.refreshTtl) + 2) * SEC;
    var late := UsedAtLastInstant(cfg, delay, ops, i);
    LastSecondSpan(cfg, sys.now);
    assert RunFrom(cfg, delay, Init, late).mints[i].pair.access == RunFrom(cfg, delay, Init, late).accesses[0].token;
  }

  /** Issued in the second after the one in which the family ends, it breaks the bound in whole seconds. */
  lemma WholeSecondOverrun(cfg: Config, delay: nat)
    requires WholeSecs(cfg.refreshTtl) + WholeSecs(cfg.accessTtl) + 2 <= U64_MAX
    requires Gap(cfg) <= delay
    ensures !WholeSecondBound(cfg, delay)
  {
    var ops, i := IssuedLate(cfg, delay, SEC - 1, Gap(cfg));
    var (sys, end) := (RunFrom(cfg, delay, Init, ops), RefreshExpiry(cfg, SEC - 1));
    assert WholeSecs(end) == WholeSecs(cfg.refreshTtl) && sys.now == (WholeSecs(cfg.refreshTtl) + 1) * SEC;
    var late := UsedAtLastInstant(cfg, delay, ops, i);
    var t := RunFrom(cfg, delay, Init, late);
    assert WholeSecs(t.accesses[0].at) == LastSecond(cfg, sys.now);
    assert t.mints[i].pair.access == t.accesses[0].token;
  }

  /** A token issued in the instant at which reuse of its family is detected outlives the bound. */
  lemma RevocationOverrun(cfg: Config, delay: nat)
    requires WholeSecs(cfg.accessTtl) <= U64_MAX && Fractions(cfg) + 1 < SEC
    ensures !RevocationBound(cfg, delay)
  {
    var ops := LoginAt(cfg, delay, 0, 0);
    RunExtend(cfg, delay, Init, ops, Logout(1));
    ops := ops + [Logout(1)];
    RunExtend(cfg, delay, Init, ops, Refresh(1, 9, Choice(3, 4), true, 0));
    ops := ops + [Refresh(1, 9, Choice(3, 4), true, 0)];
    assert RunFrom(cfg, delay, Init, ops).revoked == map[10 := 0];
    var late := UsedAtLastInstant(cfg, delay, ops, 0);
    LastSecondSpan(cfg, 0);
    assert RunFrom(cfg, delay, Init, late).mints[0].pair.access == RunFrom(cfg, delay, Init, late).accesses[0].token;
  }

  /**
   To the nanosecond the end-of-life bound holds exactly when what truncation to whole seconds takes from
   the lifetimes covers the delay of a refresh and a second, less one or two nanoseconds.
   */
  lemma EndOfLifeBoundIff(cfg: Config, delay: nat)
    requires WholeSecs(cfg.refreshTtl) + WholeSecs(cfg.accessTtl) + 2 <= U64_MAX
    ensures EndOfLifeBound(cfg, delay) <==> delay + SEC <= Fractions(cfg) + (if cfg.refreshTtl >= SEC then 2 else 1)
  {
    FractionsCover(cfg, delay);
    if Fractions(cfg) + Gap(cfg) < delay + SEC { EndOfLifeOverrun(cfg, delay); }
  }

  /** In whole seconds it holds exactly when a refresh takes no time, or a single nanosecond. */
  lemma WholeSecondBoundIff(cfg: Config, delay: nat)
    requires WholeSecs(cfg.refreshTtl) + WholeSecs(cfg.accessTtl) + 2 <= U64_MAX
    ensures WholeSecondBound(cfg, delay) <==> delay < (if cfg.refreshTtl >= SEC then 2 else 1)
  {
    FractionsCover(cfg, delay);
    if Gap(cfg) <= delay { WholeSecondOverrun(cfg, delay); }
  }

  /** The bound after a reuse detection does not depend on the delay. */
  lemma RevocationBoundIff(cfg: Config, delay: nat)
    requires WholeSecs(cfg.accessTtl) <= U64_MAX
    ensures RevocationBound(cfg, delay) <==> SEC <= Fractions(cfg) + 1
  {
    FractionsCover(cfg, delay);
    if Fractions(cfg) + 1 < SEC { RevocationOverrun(cfg, delay); }
  }

  /** The default lifetimes, 15 minutes, 30 days, 5 seconds of grace and 60 seconds of skew, are whole seconds. */
  lemma DefaultsOverrun(delay: nat)
    ensures var cfg := Config(900 * SEC, 2_592_000 * SEC, 5 * SEC, 60 * SEC);
            && !EndOfLifeBound(cfg, delay) && !RevocationBound(cfg, delay)
            && (WholeSecondBound(cfg, delay) <==> delay <= 1)
  {
    var cfg := Config(900 * SEC, 2_592_000 * SEC, 5 * SEC, 60 * SEC);
    EndOfLifeBoundIff(cfg, delay);
    WholeSecondBoundIff(cfg, delay);
    RevocationBoundIff(cfg, delay);
  }

  /**
   A rotation caches its pair and fails to commit, the user logs out, and the logged-out token is presented
   within the grace period: the answer is Ok, with a refresh token that is no row.
   */
  lemma UnknownRefreshToken(cfg: Config, delay: nat) returns (ops: seq<Op>)
    requires cfg.grace > 0 && cfg.refreshTtl >= SEC
    ensures var sys := RunFrom(cfg, delay, Init, ops);
            var answer := RefreshTx(cfg, sys.store, Times(sys, 0), 1, 9, Choice(5, 6), true).1;
            answer.Ok? && Sha256(answer.value.refresh) !in sys.store.rows && !Active(sys.store.rows, Sha256(1))
  {
    ops := LoginAt(cfg, delay, 0, 0);
    RunExtend(cfg, delay, Init, ops, Refresh(1, 9, Choice(3, 4), false, 0));
    ops := ops + [Refresh(1, 9, Choice(3, 4), false, 0)];
    RunExtend(cfg, delay, Init, ops, Logout(1));
    ops := ops + [Logout(1)];
  }
}
