/** Runs in which a rotation outlives the reuse detection of its family. */
module RotationRaces {
  import opened Wrappers
  import opened TtlCaches
  import opened AccessTokens
  import opened RefreshTokens
  import opened RotationConcurrency
  import opened RotationAlarms
  import Auth = AuthService
  import Ref = RotationRefinement

  // ----- A rotation about to commit when the family revoke has read its snapshot -----

  lemma CommitPublishes(cfg: Config, s: State, j: nat, heard: bool)
    requires LocksOk(s) && j in s.reqs && AboutToCommit(s.reqs[j])
    ensures var (q, t) := (s.reqs[j], Apply(cfg, s, Act(j, Commit(true, heard))));
            var succ := Sha256(q.tx.stage.pair.refresh);
            && succ !in s.rows && Active(t.rows, succ) && t.rows[succ].fam == q.tx.row.fam
            && (forall h :: Active(t.rows, h) ==> h == succ || (h != Sha256(q.secret) && Active(s.rows, h)))
            && (forall h :: Active(t.rows, h) && h != succ ==> t.rows[h].fam == s.rows[h].fam)
            && (forall id :: id in s.reqs && id != j ==> id in t.reqs && t.reqs[id] == s.reqs[id])
  {
    assert RequestOk(s.rows, s.reqs[j]);
    assert InsertPending(s.reqs[j], Sha256(s.reqs[j].tx.stage.pair.refresh));
  }

  /** Once the row of the snapshot is rotated there is nothing left to wait for, and nothing to lock. */
  lemma StrikesNothing(cfg: Config, s: State, id: nat)
    requires id in s.reqs && s.reqs[id].tx.Striking? && forall h :: h in s.reqs[id].tx.seen ==> !Active(s.rows, h)
    ensures var (tx, t) := (s.reqs[id].tx, Apply(cfg, s, Act(id, Strike)));
            t.rows == s.rows && id in t.reqs && t.reqs[id].tx == Struck(tx.fam, tx.seen, {}, tx.at)
  {
    assert StillActive(s.rows, s.reqs[id].tx.seen) == {};
  }

  /** The snapshot holds at most the row that is being rotated. */
  lemma SnapshotIsRotating(s: State, id: nat, j: nat)
    requires LocksOk(s) && id in s.reqs && s.reqs[id].tx.Striking? && SweepOk(s.rows, s.log, s.reqs[id].tx)
    requires ChainsOk(s.rows, s.chains) && EventsOk(s)
    requires j in s.reqs && AboutToCommit(s.reqs[j]) && s.reqs[j].tx.row.fam == s.reqs[id].tx.fam
    ensures forall h :: h in s.reqs[id].tx.seen && Active(s.rows, h) ==> h == Sha256(s.reqs[j].secret)
  {
    var (q, tx) := (s.reqs[j], s.reqs[id].tx);
    assert RequestOk(s.rows, q);
    if SeenRotated(s.log, tx) {
      var h :| h in tx.seen && WasRotated(s.log, h);
      RotatedIsRevoked(s, h);
    }
  }

  /**
   A rotation about to commit when the family revoke of a reuse detection has read its snapshot outlives the
   detection: the revoke waits for it, finds its row no longer active, and commits; the successor stays active.
   */
  lemma {:induction false} RotationOutlivesAlarm(cfg: Config, steps: seq<Step>, id: nat, j: nat)
    requires var s := Run(cfg, steps);
             && id in s.reqs && s.reqs[id].tx.Striking?
             && j in s.reqs && AboutToCommit(s.reqs[j]) && s.reqs[j].tx.row.fam == s.reqs[id].tx.fam
    ensures var s := Run(cfg, steps);
            var t := Run(cfg, steps + [Act(j, Commit(true, true))] + [Act(id, Strike)]
                              + [Act(id, CommitAlarm(true, true))]);
            var succ := Sha256(s.reqs[j].tx.stage.pair.refresh);
            && id in t.reqs && t.reqs[id].tx == Closed(Err(Unauthorized))
            && Active(t.rows, succ) && t.rows[succ].fam == s.reqs[id].tx.fam
  {
    var (rotation, strike, alarm) := (Act(j, Commit(true, true)), Act(id, Strike), Act(id, CommitAlarm(true, true)));
    RunKeepsInv(cfg, steps);
    RunKeepsSweeps(cfg, steps);
    RunExtend(cfg, steps, rotation);
    RunExtend(cfg, steps + [rotation], strike);
    RunExtend(cfg, steps + [rotation] + [strike], alarm);
    Race(cfg, Run(cfg, steps), id, j);
  }

  lemma Race(cfg: Config, s: State, id: nat, j: nat)
    requires LocksOk(s) && ChainsOk(s.rows, s.chains) && EventsOk(s) && SweepsOk(s)
    requires && id in s.reqs && s.reqs[id].tx.Striking?
             && j in s.reqs && AboutToCommit(s.reqs[j]) && s.reqs[j].tx.row.fam == s.reqs[id].tx.fam
    ensures var struck := Apply(cfg, Apply(cfg, s, Act(j, Commit(true, true))), Act(id, Strike));
            var (t, succ) := (Apply(cfg, struck, Act(id, CommitAlarm(true, true))),
                Sha256(s.reqs[j].tx.stage.pair.refresh));
            && id in t.reqs && t.reqs[id].tx == Closed(Err(Unauthorized))
            && Active(t.rows, succ) && t.rows[succ].fam == s.reqs[id].tx.fam
  {
    var rotated := Apply(cfg, s, Act(j, Commit(true, true)));
    assert SweepOk(s.rows, s.log, s.reqs[id].tx);
    SnapshotIsRotating(s, id, j);
    CommitPublishes(cfg, s, j, true);
    StrikesNothing(cfg, rotated, id);
    AlarmTable(cfg, Apply(cfg, rotated, Act(id, Strike)), id, true);
    AlarmCloses(cfg, Apply(cfg, rotated, Act(id, Strike)), id);
  }

  lemma AlarmCloses(cfg: Config, s: State, id: nat)
    requires id in s.reqs && s.reqs[id].tx.Struck?
    ensures var t := Apply(cfg, s, Act(id, CommitAlarm(true, true)));
            id in t.reqs && t.reqs[id].tx == Closed(Err(Unauthorized))
  {
  }

  // ----- Such a run -----

  /** No request holds a row or has an insert pending. */
  ghost predicate Free(s: State) {
    forall id :: id in s.reqs ==> !s.reqs[id].tx.Rotating? && !s.reqs[id].tx.Struck?
  }

  /** A call of `refresh` with the token `token` under the key of its row, drawing the secret `succ`. */
  function CallOf(s: State, id: nat, token: Secret, succ: Secret): Ref.Call
    requires Sha256(token) in s.rows
  {
    Ref.Call(id, token, s.rows[Sha256(token)].jkt, Auth.Choice(succ, 0), true, s.now)
  }

  predicate CanStart(s: State, id: nat, token: Secret, succ: Secret) {
    && id !in s.reqs && Active(s.rows, Sha256(token)) && Sha256(succ) !in s.rows && token != succ && Unguessed(s, succ)
    && s.now < s.rows[Sha256(token)].expiresAt && s.rows[Sha256(token)].user in s.users
  }

  /** The request with its pair cached, about to commit. */
  function Ready(cfg: Config, s: State, id: nat, token: Secret, succ: Secret): State
    requires CanStart(s, id, token, succ)
  {
    var row := s.rows[Sha256(token)];
    var pair := Pair(IssueAccessToken(cfg.accessTtl, s.users[row.user], row.jkt, 0, s.now), succ);
    var key := GraceKey(row.fam, Sha256(token));
    s.(reqs := s.reqs[id := Request(token, row.jkt, Rotating(row, s.now, Cached(pair, s.now)))],
       grace := s.grace[key := Entry(pair, s.now)], dropped := s.dropped - {key})
  }

  lemma CachesPair(cfg: Config, s: State, id: nat, token: Secret, succ: Secret)
    requires CanStart(s, id, token, succ)
    ensures var c := CallOf(s, id, token, succ);
            Apply(cfg, Ref.At(s, c, Ref.Stage(s, c)), Act(id, Cache(0))) == Ready(cfg, s, id, token, succ)
  {
    var (row, c) := (s.rows[Sha256(token)], CallOf(s, id, token, succ));
    var cached := Ready(cfg, s, id, token, succ).reqs[id].tx;
    Ref.Overwrite(s, c, Ref.Stage(s, c), cached);
  }

  lemma UpToCache(cfg: Config, steps: seq<Step>, id: nat, token: Secret, succ: Secret) returns (steps': seq<Step>)
    requires Free(Run(cfg, steps)) && CanStart(Run(cfg, steps), id, token, succ)
    ensures Run(cfg, steps') == Ready(cfg, Run(cfg, steps), id, token, succ)
  {
    var s := Run(cfg, steps);
    var c := CallOf(s, id, token, succ);
    assert Ref.Undisturbed(s, c);
    Ref.Opens(cfg, s, c);
    CachesPair(cfg, s, id, token, succ);
    RunExtend(cfg, steps, Begin(id, token, c.jkt));
    steps' := steps + [Begin(id, token, c.jkt)];
    assert Run(cfg, steps') == Ref.At(s, c, Opened);
    RunExtend(cfg, steps', Act(id, Cas));
    steps' := steps' + [Act(id, Cas)];
    RunExtend(cfg, steps', Act(id, Check));
    steps' := steps' + [Act(id, Check)];
    RunExtend(cfg, steps', Act(id, Insert(succ)));
    steps' := steps' + [Act(id, Insert(succ))];
    RunExtend(cfg, steps', Act(id, Cache(0)));
    steps' := steps' + [Act(id, Cache(0))];
  }

  /** The rows of the tokens 1, revoked, and 2, active. */
  function TwoRows(cfg: Config): Table {
    map[Sha256(1) := Row(7, 10, 9, cfg.grace + 1, Some(0)), Sha256(2) := Row(7, 10, 9, cfg.grace + 1, None)]
  }

  /** A login with the token 1, rotated at once into the token 2. */
  lemma RotatedOnce(cfg: Config) returns (steps: seq<Step>)
    ensures var s := Run(cfg, steps);
            && s.now == 0 && s.users == map[7 := 8] && s.reqs.Keys == {1} && s.reqs[1].secret == 1
            && s.reqs[1].tx.Closed?
            && s.rows == TwoRows(cfg)
            && s.grace.Keys == {GraceKey(10, Sha256(1))} && s.grace[GraceKey(10, Sha256(1))].at == 0
  {
    steps := [];
    RunExtend(cfg, steps, AddUser(7, 8));
    steps := steps + [AddUser(7, 8)];
    RunExtend(cfg, steps, Login(7, 9, 10, 1, cfg.grace + 1));
    steps := steps + [Login(7, 9, 10, 1, cfg.grace + 1)];
    assert Run(cfg, steps).rows == map[Sha256(1) := Row(7, 10, 9, cfg.grace + 1, None)];
    steps := UpToCache(cfg, steps, 1, 1, 2);
    RunExtend(cfg, steps, Act(1, Commit(true, true)));
    steps := steps + [Act(1, Commit(true, true))];
  }

  /** A revoked token without live grace entry, up to the point where the family revoke has read its snapshot. */
  lemma UpToSurvey(cfg: Config, steps: seq<Step>, id: nat, token: Secret) returns (steps': seq<Step>)
    requires var (s, h) := (Run(cfg, steps), Sha256(token));
             && Free(s) && id !in s.reqs && h in s.rows && s.rows[h].revokedAt.Some?
             && Unguessed(s, token + 1) && !Live(s.grace, cfg.grace, GraceKey(s.rows[h].fam, h), s.now)
    ensures var (s, t) := (Run(cfg, steps), Run(cfg, steps'));
            var row := s.rows[Sha256(token)];
            && t.rows == s.rows && t.now == s.now && t.users == s.users
            && t.reqs == s.reqs[id := Request(token, row.jkt, Striking(row.fam, ActiveRows(s.rows, row.fam), s.now))]
  {
    var s := Run(cfg, steps);
    var c := CallOf(s, id, token, token + 1);
    assert Ref.Undisturbed(s, c);
    Ref.Opens(cfg, s, c);
    Ref.LoserProbes(cfg, s, c);
    RunExtend(cfg, steps, Begin(id, token, c.jkt));
    steps' := steps + [Begin(id, token, c.jkt)];
    assert Run(cfg, steps') == Ref.At(s, c, Opened);
    RunExtend(cfg, steps', Act(id, Cas));
    steps' := steps' + [Act(id, Cas)];
    RunExtend(cfg, steps', Act(id, Check));
    steps' := steps' + [Act(id, Check)];
    RunExtend(cfg, steps', Act(id, Insert(token + 1)));
    steps' := steps' + [Act(id, Insert(token + 1))];
    RunExtend(cfg, steps', Act(id, Find));
    steps' := steps' + [Act(id, Find)];
    RunExtend(cfg, steps', Act(id, Probe));
    steps' := steps' + [Act(id, Probe)];
    Ref.LoserSurveys(cfg, s, Run(cfg, steps'), c, s.rows[Sha256(token)].fam);
    RunExtend(cfg, steps', Act(id, Survey));
    steps' := steps' + [Act(id, Survey)];
  }

  /** After the grace period the token 1 comes back, and the family revoke reads its snapshot: the token 2. */
  lemma ReuseSurveyed(cfg: Config) returns (steps: seq<Step>)
    ensures var s := Run(cfg, steps);
            && s.now == cfg.grace && s.users == map[7 := 8] && s.reqs.Keys == {1, 2}
            && s.reqs[1].secret == s.reqs[2].secret == 1 && s.reqs[1].tx.Closed?
            && s.reqs[2].tx.Striking? && s.reqs[2].tx.fam == 10
            && s.rows == TwoRows(cfg)
  {
    steps := RotatedOnce(cfg);
    RunExtend(cfg, steps, Tick(cfg.grace));
    steps := steps + [Tick(cfg.grace)];
    steps := UpToSurvey(cfg, steps, 2, 1);
  }

  /** Meanwhile the token 2 is rotated: a run that ends as `RotationOutlivesAlarm` says, under any configuration. */
  lemma RaceIsReachable(cfg: Config) returns (steps: seq<Step>)
    ensures var s := Run(cfg, steps);
            && 2 in s.reqs && s.reqs[2].tx.Striking?
            && 3 in s.reqs && AboutToCommit(s.reqs[3]) && s.reqs[3].tx.row.fam == s.reqs[2].tx.fam
  {
    steps := ReuseSurveyed(cfg);
    steps := UpToCache(cfg, steps, 3, 2, 3);
  }
}
