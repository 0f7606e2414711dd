/**
 The two levels of the rotation protocol agree on an undisturbed request: its statements do to the table
 and the grace cache what the transaction-level `RefreshTx` says, and it answers the same.
 */
module RotationRefinement {
  import opened Wrappers
  import opened TtlCaches
  import opened AccessTokens
  import opened RefreshTokens
  import opened AuthService
  import Rot = RotationConcurrency

  /** The committed state of a statement-level system, seen as a store. */
  ghost predicate Represents(s: Rot.State, store: Store) {
    && s.rows == store.rows && s.grace == store.grace
    && (forall u :: u in s.users <==> u in store.users && !store.users[u].deleted)
    && (forall u :: u in s.users ==> s.users[u] == store.users[u].publicId)
  }

  /** What one call of `refresh` is asked, what it draws, and when it comes to the cache. */
  datatype Call = Call(id: nat, secret: Secret, jkt: Thumbprint, choice: Choice, commits: bool, actedAt: nat)

  function ToStatements(cfg: Config): Rot.Config {
    Rot.Config(cfg.accessTtl, cfg.grace)
  }

  /** The rows a family revoke of this call is to hit. */
  function Kin(rows: Table, h: Digest): set<Digest> {
    if h in rows then Family(rows, rows[h].fam) else {}
  }

  /** No other transaction is in the way: neither on the rows of the family nor on the hashes to insert. */
  ghost predicate Undisturbed(s: Rot.State, c: Call) {
    && c.id !in s.reqs && c.choice.secret != c.secret && Rot.Unguessed(s, c.choice.secret)
    && !Rot.HashPending(s, Sha256(c.secret)) && !Rot.HashPending(s, Sha256(c.choice.secret))
    && !Rot.RowLocked(s, Sha256(c.secret))
    && forall g :: g in Kin(s.rows, Sha256(c.secret)) ==> !Rot.RowLocked(s, g)
  }

  function Do(cfg: Rot.Config, s: Rot.State, id: nat, move: Rot.Move): Rot.State {
    Rot.Apply(cfg, s, Rot.Act(id, move))
  }

  /** The statements up to the insert; what is not the request's next statement changes nothing. */
  function Opening(cfg: Rot.Config, s: Rot.State, c: Call): Rot.State {
    var checked := Do(cfg, Do(cfg, s, c.id, Rot.Cas), c.id, Rot.Check);
    Do(cfg, checked, c.id, Rot.Insert(c.choice.secret))
  }

  function Winning(cfg: Rot.Config, s: Rot.State, c: Call): Rot.State {
    Do(cfg, Do(cfg, s, c.id, Rot.Cache(c.choice.jti)), c.id, Rot.Commit(c.commits, true))
  }

  function Losing(cfg: Rot.Config, s: Rot.State, c: Call): Rot.State {
    var probed := Do(cfg, Do(cfg, s, c.id, Rot.Find), c.id, Rot.Probe);
    var struck := Do(cfg, Do(cfg, probed, c.id, Rot.Survey), c.id, Rot.Strike);
    Do(cfg, struck, c.id, Rot.CommitAlarm(c.commits, true))
  }

  /** The request from its arrival on: the opening now, the winner's or the loser's statements at `actedAt`. */
  function WholeRequest(cfg: Rot.Config, s: Rot.State, c: Call): Rot.State {
    var begun := Opening(cfg, Rot.Apply(cfg, s, Rot.Begin(c.id, c.secret, c.jkt)), c);
    Losing(cfg, Winning(cfg, Rot.Apply(cfg, begun, Rot.Tick(c.actedAt)), c), c)
  }

  /** The state with this one request added, its transaction in a given stage. */
  function At(s: Rot.State, c: Call, tx: Rot.Tx): Rot.State {
    s.(reqs := s.reqs[c.id := Rot.Request(c.secret, c.jkt, tx)])
  }

  lemma Overwrite(s: Rot.State, c: Call, tx: Rot.Tx, tx': Rot.Tx)
    ensures Rot.SetTx(At(s, c, tx), c.id, tx') == At(s, c, tx')
  {
  }

  /** The request adds no lock and no pending insert before it has one of its own. */
  lemma StillUndisturbed(s: Rot.State, c: Call, tx: Rot.Tx)
    requires Undisturbed(s, c)
    ensures tx.Opened? ==> !Rot.RowLocked(At(s, c, tx), Sha256(c.secret))
    ensures tx.Rotating? && tx.stage.Accepted? ==>
              !Rot.HashPending(At(s, c, tx), Sha256(c.choice.secret)) && Rot.Unguessed(At(s, c, tx), c.choice.secret)
    ensures tx.Striking? ==>
              forall g :: g in Kin(s.rows, Sha256(c.secret)) ==> !Rot.RowLocked(At(s, c, tx), g)
  {
  }

  /** The compare-and-swap and the checks, for an active token. */
  lemma WinnerChecked(cfg: Rot.Config, s: Rot.State, c: Call)
    requires Undisturbed(s, c) && Active(s.rows, Sha256(c.secret))
    ensures var row := s.rows[Sha256(c.secret)];
            Do(cfg, Do(cfg, At(s, c, Rot.Opened), c.id, Rot.Cas), c.id, Rot.Check)
              == At(s, c, if row.expiresAt <= s.now || row.jkt != c.jkt || row.user !in s.users
                          then Rot.Closed(Err(Unauthorized))
                          else Rot.Rotating(row, s.now, Rot.Accepted(s.users[row.user])))
  {
    var row := s.rows[Sha256(c.secret)];
    var swapped := Rot.Rotating(row, s.now, Rot.Swapped);
    StillUndisturbed(s, c, Rot.Opened);
    Overwrite(s, c, Rot.Opened, swapped);
    Overwrite(s, c, swapped, Rot.Closed(Err(Unauthorized)));
    if row.user in s.users { Overwrite(s, c, swapped, Rot.Rotating(row, s.now, Rot.Accepted(s.users[row.user]))); }
  }

  /** Where the opening leaves the request: refused, ready to cache its pair, or a loser. */
  function Stage(s: Rot.State, c: Call): Rot.Tx {
    var h := Sha256(c.secret);
    if !Active(s.rows, h) then Rot.Missed
    else
      var row := s.rows[h];
      if row.expiresAt <= s.now || row.jkt != c.jkt || row.user !in s.users then Rot.Closed(Err(Unauthorized))
      else if Sha256(c.choice.secret) in s.rows then Rot.Closed(Err(Internal))
      else Rot.Rotating(row, s.now, Rot.Inserted(s.users[row.user], c.choice.secret))
  }

  lemma Opens(cfg: Rot.Config, s: Rot.State, c: Call)
    requires Undisturbed(s, c)
    ensures Opening(cfg, At(s, c, Rot.Opened), c) == At(s, c, Stage(s, c))
  {
    StillUndisturbed(s, c, Rot.Opened);
    if Active(s.rows, Sha256(c.secret)) {
      var row := s.rows[Sha256(c.secret)];
      WinnerChecked(cfg, s, c);
      if !(row.expiresAt <= s.now || row.jkt != c.jkt || row.user !in s.users) {
        var accepted := Rot.Rotating(row, s.now, Rot.Accepted(s.users[row.user]));
        StillUndisturbed(s, c, accepted);
        Overwrite(s, c, accepted, Stage(s, c));
      }
    } else {
      Overwrite(s, c, Rot.Opened, Rot.Missed);
    }
  }

  /** Table, grace cache and answer a request has come to. */
  ghost predicate EndsAs(t: Rot.State, c: Call, rows: Table, grace: map<GraceKey, Entry<Pair>>, answer: Answer) {
    t.rows == rows && t.grace == grace && c.id in t.reqs && t.reqs[c.id].tx == Rot.Closed(answer)
  }

  /** Cache and commit of a rotation that has inserted its successor. */
  lemma WinnerWrites(cfg: Rot.Config, s: Rot.State, c: Call, checkedAt: nat, publicId: Uuid)
    requires Active(s.rows, Sha256(c.secret)) && s.rows[Sha256(c.secret)].jkt == c.jkt
    ensures var h, succ := Sha256(c.secret), Sha256(c.choice.secret);
            var pair := Pair(IssueAccessToken(cfg.accessTtl, publicId, c.jkt, c.choice.jti, s.now), c.choice.secret);
            var stage := Rot.Inserted(publicId, c.choice.secret);
            var t := Winning(cfg, At(s, c, Rot.Rotating(s.rows[h], checkedAt, stage)), c);
            EndsAs(t, c, if c.commits then Rotate(s.rows, h, succ, checkedAt) else s.rows,
                   s.grace[GraceKey(s.rows[h].fam, h) := Entry(pair, s.now)],
                   if c.commits then Ok(pair) else Err(Internal))
  {
  }

  /** A missed swap, the lookup and the cache. */
  lemma LoserProbes(cfg: Rot.Config, s: Rot.State, c: Call)
    ensures var h := Sha256(c.secret);
            var t := Do(cfg, Do(cfg, At(s, c, Rot.Missed), c.id, Rot.Find), c.id, Rot.Probe);
            && t.rows == s.rows && t.grace == s.grace && t.now == s.now && t.users == s.users
            && t.reqs == At(s, c,
                 if h !in s.rows then Rot.Closed(Err(Unauthorized))
                 else if Live(s.grace, cfg.grace, GraceKey(s.rows[h].fam, h), s.now)
                 then Rot.Closed(Ok(s.grace[GraceKey(s.rows[h].fam, h)].value))
                 else Rot.Alarmed(s.rows[h].fam, s.now)).reqs
  {
    var h := Sha256(c.secret);
    if h in s.rows {
      Overwrite(s, c, Rot.Missed, Rot.Found(s.rows[h].fam));
    }
  }

  /** Nobody keeps the family revoke of an undisturbed request waiting: it locks every active row of the family. */
  lemma LoserLocks(cfg: Rot.Config, s: Rot.State, v: Rot.State, c: Call)
    requires Undisturbed(s, c) && Sha256(c.secret) in s.rows && v.rows == s.rows
    requires var fam := s.rows[Sha256(c.secret)].fam;
             v.reqs == At(s, c, Rot.Striking(fam, Rot.ActiveRows(s.rows, fam), s.now)).reqs
    ensures var (fam, t) := (s.rows[Sha256(c.secret)].fam, Do(cfg, v, c.id, Rot.Strike));
            && t.rows == v.rows && t.grace == v.grace && c.id in t.reqs
            && t.reqs[c.id].tx == Rot.Struck(fam, Rot.ActiveRows(s.rows, fam), Rot.ActiveRows(s.rows, fam), s.now)
  {
    var fam := s.rows[Sha256(c.secret)].fam;
    var (seen, w) := (Rot.ActiveRows(s.rows, fam), At(s, c, Rot.Striking(fam, Rot.ActiveRows(s.rows, fam), s.now)));
    StillUndisturbed(s, c, Rot.Striking(fam, seen, s.now));
    forall h | h in seen
      ensures !Rot.RowLocked(v, h)
    {
      assert h in Kin(s.rows, Sha256(c.secret)) && !Rot.RowLocked(w, h);
    }
    assert Rot.StillActive(v.rows, seen) == seen;
  }

  lemma LoserSurveys(cfg: Rot.Config, s: Rot.State, u: Rot.State, c: Call, fam: Uuid)
    requires u.rows == s.rows && u.reqs == At(s, c, Rot.Alarmed(fam, s.now)).reqs
    ensures var v := Do(cfg, u, c.id, Rot.Survey);
            v == u.(reqs := At(s, c, Rot.Striking(fam, Rot.ActiveRows(s.rows, fam), s.now)).reqs)
  {
    Overwrite(s, c, Rot.Alarmed(fam, s.now), Rot.Striking(fam, Rot.ActiveRows(s.rows, fam), s.now));
  }

  lemma SameRevocation(rows: Table, h: Digest, now: nat)
    requires h in rows
    ensures RevokeWhere(rows, Rot.ActiveRows(rows, rows[h].fam), now) == RevokeWhere(rows, Kin(rows, h), now)
  {
  }

  /** The family revoke of an undisturbed request hits every active row of the family. */
  lemma LoserStrikes(cfg: Rot.Config, s: Rot.State, u: Rot.State, c: Call)
    requires Undisturbed(s, c) && Sha256(c.secret) in s.rows
    requires u.rows == s.rows && u.grace == s.grace && u.now == s.now
    requires u.reqs == At(s, c, Rot.Alarmed(s.rows[Sha256(c.secret)].fam, s.now)).reqs
    ensures var struck := Do(cfg, Do(cfg, u, c.id, Rot.Survey), c.id, Rot.Strike);
            var t := Do(cfg, struck, c.id, Rot.CommitAlarm(c.commits, true));
            EndsAs(t, c, if c.commits then RevokeWhere(s.rows, Kin(s.rows, Sha256(c.secret)), s.now) else s.rows,
                   s.grace,
                   Err(if c.commits then Unauthorized else Internal))
  {
    LoserSurveys(cfg, s, u, c, s.rows[Sha256(c.secret)].fam);
    LoserLocks(cfg, s, Do(cfg, u, c.id, Rot.Survey), c);
    SameRevocation(s.rows, Sha256(c.secret), s.now);
  }

  /** The rest of the request, from where the opening left it, at the instant `t.now`. */
  lemma WinnerIsTx(cfg: Config, s: Rot.State, t: Rot.State, store: Store, c: Call)
    requires Represents(s, store) && Active(s.rows, Sha256(c.secret)) && t == s.(now := t.now)
    ensures var u := Winning(ToStatements(cfg), At(t, c, Stage(s, c)), c);
            var (store', answer) := RefreshTx(cfg, store, Timing(s.now, t.now), c.secret, c.jkt, c.choice, c.commits);
            EndsAs(u, c, store'.rows, store'.grace, answer)
  {
    var row := s.rows[Sha256(c.secret)];
    if CanRotate(store, s.now, Sha256(c.secret), c.jkt) {
      WinnerWrites(ToStatements(cfg), t, c, s.now, s.users[row.user]);
    }
  }

  lemma NothingToStrike(cfg: Rot.Config, t: Rot.State, c: Call)
    requires c.id in t.reqs && t.reqs[c.id].tx.Closed?
    ensures var struck := Do(cfg, Do(cfg, t, c.id, Rot.Survey), c.id, Rot.Strike);
            Do(cfg, struck, c.id, Rot.CommitAlarm(c.commits, true)) == t
  {
  }

  lemma LoserIsTx(cfg: Config, t: Rot.State, store: Store, c: Call, checkedAt: nat)
    requires Represents(t, store) && Undisturbed(t, c) && !Active(t.rows, Sha256(c.secret))
    ensures var u := Losing(ToStatements(cfg), At(t, c, Rot.Missed), c);
            var (store', answer) := RefreshTx(cfg, store, Timing(checkedAt, t.now), c.secret, c.jkt, c.choice,
                c.commits);
            EndsAs(u, c, store'.rows, store'.grace, answer)
  {
    var k := ToStatements(cfg);
    var probed := Do(k, Do(k, At(t, c, Rot.Missed), c.id, Rot.Find), c.id, Rot.Probe);
    LoserProbes(k, t, c);
    if ReuseDetected(cfg, store, t.now, Sha256(c.secret)) {
      LoserStrikes(k, t, probed, c);
    } else {
      NothingToStrike(k, probed, c);
    }
  }

  lemma EndIsFinal(cfg: Rot.Config, t: Rot.State, c: Call)
    requires c.id in t.reqs && t.reqs[c.id].tx.Closed?
    ensures Losing(cfg, t, c) == t
  {
  }

  /** Letting time pass for everybody else disturbs nobody. */
  lemma StillUndisturbedLater(s: Rot.State, t: Rot.State, c: Call)
    requires Undisturbed(s, c) && t == s.(now := t.now)
    ensures Undisturbed(t, c)
  {
    assert forall g :: Rot.RowLocked(t, g) == Rot.RowLocked(s, g);
    assert forall g :: Rot.HashPending(t, g) == Rot.HashPending(s, g);
  }

  lemma LoserCachesNothing(cfg: Rot.Config, t: Rot.State, c: Call)
    ensures Winning(cfg, At(t, c, Rot.Missed), c) == At(t, c, Rot.Missed)
  {
  }

  lemma AfterOpening(cfg: Rot.Config, s: Rot.State, c: Call)
    requires Undisturbed(s, c) && s.now <= c.actedAt
    ensures WholeRequest(cfg, s, c) == Losing(cfg, Winning(cfg, At(s.(now := c.actedAt), c, Stage(s, c)), c), c)
  {
    Opens(cfg, s, c);
    assert Rot.Apply(cfg, s, Rot.Begin(c.id, c.secret, c.jkt)) == At(s, c, Rot.Opened);
    assert Rot.Apply(cfg, At(s, c, Stage(s, c)), Rot.Tick(c.actedAt)) == At(s.(now := c.actedAt), c, Stage(s, c));
  }

  /**
   An undisturbed request, statement by statement, is one `RefreshTx`: same table, same grace cache, same
   answer, however much time passes between its check and its use of the cache.
   */
  lemma {:induction false} WholeRequestIsRefreshTx(cfg: Config, s: Rot.State, store: Store, c: Call)
    requires Represents(s, store) && Undisturbed(s, c) && s.now <= c.actedAt
    ensures var t := WholeRequest(ToStatements(cfg), s, c);
            var (store', answer) := RefreshTx(cfg, store, Timing(s.now, c.actedAt), c.secret, c.jkt, c.choice,
                c.commits);
            t.rows == store'.rows && t.grace == store'.grace && c.id in t.reqs && t.reqs[c.id].tx == Rot.Closed(answer)
  {
    var k, later := ToStatements(cfg), s.(now := c.actedAt);
    AfterOpening(k, s, c);
    if Active(s.rows, Sha256(c.secret)) {
      WinnerIsTx(cfg, s, later, store, c);
      EndIsFinal(k, Winning(k, At(later, c, Stage(s, c)), c), c);
    } else {
      StillUndisturbedLater(s, later, c);
      LoserCachesNothing(k, later, c);
      LoserIsTx(cfg, later, store, c, s.now);
    }
  }

  /** The login step of the statement level is the login transaction, for a secret nobody has seen and a new family. */
  lemma LoginIsLoginTx(cfg: Config, s: Rot.State, store: Store, at: Timing, user: Uuid, jkt: Thumbprint, fam: Uuid,
                       choice: Choice)
    requires Represents(s, store) && fam !in s.chains
    requires !Rot.HashPending(s, Sha256(choice.secret)) && Rot.Unguessed(s, choice.secret)
    ensures var end := at.checked + (cfg.refreshTtl / 1_000_000_000) * 1_000_000_000;
            var t := Rot.Apply(ToStatements(cfg), s, Rot.Login(user, jkt, fam, choice.secret, end));
            var (store', answer) := LoginTx(cfg, store, at, user, jkt, fam, choice);
            t.rows == store'.rows && t.grace == store'.grace && (fam in t.chains <==> answer.Ok?)
  {
  }

  /** A revoke by hash, by id or by user that no lock keeps waiting revokes the active rows it names, no more. */
  lemma RevokeIsLogout(cfg: Rot.Config, s: Rot.State, which: set<Digest>)
    requires forall h :: h in which ==> !Rot.RowLocked(s, h)
    ensures var t := Rot.Apply(cfg, s, Rot.Revoke(which));
            && t == s.(rows := t.rows) && t.rows.Keys == s.rows.Keys
            && forall h :: h in s.rows ==>
                 t.rows[h] == if h in which && s.rows[h].revokedAt.None?
                              then s.rows[h].(revokedAt := Some(s.now)) else s.rows[h]
  {
  }
}
