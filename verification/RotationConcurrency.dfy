/**
 Refresh-token rotation at the level of single statements. Any number of requests are in flight; a
 request's transaction holds the row lock of what it has updated until it commits or aborts, a
 commit may fail, a request may be cancelled at any point, and the grace cache may drop entries.
 */
module RotationConcurrency {
  import opened Wrappers
  import opened TtlCaches
  import opened AccessTokens
  import opened RefreshTokens

  datatype Config = Config(accessTtl: nat, grace: nat)

  /** How far the winner of the compare-and-swap has come. */
  datatype Stage =
    | Swapped
    | Accepted(publicId: Uuid)
    | Inserted(publicId: Uuid, succ: Secret)
    | Cached(pair: Pair, cachedAt: nat)

  datatype Tx =
    | Opened
    | Missed
    | Found(fam: Uuid)
    | Rotating(row: Row, at: nat, stage: Stage)
    | Alarmed(fam: Uuid, at: nat)
    | Striking(fam: Uuid, seen: set<Digest>, at: nat)
    | Struck(fam: Uuid, seen: set<Digest>, hit: set<Digest>, at: nat)
    | Closed(answer: Answer)

  datatype Request = Request(secret: Secret, jkt: Thumbprint, tx: Tx)

  /** What the requests did, in order: the history the theorems speak about. */
  datatype Event =
    | LoggedIn(token: Digest, fam: Uuid)
    | Rotated(id: nat, token: Digest, pair: Pair, cachedAt: nat)
    | Replayed(id: nat, token: Digest, pair: Pair)
    | Alarm(id: nat, token: Digest, at: nat, dropped: bool)

  /**
   `rows` is the committed table. `chains` lists each family's committed rows in commit order,
   `dropped` the grace keys evicted since they were last written, `log` the events so far.
   */
  datatype State = State(
    now: nat,
    users: map<Uuid, Uuid>,
    rows: Table,
    grace: map<GraceKey, Entry<Pair>>,
    reqs: map<nat, Request>,
    chains: map<Uuid, seq<Digest>>,
    dropped: set<GraceKey>,
    log: seq<Event>)

  datatype Step =
    | Tick(to: nat)
    | AddUser(user: Uuid, publicId: Uuid)
    | DeleteUser(user: Uuid)
    | Login(user: Uuid, jkt: Thumbprint, fam: Uuid, secret: Secret, expiresAt: nat)
    | Revoke(which: set<Digest>)
    | Evict(key: GraceKey)
    | Begin(id: nat, secret: Secret, jkt: Thumbprint)
    | Act(id: nat, move: Move)

  /** The statements of one request, with its random choices and the verdict of its commit. */
  datatype Move =
    | Cas
    | Check
    | Insert(succ: Secret)
    | Cache(jti: Uuid)
    | Commit(ok: bool, heard: bool)
    | Find
    | Probe
    | Survey
    | Strike
    | CommitAlarm(ok: bool, heard: bool)
    | Cancel

  predicate Holds(r: Request, h: Digest) {
    || (r.tx.Rotating? && h == Sha256(r.secret))
    || (r.tx.Struck? && h in r.tx.hit)
  }

  predicate InsertPending(r: Request, h: Digest) {
    r.tx.Rotating? &&
    match r.tx.stage
    case Inserted(_, succ) => h == Sha256(succ)
    case Cached(pair, _) => h == Sha256(pair.refresh)
    case _ => false
  }

  predicate RowLocked(s: State, h: Digest) {
    exists id | id in s.reqs :: Holds(s.reqs[id], h)
  }

  predicate HashPending(s: State, h: Digest) {
    exists id | id in s.reqs :: InsertPending(s.reqs[id], h)
  }

  /** New secrets are unguessable: no request so far has presented this one. */
  predicate Unguessed(s: State, secret: Secret) {
    forall id | id in s.reqs :: s.reqs[id].secret != secret
  }

  function ChainOf(s: State, fam: Uuid): seq<Digest> {
    if fam in s.chains then s.chains[fam] else []
  }

  function SetTx(s: State, id: nat, tx: Tx): State
    requires id in s.reqs
  {
    s.(reqs := s.reqs[id := s.reqs[id].(tx := tx)])
  }

  /** Register and login: the first row of a new family. An insert of a hash in use never commits. */
  function ApplyLogin(s: State, user: Uuid, jkt: Thumbprint, fam: Uuid, secret: Secret, expiresAt: nat): State {
    var h := Sha256(secret);
    if user in s.users && fam !in s.chains && h !in s.rows && !HashPending(s, h) && Unguessed(s, secret) then
      s.(rows := s.rows[h := Row(user, fam, jkt, expiresAt, None)], chains := s.chains[fam := [h]],
         log := s.log + [LoggedIn(h, fam)])
    else s
  }

  /** A one-statement revoke: logout, by id, or all of a user's tokens. It waits for locked rows. */
  function ApplyRevoke(s: State, which: set<Digest>): State {
    if exists h | h in which :: RowLocked(s, h) then s
    else s.(rows := RevokeWhere(s.rows, which, s.now))
  }

  /** A request arrives. A secret whose insert has not committed yet is known to no client. */
  function ApplyBegin(s: State, id: nat, secret: Secret, jkt: Thumbprint): State {
    if id in s.reqs || HashPending(s, Sha256(secret)) then s
    else s.(reqs := s.reqs[id := Request(secret, jkt, Opened)])
  }

  /** The compare-and-swap: it waits while another transaction holds the row. */
  function ApplyCas(s: State, id: nat): State
    requires id in s.reqs
  {
    var h := Sha256(s.reqs[id].secret);
    if !s.reqs[id].tx.Opened? || RowLocked(s, h) then s
    else if Active(s.rows, h) then SetTx(s, id, Rotating(s.rows[h], s.now, Swapped))
    else SetTx(s, id, Missed)
  }

  /** Expiry, key and user checks; a failed check drops the transaction. */
  function ApplyCheck(s: State, id: nat): State
    requires id in s.reqs
  {
    var r := s.reqs[id];
    if !(r.tx.Rotating? && r.tx.stage.Swapped?) then s
    else if r.tx.row.expiresAt <= s.now || r.tx.row.jkt != r.jkt || r.tx.row.user !in s.users then
      SetTx(s, id, Closed(Err(Unauthorized)))
    else SetTx(s, id, r.tx.(stage := Accepted(s.users[r.tx.row.user])))
  }

  /** Insert of a new secret's row: blocked by a pending equal hash, failed by a committed one. */
  function ApplyInsert(s: State, id: nat, succ: Secret): State
    requires id in s.reqs
  {
    var r := s.reqs[id];
    if !(r.tx.Rotating? && r.tx.stage.Accepted?) || HashPending(s, Sha256(succ)) || !Unguessed(s, succ) then s
    else if Sha256(succ) in s.rows then SetTx(s, id, Closed(Err(Internal)))
    else SetTx(s, id, r.tx.(stage := Inserted(r.tx.stage.publicId, succ)))
  }

  function ApplyCache(cfg: Config, s: State, id: nat, jti: Uuid): State
    requires id in s.reqs
  {
    var r := s.reqs[id];
    if !(r.tx.Rotating? && r.tx.stage.Inserted?) then s
    else
      var pair := Pair(IssueAccessToken(cfg.accessTtl, r.tx.stage.publicId, r.jkt, jti, s.now), r.tx.stage.succ);
      var key := GraceKey(r.tx.row.fam, Sha256(r.secret));
      SetTx(s, id, r.tx.(stage := Cached(pair, s.now)))
        .(grace := s.grace[key := Entry(pair, s.now)], dropped := s.dropped - {key})
  }

  /**
   Commit publishes the revoked row and its successor together; a failed commit publishes nothing. A
   commit that took effect may not be `heard` of: the connection breaks, or the request is cancelled.
   */
  function ApplyCommit(s: State, id: nat, ok: bool, heard: bool): State
    requires id in s.reqs
  {
    var r := s.reqs[id];
    if !(r.tx.Rotating? && r.tx.stage.Cached?) then s
    else if !ok then SetTx(s, id, Closed(Err(Internal)))
    else
      var h, row, pair := Sha256(r.secret), r.tx.row, r.tx.stage.pair;
      var succ := Row(row.user, row.fam, r.jkt, row.expiresAt, None);
      SetTx(s, id, Closed(if heard then Ok(pair) else Err(Internal)))
        .(rows := s.rows[h := row.(revokedAt := Some(r.tx.at))][Sha256(pair.refresh) := succ],
          chains := s.chains[row.fam := ChainOf(s, row.fam) + [Sha256(pair.refresh)]],
          log := s.log + [Rotated(id, h, pair, r.tx.stage.cachedAt)])
  }

  /** The loser's second query. */
  function ApplyFind(s: State, id: nat): State
    requires id in s.reqs
  {
    var h := Sha256(s.reqs[id].secret);
    if !s.reqs[id].tx.Missed? then s
    else if h in s.rows then SetTx(s, id, Found(s.rows[h].fam))
    else SetTx(s, id, Closed(Err(Unauthorized)))
  }

  /** The loser's look into the grace cache: a hit is replayed, a miss is reuse. */
  function ApplyProbe(cfg: Config, s: State, id: nat): State
    requires id in s.reqs
  {
    var r := s.reqs[id];
    if !r.tx.Found? then s
    else
      var h := Sha256(r.secret);
      var key := GraceKey(r.tx.fam, h);
      if Live(s.grace, cfg.grace, key, s.now) then
        SetTx(s, id, Closed(Ok(s.grace[key].value))).(log := s.log + [Replayed(id, h, s.grace[key].value)])
      else
        SetTx(s, id, Alarmed(r.tx.fam, s.now)).(log := s.log + [Alarm(id, h, s.now, key in s.dropped)])
  }

  function ActiveRows(rows: Table, fam: Uuid): set<Digest> {
    set h | h in rows && Active(rows, h) && rows[h].fam == fam
  }

  function StillActive(rows: Table, seen: set<Digest>): set<Digest> {
    set h | h in seen && Active(rows, h)
  }

  /** The family revoke starts: its snapshot shows the committed active rows of the family. */
  function ApplySurvey(s: State, id: nat): State
    requires id in s.reqs
  {
    var tx := s.reqs[id].tx;
    if !tx.Alarmed? then s
    else SetTx(s, id, Striking(tx.fam, ActiveRows(s.rows, tx.fam), tx.at))
  }

  /** It waits for the rows of its snapshot that another transaction holds, and then locks those still active. */
  function ApplyStrike(s: State, id: nat): State
    requires id in s.reqs
  {
    var tx := s.reqs[id].tx;
    if !tx.Striking? || exists h | h in tx.seen :: Active(s.rows, h) && RowLocked(s, h) then s
    else SetTx(s, id, Struck(tx.fam, tx.seen, StillActive(s.rows, tx.seen), tx.at))
  }

  function ApplyCommitAlarm(s: State, id: nat, ok: bool, heard: bool): State
    requires id in s.reqs
  {
    var r := s.reqs[id];
    if !r.tx.Struck? then s
    else if !ok then SetTx(s, id, Closed(Err(Internal)))
    else
      SetTx(s, id, Closed(Err(if heard then Unauthorized else Internal)))
        .(rows := RevokeWhere(s.rows, r.tx.hit, r.tx.at))
  }

  function ApplyCancel(s: State, id: nat): State
    requires id in s.reqs
  {
    if s.reqs[id].tx.Closed? then s else SetTx(s, id, Closed(Err(Internal)))
  }

  function ApplyMove(cfg: Config, s: State, id: nat, move: Move): State
    requires id in s.reqs
  {
    match move
    case Cas => ApplyCas(s, id)
    case Check => ApplyCheck(s, id)
    case Insert(succ) => ApplyInsert(s, id, succ)
    case Cache(jti) => ApplyCache(cfg, s, id, jti)
    case Commit(ok, heard) => ApplyCommit(s, id, ok, heard)
    case Find => ApplyFind(s, id)
    case Probe => ApplyProbe(cfg, s, id)
    case Survey => ApplySurvey(s, id)
    case Strike => ApplyStrike(s, id)
    case CommitAlarm(ok, heard) => ApplyCommitAlarm(s, id, ok, heard)
    case Cancel => ApplyCancel(s, id)
  }

  /** A step that is blocked, or not the request's next one, changes nothing. */
  function Apply(cfg: Config, s: State, step: Step): State {
    match step
    case Tick(to) => if s.now <= to then s.(now := to) else s
    case AddUser(user, publicId) => if user in s.users then s else s.(users := s.users[user := publicId])
    case DeleteUser(user) => s.(users := s.users - {user})
    case Login(user, jkt, fam, secret, expiresAt) => ApplyLogin(s, user, jkt, fam, secret, expiresAt)
    case Revoke(which) => ApplyRevoke(s, which)
    case Evict(key) => s.(grace := s.grace - {key}, dropped := s.dropped + {key})
    case Begin(id, secret, jkt) => ApplyBegin(s, id, secret, jkt)
    case Act(id, move) => if id in s.reqs then ApplyMove(cfg, s, id, move) else s
  }

  const Init: State := State(0, map[], map[], map[], map[], map[], {}, [])

  function Run(cfg: Config, steps: seq<Step>): State {
    if steps == [] then Init
    else Apply(cfg, Run(cfg, steps[..|steps| - 1]), steps[|steps| - 1])
  }

  // ----- What one statement touches -----

  predicate AboutToCommit(r: Request) {
    r.tx.Rotating? && r.tx.stage.Cached?
  }

  /** A statement touches its own request only; the grace cache only by caching, the table only by committing. */
  predicate FrameOk(s: State, t: State, id: nat, move: Move) {
    && id in s.reqs && id in t.reqs && t.reqs == s.reqs[id := t.reqs[id]] && t.now == s.now
    && (!move.Cache? ==>
          && t.grace == s.grace && t.dropped == s.dropped
          && (AboutToCommit(t.reqs[id]) ==> t.reqs[id] == s.reqs[id]))
    && (!move.Commit? && !move.CommitAlarm? ==> t.rows == s.rows)
    && (!move.Commit? ==> t.chains == s.chains)
    && (!move.Commit? && !move.Probe? ==> t.log == s.log)
  }

  lemma QueryFrame(cfg: Config, s: State, id: nat)
    requires id in s.reqs
    ensures FrameOk(s, ApplyFind(s, id), id, Find) && FrameOk(s, ApplyProbe(cfg, s, id), id, Probe)
  {
  }

  lemma StrikeFrame(s: State, id: nat)
    requires id in s.reqs
    ensures FrameOk(s, ApplySurvey(s, id), id, Survey) && FrameOk(s, ApplyStrike(s, id), id, Strike)
  {
  }

  lemma CheckFrame(s: State, id: nat)
    requires id in s.reqs
    ensures FrameOk(s, ApplyCas(s, id), id, Cas) && FrameOk(s, ApplyCheck(s, id), id, Check)
  {
  }

  lemma CommitFrame(s: State, id: nat, ok: bool, heard: bool)
    requires id in s.reqs
    ensures FrameOk(s, ApplyCommit(s, id, ok, heard), id, Commit(ok, heard))
  {
  }

  lemma CommitAlarmFrame(s: State, id: nat, ok: bool, heard: bool)
    requires id in s.reqs
    ensures FrameOk(s, ApplyCommitAlarm(s, id, ok, heard), id, CommitAlarm(ok, heard))
  {
  }

  lemma WriteFrame(cfg: Config, s: State, id: nat, succ: Secret, jti: Uuid)
    requires id in s.reqs
    ensures FrameOk(s, ApplyInsert(s, id, succ), id, Insert(succ))
            && FrameOk(s, ApplyCache(cfg, s, id, jti), id, Cache(jti))
  {
  }

  lemma MoveFrame(cfg: Config, s: State, id: nat, move: Move)
    requires id in s.reqs
    ensures FrameOk(s, ApplyMove(cfg, s, id, move), id, move)
  {
    match move
    case Cas => CheckFrame(s, id);
    case Check => CheckFrame(s, id);
    case Find => QueryFrame(cfg, s, id);
    case Probe => QueryFrame(cfg, s, id);
    case Survey => StrikeFrame(s, id);
    case Strike => StrikeFrame(s, id);
    case Commit(ok, heard) => CommitFrame(s, id, ok, heard);
    case CommitAlarm(ok, heard) => CommitAlarmFrame(s, id, ok, heard);
    case Insert(succ) => WriteFrame(cfg, s, id, succ, 0);
    case Cache(jti) => WriteFrame(cfg, s, id, 0, jti);
    case Cancel =>
  }

  // ----- Row locks -----

  /** A rotating request's copy of the row is still the committed one, and what an alarm has hit is still active. */
  predicate RequestOk(rows: Table, r: Request) {
    && (r.tx.Rotating? ==>
          && Active(rows, Sha256(r.secret)) && rows[Sha256(r.secret)] == r.tx.row
          && (!r.tx.stage.Swapped? ==> r.tx.row.jkt == r.jkt))
    && (r.tx.Struck? ==> forall h | h in r.tx.hit :: Active(rows, h))
  }

  ghost predicate LocksExclusive(reqs: map<nat, Request>) {
    forall i, j, h :: i in reqs && j in reqs && i != j && Holds(reqs[i], h) ==> !Holds(reqs[j], h)
  }

  ghost predicate InsertsExclusive(reqs: map<nat, Request>) {
    forall i, j, h :: i in reqs && j in reqs && i != j && InsertPending(reqs[i], h) ==> !InsertPending(reqs[j], h)
  }

  ghost predicate LocksOk(s: State) {
    && (forall id :: id in s.reqs ==> RequestOk(s.rows, s.reqs[id]))
    && LocksExclusive(s.reqs)
    && InsertsExclusive(s.reqs)
    && (forall id, h :: id in s.reqs && InsertPending(s.reqs[id], h) ==> h !in s.rows)
  }

  /** A move of one request that locks no further row and inserts no further hash. */
  predicate QuietMove(r: Request, tx: Tx) {
    || tx.Closed? || tx.Missed? || tx.Found? || tx.Alarmed? || tx.Striking?
    || (&& r.tx.Rotating? && tx.Rotating? && tx.row == r.tx.row
        && (tx.stage.Accepted? ==> r.tx.row.jkt == r.jkt)
        && (tx.stage.Cached? ==> r.tx.stage.Inserted? && tx.stage.pair.refresh == r.tx.stage.succ)
        && (tx.stage.Accepted? || tx.stage.Cached?))
  }

  lemma QuietMoveKeepsLocks(s: State, id: nat, tx: Tx)
    requires LocksOk(s) && id in s.reqs && QuietMove(s.reqs[id], tx)
    ensures LocksOk(SetTx(s, id, tx))
  {
  }

  lemma CasKeepsLocks(s: State, id: nat)
    requires LocksOk(s) && id in s.reqs
    ensures LocksOk(ApplyCas(s, id))
  {
    var h := Sha256(s.reqs[id].secret);
    if s.reqs[id].tx.Opened? && !RowLocked(s, h) && Active(s.rows, h) {
      var t := SetTx(s, id, Rotating(s.rows[h], s.now, Swapped));
      forall j, g | j in t.reqs && j != id && Holds(t.reqs[id], g)
        ensures !Holds(t.reqs[j], g)
      {
        assert g == h && t.reqs[j] == s.reqs[j];
      }
    }
  }

  lemma InsertKeepsLocks(s: State, id: nat, succ: Secret)
    requires LocksOk(s) && id in s.reqs
    ensures LocksOk(ApplyInsert(s, id, succ))
  {
    var r := s.reqs[id];
    if r.tx.Rotating? && r.tx.stage.Accepted? && !HashPending(s, Sha256(succ)) && Unguessed(s, succ)
       && Sha256(succ) !in s.rows {
      var t := SetTx(s, id, r.tx.(stage := Inserted(r.tx.stage.publicId, succ)));
      forall j, g | j in t.reqs && j != id && InsertPending(t.reqs[id], g)
        ensures !InsertPending(t.reqs[j], g)
      {
        assert g == Sha256(succ) && t.reqs[j] == s.reqs[j];
      }
    }
  }

  /** Other transactions keep what they hold across a commit: the locks keep the commit off their rows. */
  lemma CommitKeepsLocks(s: State, id: nat, heard: bool)
    requires LocksOk(s) && id in s.reqs
    ensures LocksOk(ApplyCommit(s, id, true, heard))
  {
    var r := s.reqs[id];
    if r.tx.Rotating? && r.tx.stage.Cached? {
      var t := ApplyCommit(s, id, true, heard);
      var h, n := Sha256(r.secret), Sha256(r.tx.stage.pair.refresh);
      assert Holds(r, h) && InsertPending(r, n);
      forall j | j in t.reqs
        ensures RequestOk(t.rows, t.reqs[j])
      {
        if j != id {
          assert t.reqs[j] == s.reqs[j] && !Holds(s.reqs[j], h) && RequestOk(s.rows, s.reqs[j]);
        }
      }
    }
  }

  lemma RevokeKeepsLocks(s: State, which: set<Digest>, now: nat)
    requires LocksOk(s)
    requires forall h :: h in which ==> !RowLocked(s, h)
    ensures LocksOk(s.(rows := RevokeWhere(s.rows, which, now)))
  {
  }

  lemma CommitAlarmKeepsLocks(s: State, id: nat, heard: bool)
    requires LocksOk(s) && id in s.reqs
    ensures LocksOk(ApplyCommitAlarm(s, id, true, heard))
  {
    var r := s.reqs[id];
    if r.tx.Struck? {
      var closed := Closed(Err(if heard then Unauthorized else Internal));
      var t := SetTx(s, id, closed);
      QuietMoveKeepsLocks(s, id, closed);
      forall h | h in r.tx.hit
        ensures !RowLocked(t, h)
      {
        assert Holds(r, h);
      }
      RevokeKeepsLocks(t, r.tx.hit, r.tx.at);
    }
  }

  /** A family revoke never takes a row that another transaction holds. */
  lemma StrikeKeepsLocks(s: State, id: nat)
    requires LocksOk(s) && id in s.reqs
    ensures LocksOk(ApplyStrike(s, id))
  {
    var t := ApplyStrike(s, id);
    if t != s {
      forall j, g | j in t.reqs && j != id && Holds(t.reqs[id], g)
        ensures !Holds(t.reqs[j], g)
      {
        assert t.reqs[j] == s.reqs[j] && !RowLocked(s, g);
      }
    }
  }

  lemma LoginKeepsLocks(s: State, user: Uuid, jkt: Thumbprint, fam: Uuid, secret: Secret, expiresAt: nat)
    requires LocksOk(s)
    ensures LocksOk(ApplyLogin(s, user, jkt, fam, secret, expiresAt))
  {
  }

  lemma QuietStepsKeepLocks(cfg: Config, s: State, id: nat, jti: Uuid)
    requires LocksOk(s) && id in s.reqs
    ensures LocksOk(ApplyCheck(s, id)) && LocksOk(ApplyFind(s, id)) && LocksOk(ApplyCache(cfg, s, id, jti))
    ensures LocksOk(ApplyProbe(cfg, s, id)) && LocksOk(ApplySurvey(s, id))
  {
    assert RequestOk(s.rows, s.reqs[id]);
    var t := ApplyCheck(s, id);
    if t != s { QuietMoveKeepsLocks(s, id, t.reqs[id].tx); }
    t := ApplyFind(s, id);
    if t != s { QuietMoveKeepsLocks(s, id, t.reqs[id].tx); }
    t := ApplyCache(cfg, s, id, jti);
    if t != s { QuietMoveKeepsLocks(s, id, t.reqs[id].tx); }
    t := ApplyProbe(cfg, s, id);
    if t != s { QuietMoveKeepsLocks(s, id, t.reqs[id].tx); }
    t := ApplySurvey(s, id);
    if t != s { QuietMoveKeepsLocks(s, id, t.reqs[id].tx); }
  }

  lemma MoveKeepsLocks(cfg: Config, s: State, id: nat, move: Move)
    requires LocksOk(s) && id in s.reqs
    ensures LocksOk(ApplyMove(cfg, s, id, move))
  {
    match move
    case Cas => CasKeepsLocks(s, id);
    case Check => QuietStepsKeepLocks(cfg, s, id, 0);
    case Find => QuietStepsKeepLocks(cfg, s, id, 0);
    case Cache(jti) => QuietStepsKeepLocks(cfg, s, id, jti);
    case Insert(succ) => InsertKeepsLocks(s, id, succ);
    case Commit(ok, heard) =>
      if ok { CommitKeepsLocks(s, id, heard); } else { QuietMoveKeepsLocks(s, id, Closed(Err(Internal))); }
    case Probe => QuietStepsKeepLocks(cfg, s, id, 0);
    case Survey => QuietStepsKeepLocks(cfg, s, id, 0);
    case Strike => StrikeKeepsLocks(s, id);
    case CommitAlarm(ok, heard) =>
      if ok { CommitAlarmKeepsLocks(s, id, heard); } else { QuietMoveKeepsLocks(s, id, Closed(Err(Internal))); }
    case Cancel => QuietMoveKeepsLocks(s, id, Closed(Err(Internal)));
  }

  lemma StepKeepsLocks(cfg: Config, s: State, step: Step)
    requires LocksOk(s)
    ensures LocksOk(Apply(cfg, s, step))
  {
    match step
    case Login(user, jkt, fam, secret, expiresAt) => LoginKeepsLocks(s, user, jkt, fam, secret, expiresAt);
    case Revoke(which) =>
      if forall h | h in which :: !RowLocked(s, h) { RevokeKeepsLocks(s, which, s.now); }
    case Act(id, move) => if id in s.reqs { MoveKeepsLocks(cfg, s, id, move); }
    case _ =>
  }

  // ----- Families -----

  /** A family's rows in commit order: one session, no repetition, and only the last can be active. */
  ghost predicate ChainOk(rows: Table, fam: Uuid, chain: seq<Digest>) {
    && |chain| > 0
    && (forall i :: 0 <= i < |chain| ==> chain[i] in rows && rows[chain[i]].fam == fam)
    && (forall i :: 0 <= i < |chain| ==> SameSession(rows[chain[0]], rows[chain[i]]))
    && (forall i, j :: 0 <= i < j < |chain| ==> chain[i] != chain[j])
    && (forall i :: 0 <= i < |chain| - 1 ==> rows[chain[i]].revokedAt.Some?)
  }

  ghost predicate ChainsOk(rows: Table, chains: map<Uuid, seq<Digest>>) {
    && (forall fam :: fam in chains ==> ChainOk(rows, fam, chains[fam]))
    && (forall h :: h in rows ==> rows[h].fam in chains && h in chains[rows[h].fam])
  }

  lemma RevokeKeepsChains(rows: Table, chains: map<Uuid, seq<Digest>>, which: set<Digest>, now: nat)
    requires ChainsOk(rows, chains)
    ensures ChainsOk(RevokeWhere(rows, which, now), chains)
  {
    forall fam | fam in chains
      ensures ChainOk(RevokeWhere(rows, which, now), fam, chains[fam])
    {
      assert ChainOk(rows, fam, chains[fam]);
    }
  }

  lemma LoginKeepsChains(rows: Table, chains: map<Uuid, seq<Digest>>, h: Digest, row: Row)
    requires ChainsOk(rows, chains) && row.fam !in chains && h !in rows
    ensures ChainsOk(rows[h := row], chains[row.fam := [h]])
  {
  }

  /** Only the last row of a family can be active. */
  lemma ActiveIsLast(rows: Table, chains: map<Uuid, seq<Digest>>, h: Digest)
    requires ChainsOk(rows, chains) && Active(rows, h)
    ensures var chain := chains[rows[h].fam]; |chain| > 0 && chain[|chain| - 1] == h
  {
  }

  /** So a rotation extends its family's chain at the end. */
  lemma RotationKeepsChains(rows: Table, chains: map<Uuid, seq<Digest>>, h: Digest, at: nat, n: Digest)
    requires ChainsOk(rows, chains) && Active(rows, h) && n !in rows
    ensures var fam := rows[h].fam;
            ChainsOk(rows[h := rows[h].(revokedAt := Some(at))][n := rows[h]], chains[fam := chains[fam] + [n]])
  {
    var fam := rows[h].fam;
    var rows', chains' := rows[h := rows[h].(revokedAt := Some(at))][n := rows[h]], chains[fam := chains[fam] + [n]];
    ActiveIsLast(rows, chains, h);
    forall f | f in chains'
      ensures ChainOk(rows', f, chains'[f])
    {
      assert ChainOk(rows, f, chains[f]);
      if f != fam {
        assert forall i :: 0 <= i < |chains[f]| ==> chains[f][i] != h;
      }
    }
    forall g | g in rows'
      ensures g in chains'[rows'[g].fam]
    {
      if g == n { assert chains'[fam][|chains[fam]|] == n; }
    }
  }

  lemma MoveKeepsChains(cfg: Config, s: State, id: nat, move: Move)
    requires ChainsOk(s.rows, s.chains) && LocksOk(s) && id in s.reqs
    ensures var t := ApplyMove(cfg, s, id, move); ChainsOk(t.rows, t.chains)
  {
    var r := s.reqs[id];
    assert RequestOk(s.rows, r);
    match move
    case Commit(ok, _) =>
      if ok && AboutToCommit(r) {
        assert InsertPending(r, Sha256(r.tx.stage.pair.refresh));
        RotationKeepsChains(s.rows, s.chains, Sha256(r.secret), r.tx.at, Sha256(r.tx.stage.pair.refresh));
      }
    case CommitAlarm(_, _) => if r.tx.Struck? { RevokeKeepsChains(s.rows, s.chains, r.tx.hit, r.tx.at); }
    case _ => MoveFrame(cfg, s, id, move);
  }

  lemma StepKeepsChains(cfg: Config, s: State, step: Step)
    requires ChainsOk(s.rows, s.chains) && LocksOk(s)
    ensures var t := Apply(cfg, s, step); ChainsOk(t.rows, t.chains)
  {
    match step
    case Login(user, jkt, fam, secret, expiresAt) =>
      if fam !in s.chains && Sha256(secret) !in s.rows {
        LoginKeepsChains(s.rows, s.chains, Sha256(secret), Row(user, fam, jkt, expiresAt, None));
      }
    case Revoke(which) => RevokeKeepsChains(s.rows, s.chains, which, s.now);
    case Act(id, move) => if id in s.reqs { MoveKeepsChains(cfg, s, id, move); }
    case _ =>
  }

  // ----- Losers of the compare-and-swap -----

  predicate LoserOk(rows: Table, r: Request) {
    var h := Sha256(r.secret);
    && (r.tx.Missed? ==> !Active(rows, h))
    && (r.tx.Found? || r.tx.Alarmed? || r.tx.Striking? || r.tx.Struck? ==>
          h in rows && rows[h].revokedAt.Some? && rows[h].fam == r.tx.fam)
  }

  ghost predicate LosersOk(s: State) {
    && (forall id :: id in s.reqs ==> LoserOk(s.rows, s.reqs[id]))
    && (forall i, j :: i in s.reqs && j in s.reqs ==> !InsertPending(s.reqs[i], Sha256(s.reqs[j].secret)))
  }

  lemma SetTxKeepsLosers(s: State, id: nat, tx: Tx)
    requires LosersOk(s) && id in s.reqs && LoserOk(s.rows, s.reqs[id].(tx := tx))
    requires forall j :: j in s.reqs ==> !InsertPending(s.reqs[id].(tx := tx), Sha256(s.reqs[j].secret))
    ensures LosersOk(SetTx(s, id, tx))
  {
  }

  lemma OpeningKeepsLosers(s: State, id: nat)
    requires LosersOk(s) && id in s.reqs
    ensures LosersOk(ApplyCas(s, id)) && LosersOk(ApplyCheck(s, id)) && LosersOk(ApplyFind(s, id))
  {
    assert LoserOk(s.rows, s.reqs[id]);
    var t := ApplyCas(s, id);
    if t != s { SetTxKeepsLosers(s, id, t.reqs[id].tx); }
    t := ApplyCheck(s, id);
    if t != s { SetTxKeepsLosers(s, id, t.reqs[id].tx); }
    t := ApplyFind(s, id);
    if t != s { SetTxKeepsLosers(s, id, t.reqs[id].tx); }
  }

  lemma WriteKeepsLosers(cfg: Config, s: State, id: nat, succ: Secret, jti: Uuid)
    requires LosersOk(s) && id in s.reqs
    ensures LosersOk(ApplyInsert(s, id, succ)) && LosersOk(ApplyCache(cfg, s, id, jti))
  {
    var t := ApplyInsert(s, id, succ);
    if t != s { SetTxKeepsLosers(s, id, t.reqs[id].tx); }
    t := ApplyCache(cfg, s, id, jti);
    if t != s {
      forall j | j in s.reqs ensures !InsertPending(t.reqs[id], Sha256(s.reqs[j].secret)) {
        assert !InsertPending(s.reqs[id], Sha256(s.reqs[j].secret));
      }
      SetTxKeepsLosers(s, id, t.reqs[id].tx);
    }
  }

  lemma ClosingKeepsLosers(cfg: Config, s: State, id: nat)
    requires LosersOk(s) && id in s.reqs
    ensures LosersOk(ApplyProbe(cfg, s, id)) && LosersOk(ApplyCancel(s, id))
    ensures LosersOk(ApplySurvey(s, id)) && LosersOk(ApplyStrike(s, id))
  {
    assert LoserOk(s.rows, s.reqs[id]);
    var t := ApplyProbe(cfg, s, id);
    if t != s { SetTxKeepsLosers(s, id, t.reqs[id].tx); }
    t := ApplyCancel(s, id);
    if t != s { SetTxKeepsLosers(s, id, t.reqs[id].tx); }
    t := ApplySurvey(s, id);
    if t != s { SetTxKeepsLosers(s, id, t.reqs[id].tx); }
    t := ApplyStrike(s, id);
    if t != s { SetTxKeepsLosers(s, id, t.reqs[id].tx); }
  }

  /** No loser waits on the row that a commit publishes: nobody has presented its secret yet. */
  lemma PublishKeepsLosers(s: State, rows': Table)
    requires LosersOk(s) && OnlyRevokes(s.rows, rows')
    requires forall id :: id in s.reqs && Sha256(s.reqs[id].secret) in rows' ==> Sha256(s.reqs[id].secret) in s.rows
    ensures LosersOk(s.(rows := rows'))
  {
  }

  lemma CommitKeepsLosers(s: State, id: nat, ok: bool, heard: bool)
    requires LosersOk(s) && LocksOk(s) && id in s.reqs
    ensures LosersOk(ApplyCommit(s, id, ok, heard))
  {
  }

  lemma CommitAlarmKeepsLosers(s: State, id: nat, ok: bool, heard: bool)
    requires LosersOk(s) && id in s.reqs
    ensures LosersOk(ApplyCommitAlarm(s, id, ok, heard))
  {
  }

  lemma MoveKeepsLosers(cfg: Config, s: State, id: nat, move: Move)
    requires LosersOk(s) && LocksOk(s) && id in s.reqs
    ensures LosersOk(ApplyMove(cfg, s, id, move))
  {
    match move
    case Commit(ok, heard) => CommitKeepsLosers(s, id, ok, heard);
    case CommitAlarm(ok, heard) => CommitAlarmKeepsLosers(s, id, ok, heard);
    case Insert(succ) => WriteKeepsLosers(cfg, s, id, succ, 0);
    case Cache(jti) => WriteKeepsLosers(cfg, s, id, 0, jti);
    case Probe => ClosingKeepsLosers(cfg, s, id);
    case Survey => ClosingKeepsLosers(cfg, s, id);
    case Strike => ClosingKeepsLosers(cfg, s, id);
    case Cancel => ClosingKeepsLosers(cfg, s, id);
    case _ => OpeningKeepsLosers(s, id);
  }

  lemma LoginKeepsLosers(s: State, user: Uuid, jkt: Thumbprint, fam: Uuid, secret: Secret, expiresAt: nat)
    requires LosersOk(s)
    ensures LosersOk(ApplyLogin(s, user, jkt, fam, secret, expiresAt))
  {
    PublishKeepsLosers(s, ApplyLogin(s, user, jkt, fam, secret, expiresAt).rows);
  }

  lemma StepKeepsLosers(cfg: Config, s: State, step: Step)
    requires LosersOk(s) && LocksOk(s)
    ensures LosersOk(Apply(cfg, s, step))
  {
    match step
    case Act(id, move) => if id in s.reqs { MoveKeepsLosers(cfg, s, id, move); }
    case Login(user, jkt, fam, secret, expiresAt) => LoginKeepsLosers(s, user, jkt, fam, secret, expiresAt);
    case Revoke(which) => if ApplyRevoke(s, which) != s { PublishKeepsLosers(s, RevokeWhere(s.rows, which, s.now)); }
    case _ =>
  }

  // ----- What a step can change -----

  /**
   A committed `revoked_at` is never cleared or overwritten and no row disappears; the grace entry of
   a token that is not active is never written again, and goes away only by eviction.
   */
  ghost predicate Evolves(s: State, t: State) {
    && OnlyRevokes(s.rows, t.rows)
    && s.now <= t.now
    && (forall key :: key in t.grace && !Active(s.rows, key.replaced) ==>
         key in s.grace && t.grace[key] == s.grace[key])
    && (forall key: GraceKey :: !Active(s.rows, key.replaced) && (key in s.grace || key in s.dropped) ==>
         key in t.grace || key in t.dropped)
  }

  lemma CommitEvolves(s: State, id: nat, ok: bool, heard: bool)
    requires LocksOk(s) && id in s.reqs
    ensures Evolves(s, ApplyCommit(s, id, ok, heard))
  {
  }

  lemma CacheEvolves(cfg: Config, s: State, id: nat, jti: Uuid)
    requires LocksOk(s) && id in s.reqs
    ensures Evolves(s, ApplyCache(cfg, s, id, jti))
  {
  }

  lemma MoveEvolves(cfg: Config, s: State, id: nat, move: Move)
    requires LocksOk(s) && id in s.reqs
    ensures Evolves(s, ApplyMove(cfg, s, id, move))
  {
    match move
    case Commit(ok, heard) => CommitEvolves(s, id, ok, heard);
    case Cache(jti) => CacheEvolves(cfg, s, id, jti);
    case CommitAlarm(ok, heard) =>
      var t := ApplyCommitAlarm(s, id, ok, heard);
      assert OnlyRevokes(s.rows, t.rows);
    case _ => MoveFrame(cfg, s, id, move);
  }

  lemma LoginEvolves(s: State, user: Uuid, jkt: Thumbprint, fam: Uuid, secret: Secret, expiresAt: nat)
    ensures Evolves(s, ApplyLogin(s, user, jkt, fam, secret, expiresAt))
  {
  }

  lemma RevokeEvolves(s: State, which: set<Digest>)
    ensures Evolves(s, ApplyRevoke(s, which))
  {
  }

  lemma StepEvolves(cfg: Config, s: State, step: Step)
    requires LocksOk(s)
    ensures Evolves(s, Apply(cfg, s, step))
  {
    match step
    case Act(id, move) => if id in s.reqs { MoveEvolves(cfg, s, id, move); }
    case Login(user, jkt, fam, secret, expiresAt) => LoginEvolves(s, user, jkt, fam, secret, expiresAt);
    case Revoke(which) => RevokeEvolves(s, which);
    case Begin(_, _, _) => assert OnlyRevokes(s.rows, s.rows);
    case _ =>
  }

  // ----- The grace cache and the answers -----

  /** While a rotation is about to commit, the grace entry of its token is the pair it will return. */
  predicate WinnerOk(s: State, r: Request) {
    r.tx.Rotating? && r.tx.stage.Cached? ==>
      var key := GraceKey(r.tx.row.fam, Sha256(r.secret));
      && (key in s.grace ==> s.grace[key] == Entry(r.tx.stage.pair, r.tx.stage.cachedAt))
      && (key in s.grace || key in s.dropped)
      && r.tx.stage.cachedAt <= s.now
  }

  ghost predicate WinnersOk(s: State) {
    forall id :: id in s.reqs ==> WinnerOk(s, s.reqs[id])
  }

  lemma CacheKeepsWinners(cfg: Config, s: State, id: nat, jti: Uuid)
    requires WinnersOk(s) && LocksOk(s) && id in s.reqs
    ensures WinnersOk(ApplyCache(cfg, s, id, jti))
  {
    var t := ApplyCache(cfg, s, id, jti);
    forall j | j in t.reqs
      ensures WinnerOk(t, t.reqs[j])
    {
      assert WinnerOk(s, s.reqs[j]);
      if j != id && t != s && s.reqs[j].tx.Rotating? {
        assert Holds(s.reqs[id], Sha256(s.reqs[id].secret));
      }
    }
  }

  lemma MoveKeepsWinners(cfg: Config, s: State, id: nat, move: Move)
    requires WinnersOk(s) && LocksOk(s) && id in s.reqs
    ensures WinnersOk(ApplyMove(cfg, s, id, move))
  {
    if move.Cache? {
      CacheKeepsWinners(cfg, s, id, move.jti);
    } else {
      var t := ApplyMove(cfg, s, id, move);
      MoveFrame(cfg, s, id, move);
      forall j | j in t.reqs ensures WinnerOk(t, t.reqs[j]) { assert j in s.reqs && WinnerOk(s, s.reqs[j]); }
    }
  }

  lemma StepKeepsWinners(cfg: Config, s: State, step: Step)
    requires WinnersOk(s) && LocksOk(s)
    ensures WinnersOk(Apply(cfg, s, step))
  {
    if step.Act? {
      if step.id in s.reqs { MoveKeepsWinners(cfg, s, step.id, step.move); }
    } else {
      var t := Apply(cfg, s, step);
      forall j | j in t.reqs ensures WinnerOk(t, t.reqs[j]) { assert j in s.reqs ==> WinnerOk(s, s.reqs[j]); }
    }
  }

  predicate IsAnswer(e: Event) {
    e.Rotated? || e.Replayed?
  }

  /** A token once answered is revoked, and what the grace cache still holds for it is that answer. */
  predicate EventOk(s: State, e: Event) {
    IsAnswer(e) ==>
      && e.token in s.rows && s.rows[e.token].revokedAt.Some?
      && var key := GraceKey(s.rows[e.token].fam, e.token);
         && (key in s.grace ==> s.grace[key].value == e.pair)
         && (e.Rotated? ==> && (key in s.grace ==> s.grace[key].at == e.cachedAt)
                            && (key in s.grace || key in s.dropped))
  }

  ghost predicate EventsOk(s: State) {
    forall i :: 0 <= i < |s.log| ==> EventOk(s, s.log[i])
  }

  /** Every two answers for one token carry the same pair, and at most one of them is a rotation. */
  ghost predicate AnswersAgree(log: seq<Event>) {
    forall i, j :: 0 <= i < j < |log| && IsAnswer(log[i]) && IsAnswer(log[j]) && log[i].token == log[j].token
      ==> log[i].pair == log[j].pair && !log[j].Rotated?
  }

  /** After a rotation, reuse is detected only once the grace period is over or the entry was evicted. */
  ghost predicate AlarmsJustified(cfg: Config, log: seq<Event>) {
    forall i, j :: 0 <= i < j < |log| && log[i].Rotated? && log[j].Alarm? && log[i].token == log[j].token
      ==> log[i].cachedAt + cfg.grace <= log[j].at || log[j].dropped
  }

  lemma EvolutionKeepsEvents(s: State, t: State)
    requires EventsOk(s) && Evolves(s, t)
    ensures forall i :: 0 <= i < |s.log| ==> EventOk(t, s.log[i])
  {
  }

  ghost predicate HistoryOk(cfg: Config, s: State) {
    EventsOk(s) && AnswersAgree(s.log) && AlarmsJustified(cfg, s.log)
  }

  lemma CommitKeepsHistory(cfg: Config, s: State, id: nat, heard: bool)
    requires HistoryOk(cfg, s) && LocksOk(s) && WinnersOk(s) && id in s.reqs
    ensures HistoryOk(cfg, ApplyCommit(s, id, true, heard))
  {
  }

  /** The pair a loser is given is the one every earlier answer carried; without one, any earlier rotation is stale. */
  lemma ProbeAnswer(cfg: Config, s: State, id: nat, i: nat)
    requires EventsOk(s) && LosersOk(s) && id in s.reqs && s.reqs[id].tx.Found? && i < |s.log|
    requires IsAnswer(s.log[i]) && s.log[i].token == Sha256(s.reqs[id].secret)
    ensures var key := GraceKey(s.reqs[id].tx.fam, Sha256(s.reqs[id].secret));
            if Live(s.grace, cfg.grace, key, s.now) then s.grace[key].value == s.log[i].pair
            else s.log[i].Rotated? ==> s.log[i].cachedAt + cfg.grace <= s.now || key in s.dropped
  {
  }

  lemma ProbeKeepsHistory(cfg: Config, s: State, id: nat)
    requires HistoryOk(cfg, s) && LocksOk(s) && LosersOk(s) && id in s.reqs
    ensures HistoryOk(cfg, ApplyProbe(cfg, s, id))
  {
  }

  lemma LoginKeepsHistory(cfg: Config, s: State, step: Step)
    requires HistoryOk(cfg, s) && LocksOk(s) && step.Login?
    ensures HistoryOk(cfg, Apply(cfg, s, step))
  {
    StepEvolves(cfg, s, step);
    EvolutionKeepsEvents(s, Apply(cfg, s, step));
  }

  lemma StepKeepsHistory(cfg: Config, s: State, step: Step)
    requires HistoryOk(cfg, s) && LocksOk(s) && LosersOk(s) && WinnersOk(s)
    ensures HistoryOk(cfg, Apply(cfg, s, step))
  {
    if step.Login? {
      LoginKeepsHistory(cfg, s, step);
    } else if step.Act? && step.id in s.reqs && step.move.Commit? && step.move.ok {
      CommitKeepsHistory(cfg, s, step.id, step.move.heard);
    } else if step.Act? && step.id in s.reqs && step.move.Probe? {
      ProbeKeepsHistory(cfg, s, step.id);
    } else {
      var t := Apply(cfg, s, step);
      assert t.log == s.log;
      StepEvolves(cfg, s, step);
      EvolutionKeepsEvents(s, t);
    }
  }

  // ----- Chains record exactly the committed rotations -----

  ghost predicate Follows(chain: seq<Digest>, a: Digest, b: Digest) {
    exists i :: 0 <= i < |chain| - 1 && chain[i] == a && chain[i + 1] == b
  }

  ghost predicate RotatedInto(log: seq<Event>, a: Digest, b: Digest) {
    exists k :: 0 <= k < |log| && log[k].Rotated? && log[k].token == a && Sha256(log[k].pair.refresh) == b
  }

  /** In the chain of any family, `b` comes directly after `a` iff a request committed the rotation of `a` into `b`. */
  ghost predicate LinksOk(chains: map<Uuid, seq<Digest>>, log: seq<Event>) {
    && (forall fam, i, j :: fam in chains && 0 <= i < j < |chains[fam]| && j == i + 1
          ==> RotatedInto(log, chains[fam][i], chains[fam][j]))
    && (forall k :: 0 <= k < |log| && log[k].Rotated? ==> Linked(chains, log[k].token, Sha256(log[k].pair.refresh)))
  }

  ghost predicate Linked(chains: map<Uuid, seq<Digest>>, a: Digest, b: Digest) {
    exists fam :: fam in chains && Follows(chains[fam], a, b)
  }

  lemma ExtensionKeepsFollows(chain: seq<Digest>, n: Digest, a: Digest, b: Digest)
    requires Follows(chain, a, b)
    ensures Follows(chain + [n], a, b)
  {
    var i :| 0 <= i < |chain| - 1 && chain[i] == a && chain[i + 1] == b;
    assert (chain + [n])[i] == a && (chain + [n])[i + 1] == b;
  }

  lemma LogGrowthKeepsRotated(log: seq<Event>, e: Event, a: Digest, b: Digest)
    requires RotatedInto(log, a, b)
    ensures RotatedInto(log + [e], a, b)
  {
    var k :| 0 <= k < |log| && log[k].Rotated? && log[k].token == a && Sha256(log[k].pair.refresh) == b;
    assert (log + [e])[k] == log[k];
  }

  lemma ExtensionKeepsLinked(chains: map<Uuid, seq<Digest>>, fam: Uuid, n: Digest, a: Digest, b: Digest)
    requires fam in chains && Linked(chains, a, b)
    ensures Linked(chains[fam := chains[fam] + [n]], a, b)
  {
    var f :| f in chains && Follows(chains[f], a, b);
    var chains' := chains[fam := chains[fam] + [n]];
    if f == fam { ExtensionKeepsFollows(chains[f], n, a, b); }
    assert Follows(chains'[f], a, b);
  }

  lemma RotationKeepsLinks(chains: map<Uuid, seq<Digest>>, log: seq<Event>, fam: Uuid, e: Event)
    requires LinksOk(chains, log) && e.Rotated?
    requires fam in chains && |chains[fam]| > 0 && chains[fam][|chains[fam]| - 1] == e.token
    ensures LinksOk(chains[fam := chains[fam] + [Sha256(e.pair.refresh)]], log + [e])
  {
    var n, log' := Sha256(e.pair.refresh), log + [e];
    var chains' := chains[fam := chains[fam] + [n]];
    forall f, i, j | f in chains' && 0 <= i < j < |chains'[f]| && j == i + 1
      ensures RotatedInto(log', chains'[f][i], chains'[f][j])
    {
      if f == fam && i == |chains[fam]| - 1 {
        assert log'[|log|] == e;
      } else {
        LogGrowthKeepsRotated(log, e, chains[f][i], chains[f][j]);
      }
    }
    forall k | 0 <= k < |log'| && log'[k].Rotated?
      ensures Linked(chains', log'[k].token, Sha256(log'[k].pair.refresh))
    {
      if k == |log| {
        assert chains'[fam][|chains[fam]| - 1] == e.token && chains'[fam][|chains[fam]|] == n;
        assert Follows(chains'[fam], e.token, n);
      } else {
        ExtensionKeepsLinked(chains, fam, n, log[k].token, Sha256(log[k].pair.refresh));
      }
    }
  }

  lemma OtherEventKeepsLinks(chains: map<Uuid, seq<Digest>>, log: seq<Event>, e: Event)
    requires LinksOk(chains, log) && !e.Rotated?
    ensures LinksOk(chains, log + [e])
  {
    forall f, i, j | f in chains && 0 <= i < j < |chains[f]| && j == i + 1
      ensures RotatedInto(log + [e], chains[f][i], chains[f][j])
    {
      LogGrowthKeepsRotated(log, e, chains[f][i], chains[f][j]);
    }
  }

  lemma NewFamilyKeepsLinks(chains: map<Uuid, seq<Digest>>, log: seq<Event>, fam: Uuid, h: Digest)
    requires LinksOk(chains, log) && fam !in chains
    ensures LinksOk(chains[fam := [h]], log)
  {
    var chains' := chains[fam := [h]];
    forall k | 0 <= k < |log| && log[k].Rotated?
      ensures Linked(chains', log[k].token, Sha256(log[k].pair.refresh))
    {
      var f :| f in chains && Follows(chains[f], log[k].token, Sha256(log[k].pair.refresh));
      assert Follows(chains'[f], log[k].token, Sha256(log[k].pair.refresh));
    }
  }

  lemma CommitKeepsLinks(s: State, id: nat, heard: bool)
    requires LinksOk(s.chains, s.log) && ChainsOk(s.rows, s.chains) && LocksOk(s) && id in s.reqs
    ensures var t := ApplyCommit(s, id, true, heard); LinksOk(t.chains, t.log)
  {
    var r := s.reqs[id];
    if AboutToCommit(r) {
      assert RequestOk(s.rows, r);
      ActiveIsLast(s.rows, s.chains, Sha256(r.secret));
      var e := Rotated(id, Sha256(r.secret), r.tx.stage.pair, r.tx.stage.cachedAt);
      RotationKeepsLinks(s.chains, s.log, r.tx.row.fam, e);
    }
  }

  lemma ProbeKeepsLinks(cfg: Config, s: State, id: nat)
    requires LinksOk(s.chains, s.log) && id in s.reqs
    ensures var t := ApplyProbe(cfg, s, id); LinksOk(t.chains, t.log)
  {
    if s.reqs[id].tx.Found? { OtherEventKeepsLinks(s.chains, s.log, ApplyProbe(cfg, s, id).log[|s.log|]); }
  }

  lemma MoveKeepsLinks(cfg: Config, s: State, id: nat, move: Move)
    requires LinksOk(s.chains, s.log) && ChainsOk(s.rows, s.chains) && LocksOk(s) && id in s.reqs
    ensures var t := ApplyMove(cfg, s, id, move); LinksOk(t.chains, t.log)
  {
    match move
    case Commit(ok, heard) => if ok { CommitKeepsLinks(s, id, heard); }
    case Probe => ProbeKeepsLinks(cfg, s, id);
    case _ => MoveFrame(cfg, s, id, move);
  }

  lemma StepKeepsLinks(cfg: Config, s: State, step: Step)
    requires LinksOk(s.chains, s.log) && ChainsOk(s.rows, s.chains) && LocksOk(s)
    ensures var t := Apply(cfg, s, step); LinksOk(t.chains, t.log)
  {
    match step
    case Login(_, _, fam, secret, _) =>
      var (t, h) := (Apply(cfg, s, step), Sha256(secret));
      if t.chains != s.chains {
        NewFamilyKeepsLinks(s.chains, s.log, fam, h);
        OtherEventKeepsLinks(t.chains, s.log, LoggedIn(h, fam));
      }
    case Act(id, move) => if id in s.reqs { MoveKeepsLinks(cfg, s, id, move); }
    case _ =>
  }

  // ----- Every family starts with one login -----

  /** The first row of a family is that of a login, and no other login was into this family. */
  ghost predicate LoginsOk(chains: map<Uuid, seq<Digest>>, log: seq<Event>) {
    && (forall fam :: fam in chains ==>
          |chains[fam]| > 0 && exists k :: 0 <= k < |log| && log[k] == LoggedIn(chains[fam][0], fam))
    && (forall k :: 0 <= k < |log| && log[k].LoggedIn? ==> log[k].fam in chains)
    && (forall i, j :: 0 <= i < j < |log| && log[i].LoggedIn? && log[j].LoggedIn? ==> log[i].fam != log[j].fam)
  }

  lemma EventKeepsLogins(chains: map<Uuid, seq<Digest>>, log: seq<Event>, e: Event)
    requires LoginsOk(chains, log) && !e.LoggedIn?
    ensures LoginsOk(chains, log + [e])
  {
    forall fam | fam in chains
      ensures exists k :: 0 <= k < |log + [e]| && (log + [e])[k] == LoggedIn(chains[fam][0], fam)
    {
      var k :| 0 <= k < |log| && log[k] == LoggedIn(chains[fam][0], fam);
      assert (log + [e])[k] == log[k];
    }
  }

  lemma LoginKeepsLogins(chains: map<Uuid, seq<Digest>>, log: seq<Event>, h: Digest, fam: Uuid)
    requires LoginsOk(chains, log) && fam !in chains
    ensures LoginsOk(chains[fam := [h]], log + [LoggedIn(h, fam)])
  {
    var (chains', log') := (chains[fam := [h]], log + [LoggedIn(h, fam)]);
    assert log'[|log|] == LoggedIn(h, fam);
    forall f | f in chains'
      ensures exists k :: 0 <= k < |log'| && log'[k] == LoggedIn(chains'[f][0], f)
    {
      if f != fam {
        var k :| 0 <= k < |log| && log[k] == LoggedIn(chains[f][0], f);
        assert log'[k] == log[k];
      }
    }
  }

  lemma RotationKeepsLogins(chains: map<Uuid, seq<Digest>>, log: seq<Event>, fam: Uuid, n: Digest, e: Event)
    requires LoginsOk(chains, log) && !e.LoggedIn? && fam in chains
    ensures LoginsOk(chains[fam := chains[fam] + [n]], log + [e])
  {
    EventKeepsLogins(chains, log, e);
    var chains' := chains[fam := chains[fam] + [n]];
    assert forall f :: f in chains' ==> |chains'[f]| > 0 && chains'[f][0] == chains[f][0];
  }

  lemma MoveKeepsLogins(cfg: Config, s: State, id: nat, move: Move)
    requires LoginsOk(s.chains, s.log) && ChainsOk(s.rows, s.chains) && LocksOk(s) && id in s.reqs
    ensures var t := ApplyMove(cfg, s, id, move); LoginsOk(t.chains, t.log)
  {
    var r, t := s.reqs[id], ApplyMove(cfg, s, id, move);
    match move
    case Commit(ok, _) =>
      if ok && AboutToCommit(r) {
        assert RequestOk(s.rows, r);
        RotationKeepsLogins(s.chains, s.log, r.tx.row.fam, Sha256(r.tx.stage.pair.refresh), t.log[|s.log|]);
      }
    case Probe => if r.tx.Found? { EventKeepsLogins(s.chains, s.log, t.log[|s.log|]); }
    case _ => MoveFrame(cfg, s, id, move);
  }

  lemma StepKeepsLogins(cfg: Config, s: State, step: Step)
    requires LoginsOk(s.chains, s.log) && ChainsOk(s.rows, s.chains) && LocksOk(s)
    ensures var t := Apply(cfg, s, step); LoginsOk(t.chains, t.log)
  {
    match step
    case Login(_, _, fam, secret, _) => if fam !in s.chains { LoginKeepsLogins(s.chains, s.log, Sha256(secret), fam); }
    case Act(id, move) => if id in s.reqs { MoveKeepsLogins(cfg, s, id, move); }
    case _ =>
  }

  // ----- Theorems over every run -----

  ghost predicate Inv(cfg: Config, s: State) {
    && LocksOk(s) && ChainsOk(s.rows, s.chains) && LosersOk(s) && WinnersOk(s) && HistoryOk(cfg, s)
    && LinksOk(s.chains, s.log) && LoginsOk(s.chains, s.log)
  }

  lemma StepKeepsInv(cfg: Config, s: State, step: Step)
    requires Inv(cfg, s)
    ensures Inv(cfg, Apply(cfg, s, step))
  {
    StepKeepsLocks(cfg, s, step);
    StepKeepsChains(cfg, s, step);
    StepKeepsLosers(cfg, s, step);
    StepKeepsWinners(cfg, s, step);
    StepKeepsHistory(cfg, s, step);
    StepKeepsLinks(cfg, s, step);
    StepKeepsLogins(cfg, s, step);
  }

  lemma {:induction false} RunKeepsInv(cfg: Config, steps: seq<Step>)
    ensures Inv(cfg, Run(cfg, steps))
  {
    if steps != [] {
      RunKeepsInv(cfg, steps[..|steps| - 1]);
      StepKeepsInv(cfg, Run(cfg, steps[..|steps| - 1]), steps[|steps| - 1]);
    }
  }

  lemma RunKeepsHistory(cfg: Config, steps: seq<Step>)
    ensures AnswersAgree(Run(cfg, steps).log) && AlarmsJustified(cfg, Run(cfg, steps).log)
  {
    RunKeepsInv(cfg, steps);
  }

  /** One winner: of all requests that present a refresh token, at most one commits a successor. */
  lemma {:induction false} OneWinner(cfg: Config, steps: seq<Step>, i: nat, j: nat)
    requires var log := Run(cfg, steps).log;
             i < |log| && j < |log| && log[i].Rotated? && log[j].Rotated? && log[i].token == log[j].token
    ensures i == j
  {
    RunKeepsHistory(cfg, steps);
  }

  /** One answer: every request that is answered for a refresh token, winner or not, gets the same pair. */
  lemma {:induction false} OneAnswer(cfg: Config, steps: seq<Step>, i: nat, j: nat)
    requires var log := Run(cfg, steps).log;
             i < |log| && j < |log| && IsAnswer(log[i]) && IsAnswer(log[j]) && log[i].token == log[j].token
    ensures Run(cfg, steps).log[i].pair == Run(cfg, steps).log[j].pair
  {
    RunKeepsHistory(cfg, steps);
  }

  lemma {:induction false} NothingDropped(cfg: Config, steps: seq<Step>)
    requires forall k :: 0 <= k < |steps| ==> !steps[k].Evict?
    ensures Run(cfg, steps).dropped == {}
    ensures forall i :: 0 <= i < |Run(cfg, steps).log| && Run(cfg, steps).log[i].Alarm? ==>
              !Run(cfg, steps).log[i].dropped
  {
    if steps != [] {
      var step, s := steps[|steps| - 1], Run(cfg, steps[..|steps| - 1]);
      NothingDropped(cfg, steps[..|steps| - 1]);
      if step.Act? && step.id in s.reqs && !step.move.Probe? { MoveFrame(cfg, s, step.id, step.move); }
    }
  }

  /** No false alarm: without eviction, reuse of a rotated token is detected only after the grace period. */
  lemma {:induction false} NoFalseAlarm(cfg: Config, steps: seq<Step>, i: nat, j: nat)
    requires forall k :: 0 <= k < |steps| ==> !steps[k].Evict?
    requires var log := Run(cfg, steps).log;
             i < j < |log| && log[i].Rotated? && log[j].Alarm? && log[i].token == log[j].token
    ensures Run(cfg, steps).log[i].cachedAt + cfg.grace <= Run(cfg, steps).log[j].at
  {
    RunKeepsHistory(cfg, steps);
    NothingDropped(cfg, steps);
  }

  /**
   A loser that looks into the grace cache before the grace period is over is answered with the
   committed winner's pair, whatever commits failed before that winner's.
   */
  lemma {:induction false} LoserGetsWinnersPair(cfg: Config, steps: seq<Step>, i: nat, id: nat)
    requires forall k :: 0 <= k < |steps| ==> !steps[k].Evict?
    requires var s := Run(cfg, steps);
             && i < |s.log| && s.log[i].Rotated?
             && id in s.reqs && s.reqs[id].tx.Found? && s.log[i].token == Sha256(s.reqs[id].secret)
             && s.now < s.log[i].cachedAt + cfg.grace
    ensures var s := Run(cfg, steps);
            var t := Apply(cfg, s, Act(id, Probe));
            && id in t.reqs && t.reqs[id].tx == Closed(Ok(s.log[i].pair))
            && t.rows == s.rows
  {
    RunKeepsInv(cfg, steps);
    NothingDropped(cfg, steps);
    ProbeAnswer(cfg, Run(cfg, steps), id, i);
  }

  /** A committed rotation of the token is in the history. */
  ghost predicate WasRotated(log: seq<Event>, h: Digest) {
    exists k :: 0 <= k < |log| && log[k].Rotated? && log[k].token == h
  }

  /**
   A pair replayed for a token is what the token was rotated into exactly when it was rotated at all; its
   refresh token is then a row of the same family. Otherwise it is the pair of a rotation that never
   committed, cached for a token that was revoked in some other way.
   */
  lemma {:induction false} ReplayIffRotated(cfg: Config, steps: seq<Step>, j: nat)
    requires j < |Run(cfg, steps).log| && Run(cfg, steps).log[j].Replayed?
    ensures var s := Run(cfg, steps);
            var (h, succ) := (s.log[j].token, Sha256(s.log[j].pair.refresh));
            && (RotatedInto(s.log, h, succ) <==> WasRotated(s.log, h))
            && (WasRotated(s.log, h) ==> h in s.rows && succ in s.rows && s.rows[succ].fam == s.rows[h].fam)
  {
    var s := Run(cfg, steps);
    var (h, succ) := (s.log[j].token, Sha256(s.log[j].pair.refresh));
    if WasRotated(s.log, h) {
      var i :| 0 <= i < |s.log| && s.log[i].Rotated? && s.log[i].token == h;
      OneAnswer(cfg, steps, i, j);
      assert RotatedInto(s.log, h, succ);
      RunKeepsInv(cfg, steps);
      ChainStep(s, h, succ);
    }
  }

  /** In every reachable state a family has at most one unrevoked committed row. */
  lemma {:induction false} OneActiveRow(cfg: Config, steps: seq<Step>, g: Digest, h: Digest)
    requires var rows := Run(cfg, steps).rows; Active(rows, g) && Active(rows, h) && rows[g].fam == rows[h].fam
    ensures g == h
  {
    RunKeepsInv(cfg, steps);
    var s := Run(cfg, steps);
    ActiveIsLast(s.rows, s.chains, g);
    ActiveIsLast(s.rows, s.chains, h);
  }

  /**
   The order of a family's rows is the order of its rotations: `b` directly follows `a` iff `a` was rotated
   into `b`.
   */
  lemma {:induction false} LinearChain(cfg: Config, steps: seq<Step>, a: Digest, b: Digest)
    ensures var s := Run(cfg, steps); Linked(s.chains, a, b) <==> RotatedInto(s.log, a, b)
    ensures var s := Run(cfg, steps);
            forall h :: h in s.rows ==> s.rows[h].fam in s.chains && h in s.chains[s.rows[h].fam]
  {
    RunKeepsInv(cfg, steps);
    var s := Run(cfg, steps);
    if Linked(s.chains, a, b) {
      var fam :| fam in s.chains && Follows(s.chains[fam], a, b);
    }
  }

  /** Without repetition, places in a chain are unique, and so are neighbours. */
  lemma OneNeighbour(chain: seq<Digest>, a: Digest, b: Digest, c: Digest, d: Digest)
    requires forall i, j :: 0 <= i < j < |chain| ==> chain[i] != chain[j]
    requires Follows(chain, a, b) && Follows(chain, c, d)
    ensures (a == c <==> b == d) && a != b
  {
  }

  /** No token has two successors and none two predecessors. */
  lemma {:induction false} OneSuccessor(cfg: Config, steps: seq<Step>, a: Digest, b: Digest, c: Digest, d: Digest)
    requires var log := Run(cfg, steps).log; RotatedInto(log, a, b) && RotatedInto(log, c, d)
    ensures (a == c <==> b == d) && a != b
  {
    RunKeepsInv(cfg, steps);
    var s := Run(cfg, steps);
    ChainStep(s, a, b);
    ChainStep(s, c, d);
    var chain := s.chains[s.rows[a].fam];
    assert ChainOk(s.rows, s.rows[a].fam, chain);
    OneNeighbour(chain, a, b, a, b);
    if a == c || b == d { OneNeighbour(chain, a, b, c, d); }
  }

  lemma ChainStep(s: State, a: Digest, b: Digest)
    requires ChainsOk(s.rows, s.chains) && LinksOk(s.chains, s.log) && RotatedInto(s.log, a, b)
    ensures a in s.rows && b in s.rows && s.rows[a].fam == s.rows[b].fam && s.rows[a].fam in s.chains
    ensures Follows(s.chains[s.rows[a].fam], a, b)
  {
  }

  ghost predicate RotationPath(log: seq<Event>, path: seq<Digest>) {
    |path| > 0 && forall i, j :: 0 <= i < j < |path| && j == i + 1 ==> RotatedInto(log, path[i], path[j])
  }

  lemma ChainIsPath(chains: map<Uuid, seq<Digest>>, log: seq<Event>, fam: Uuid, i: nat)
    requires LinksOk(chains, log) && fam in chains && i < |chains[fam]|
    ensures RotationPath(log, chains[fam][..i + 1])
  {
  }

  /** Every committed row descends, rotation by rotation, from the row of a login: the only login into its family. */
  lemma {:induction false} DescendsFromLogin(cfg: Config, steps: seq<Step>, h: Digest)
    returns (path: seq<Digest>, login: nat)
    requires h in Run(cfg, steps).rows
    ensures var s := Run(cfg, steps);
            && RotationPath(s.log, path) && path[|path| - 1] == h
            && login < |s.log| && s.log[login] == LoggedIn(path[0], s.rows[h].fam)
            && forall k :: 0 <= k < |s.log| && s.log[k].LoggedIn? && s.log[k].fam == s.rows[h].fam ==> k == login
  {
    RunKeepsInv(cfg, steps);
    var s := Run(cfg, steps);
    var fam := s.rows[h].fam;
    var i :| 0 <= i < |s.chains[fam]| && s.chains[fam][i] == h;
    ChainIsPath(s.chains, s.log, fam, i);
    path := s.chains[fam][..i + 1];
    login := LoginOf(s.chains, s.log, fam);
  }

  lemma LoginOf(chains: map<Uuid, seq<Digest>>, log: seq<Event>, fam: Uuid) returns (login: nat)
    requires LoginsOk(chains, log) && fam in chains
    ensures |chains[fam]| > 0 && login < |log| && log[login] == LoggedIn(chains[fam][0], fam)
    ensures forall k :: 0 <= k < |log| && log[k].LoggedIn? && log[k].fam == fam ==> k == login
  {
    login :| 0 <= login < |log| && log[login] == LoggedIn(chains[fam][0], fam);
  }

  /** In its family's chain, what a token was rotated into stands right after it. */
  lemma NextPlace(s: State, fam: Uuid, p: nat, b: Digest)
    requires ChainsOk(s.rows, s.chains) && LinksOk(s.chains, s.log)
    requires fam in s.chains && p < |s.chains[fam]| && RotatedInto(s.log, s.chains[fam][p], b)
    ensures p + 1 < |s.chains[fam]| && s.chains[fam][p + 1] == b
  {
  }

  lemma {:induction false} PathStaysInOrder(log: seq<Event>, chain: seq<Digest>, path: seq<Digest>, i: nat, k: nat)
    requires RotationPath(log, path) && k < |path| && i < |chain| && chain[i] == path[0]
    requires forall p: nat, b :: p < |chain| && RotatedInto(log, chain[p], b) ==> p + 1 < |chain| && chain[p + 1] == b
    ensures i + k < |chain| && chain[i + k] == path[k]
  {
    if k > 0 {
      PathStaysInOrder(log, chain, path, i, k - 1);
      assert RotatedInto(log, path[k - 1], path[k]);
    }
  }

  /** Rotations never lead back to an earlier token. */
  lemma {:induction false} NoCycle(cfg: Config, steps: seq<Step>, path: seq<Digest>)
    requires |path| > 1 && RotationPath(Run(cfg, steps).log, path)
    ensures path[0] != path[|path| - 1]
  {
    RunKeepsInv(cfg, steps);
    var s := Run(cfg, steps);
    assert RotatedInto(s.log, path[0], path[0 + 1]);
    ChainStep(s, path[0], path[1]);
    var chain := s.chains[s.rows[path[0]].fam];
    assert ChainOk(s.rows, s.rows[path[0]].fam, chain);
    var i :| 0 <= i < |chain| && chain[i] == path[0];
    forall p: nat, b | p < |chain| && RotatedInto(s.log, chain[p], b)
      ensures p + 1 < |chain| && chain[p + 1] == b
    {
      NextPlace(s, s.rows[path[0]].fam, p, b);
    }
    PathStaysInOrder(s.log, chain, path, i, |path| - 1);
  }

  /** All committed rows of a family share user, key and end of life, whoever rotated them and in whatever order. */
  lemma {:induction false} OneSession(cfg: Config, steps: seq<Step>, g: Digest, h: Digest)
    requires var rows := Run(cfg, steps).rows; g in rows && h in rows && rows[g].fam == rows[h].fam
    ensures SameSession(Run(cfg, steps).rows[g], Run(cfg, steps).rows[h])
  {
    RunKeepsInv(cfg, steps);
    var s := Run(cfg, steps);
    assert ChainOk(s.rows, s.rows[g].fam, s.chains[s.rows[g].fam]);
  }

  lemma {:induction false} RowsEvolve(cfg: Config, steps: seq<Step>, k: nat)
    requires k <= |steps|
    ensures OnlyRevokes(Run(cfg, steps[..k]).rows, Run(cfg, steps).rows)
  {
    if k == |steps| {
      assert steps[..k] == steps;
    } else {
      var steps' := steps[..|steps| - 1];
      assert steps'[..k] == steps[..k];
      RowsEvolve(cfg, steps', k);
      RunKeepsInv(cfg, steps');
      StepEvolves(cfg, Run(cfg, steps'), steps[|steps| - 1]);
    }
  }
}
