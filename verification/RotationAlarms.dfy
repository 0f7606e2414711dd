/**
 What a reuse detection achieves at the level of single statements, where rotations of the same family
 may be in flight.
 */
module RotationAlarms {
  import opened Wrappers
  import opened AccessTokens
  import opened RefreshTokens
  import opened RotationConcurrency

  lemma RunExtend(cfg: Config, steps: seq<Step>, step: Step)
    ensures Run(cfg, steps + [step]) == Apply(cfg, Run(cfg, steps), step)
  {
    assert (steps + [step])[..|steps + [step]| - 1] == steps;
  }

  // ----- Families without active row -----

  /** A family that exists and has no active row. */
  ghost predicate Spent(s: State, fam: Uuid) {
    fam in s.chains && forall h :: Active(s.rows, h) ==> s.rows[h].fam != fam
  }

  /** The step commits a rotation of the family. */
  predicate Rotates(s: State, step: Step, fam: Uuid) {
    && step.Act? && step.id in s.reqs && step.move.Commit? && step.move.ok
    && AboutToCommit(s.reqs[step.id]) && s.reqs[step.id].tx.row.fam == fam
  }

  /** A family that exists stays, and gains rows only by rotation. */
  lemma NewRows(cfg: Config, s: State, step: Step, fam: Uuid)
    requires fam in s.chains
    ensures var t := Apply(cfg, s, step);
            && fam in t.chains
            && (Rotates(s, step, fam) || forall h :: h in t.rows && h !in s.rows ==> t.rows[h].fam != fam)
  {
    if step.Act? && step.id in s.reqs && !step.move.Commit? { MoveFrame(cfg, s, step.id, step.move); }
  }

  /** Only an active row can be rotated, so no step, of whatever request, brings a spent family back. */
  lemma StepKeepsSpent(cfg: Config, s: State, step: Step, fam: Uuid)
    requires LocksOk(s) && Spent(s, fam)
    ensures Spent(Apply(cfg, s, step), fam)
  {
    NewRows(cfg, s, step, fam);
    StepEvolves(cfg, s, step);
    assert !Rotates(s, step, fam) by {
      if step.Act? && step.id in s.reqs { assert RequestOk(s.rows, s.reqs[step.id]); }
    }
  }

  lemma {:induction false} SpentStaysSpent(cfg: Config, steps: seq<Step>, later: seq<Step>, fam: Uuid)
    requires Spent(Run(cfg, steps), fam)
    ensures Spent(Run(cfg, steps + later), fam)
  {
    if later == [] {
      assert steps + later == steps;
    } else {
      var (init, step) := (later[..|later| - 1], later[|later| - 1]);
      SpentStaysSpent(cfg, steps, init, fam);
      assert steps + later == steps + init + [step];
      RunExtend(cfg, steps + init, step);
      RunKeepsInv(cfg, steps + init);
      StepKeepsSpent(cfg, Run(cfg, steps + init), step, fam);
    }
  }

  /** The family has no active row now, nor in any continuation. */
  ghost predicate SpentForGood(cfg: Config, steps: seq<Step>, fam: Uuid) {
    forall later :: Spent(Run(cfg, steps + later), fam)
  }

  lemma {:induction false} SpentIsForGood(cfg: Config, steps: seq<Step>, fam: Uuid)
    ensures SpentForGood(cfg, steps, fam) <==> Spent(Run(cfg, steps), fam)
  {
    if Spent(Run(cfg, steps), fam) {
      forall later ensures Spent(Run(cfg, steps + later), fam) { SpentStaysSpent(cfg, steps, later, fam); }
    } else {
      assert steps + [] == steps;
    }
  }

  // ----- What the snapshot of a family revoke is worth -----

  /** The family revoke has read its snapshot. */
  predicate Sweeping(tx: Tx) {
    tx.Striking? || tx.Struck?
  }

  /**
   The snapshot showed at most one row. Whatever is active in the family now was in it, unless that one
   row has been rotated since; and what is still active of it is locked once the revoke is through.
   */
  ghost predicate SweepOk(rows: Table, log: seq<Event>, tx: Tx) {
    Sweeping(tx) ==>
      && (forall h :: h in tx.seen ==> h in rows)
      && (forall g, h :: g in tx.seen && h in tx.seen ==> g == h)
      && (forall h :: Active(rows, h) && rows[h].fam == tx.fam ==> h in tx.seen || SeenRotated(log, tx))
      && (tx.Struck? ==> tx.hit <= tx.seen && forall h :: h in tx.seen && Active(rows, h) ==> h in tx.hit)
  }

  /** A row of the snapshot has been rotated. */
  ghost predicate SeenRotated(log: seq<Event>, tx: Tx)
    requires Sweeping(tx)
  {
    exists h :: h in tx.seen && WasRotated(log, h)
  }

  ghost predicate SweepsOk(s: State) {
    forall id :: id in s.reqs ==> SweepOk(s.rows, s.log, s.reqs[id].tx)
  }

  lemma GrowthKeepsRotated(log: seq<Event>, log': seq<Event>, h: Digest)
    requires log <= log' && WasRotated(log, h)
    ensures WasRotated(log', h)
  {
    var k :| 0 <= k < |log| && log[k].Rotated? && log[k].token == h;
    assert log'[k] == log[k];
  }

  /** Rows only get revoked, and a row that is new to the family comes from rotating one that was active. */
  ghost predicate FamilyGrows(rows: Table, rows': Table, log: seq<Event>, log': seq<Event>, fam: Uuid) {
    && OnlyRevokes(rows, rows') && log <= log'
    && forall n :: n in rows' && n !in rows && rows'[n].fam == fam ==>
         exists h :: Active(rows, h) && rows[h].fam == fam && WasRotated(log', h)
  }

  lemma GrowthKeepsSweep(rows: Table, rows': Table, log: seq<Event>, log': seq<Event>, tx: Tx)
    requires SweepOk(rows, log, tx) && Sweeping(tx) && FamilyGrows(rows, rows', log, log', tx.fam)
    ensures SweepOk(rows', log', tx)
  {
    assert SeenRotated(log, tx) ==> SeenRotated(log', tx) by {
      if SeenRotated(log, tx) {
        var h :| h in tx.seen && WasRotated(log, h);
        GrowthKeepsRotated(log, log', h);
      }
    }
    forall n | Active(rows', n) && rows'[n].fam == tx.fam
      ensures n in tx.seen || SeenRotated(log', tx)
    {
      if n !in rows {
        var h :| Active(rows, h) && rows[h].fam == tx.fam && WasRotated(log', h);
        assert h in tx.seen ==> SeenRotated(log', tx);
      }
    }
  }

  lemma LogGrows(cfg: Config, s: State, step: Step)
    ensures s.log <= Apply(cfg, s, step).log
  {
    if step.Act? && step.id in s.reqs && !step.move.Commit? && !step.move.Probe? {
      MoveFrame(cfg, s, step.id, step.move);
    }
  }

  lemma StepGrowsFamily(cfg: Config, s: State, step: Step, fam: Uuid)
    requires LocksOk(s) && fam in s.chains
    ensures var t := Apply(cfg, s, step); FamilyGrows(s.rows, t.rows, s.log, t.log, fam)
  {
    var t := Apply(cfg, s, step);
    StepEvolves(cfg, s, step);
    LogGrows(cfg, s, step);
    NewRows(cfg, s, step, fam);
    if Rotates(s, step, fam) {
      var r := s.reqs[step.id];
      assert RequestOk(s.rows, r) && t.log[|s.log|].Rotated? && t.log[|s.log|].token == Sha256(r.secret);
      assert WasRotated(t.log, Sha256(r.secret));
    }
  }

  lemma OthersLeaveRequest(cfg: Config, s: State, id: nat, step: Step)
    requires id in s.reqs && !(step.Act? && step.id == id)
    ensures var t := Apply(cfg, s, step); id in t.reqs && t.reqs[id] == s.reqs[id]
  {
    if step.Act? && step.id in s.reqs { MoveFrame(cfg, s, step.id, step.move); }
  }

  /** The survey sees at most one row. */
  lemma SurveyedOnce(rows: Table, chains: map<Uuid, seq<Digest>>, log: seq<Event>, fam: Uuid, at: nat)
    requires ChainsOk(rows, chains)
    ensures SweepOk(rows, log, Striking(fam, ActiveRows(rows, fam), at))
  {
    forall g, h | g in ActiveRows(rows, fam) && h in ActiveRows(rows, fam)
      ensures g == h
    {
      ActiveIsLast(rows, chains, g);
      ActiveIsLast(rows, chains, h);
    }
  }

  /** The statements of a winner are not those of a request that is sweeping. */
  lemma WinnersDoNotSweep(cfg: Config, s: State, id: nat, succ: Secret, jti: Uuid)
    requires id in s.reqs
    ensures Sweeping(ApplyCas(s, id).reqs[id].tx) ==> ApplyCas(s, id) == s
    ensures Sweeping(ApplyCheck(s, id).reqs[id].tx) ==> ApplyCheck(s, id) == s
    ensures Sweeping(ApplyInsert(s, id, succ).reqs[id].tx) ==> ApplyInsert(s, id, succ) == s
    ensures Sweeping(ApplyCache(cfg, s, id, jti).reqs[id].tx) ==> ApplyCache(cfg, s, id, jti) == s
  {
  }

  lemma CommitsDoNotSweep(s: State, id: nat, ok: bool, heard: bool)
    requires id in s.reqs
    ensures Sweeping(ApplyCommit(s, id, ok, heard).reqs[id].tx) ==> ApplyCommit(s, id, ok, heard) == s
    ensures Sweeping(ApplyCommitAlarm(s, id, ok, heard).reqs[id].tx) ==> ApplyCommitAlarm(s, id, ok, heard) == s
  {
  }

  lemma QueriesDoNotSweep(cfg: Config, s: State, id: nat)
    requires id in s.reqs
    ensures Sweeping(ApplyFind(s, id).reqs[id].tx) ==> ApplyFind(s, id) == s
    ensures Sweeping(ApplyProbe(cfg, s, id).reqs[id].tx) ==> ApplyProbe(cfg, s, id) == s
    ensures Sweeping(ApplyCancel(s, id).reqs[id].tx) ==> ApplyCancel(s, id) == s
  {
  }

  lemma OtherMove(cfg: Config, s: State, id: nat, move: Move)
    requires id in s.reqs && !move.Survey? && !move.Strike?
    ensures var t := ApplyMove(cfg, s, id, move); Sweeping(t.reqs[id].tx) ==> t == s
  {
    match move
    case Insert(succ) => WinnersDoNotSweep(cfg, s, id, succ, 0);
    case Cache(jti) => WinnersDoNotSweep(cfg, s, id, 0, jti);
    case Cas => WinnersDoNotSweep(cfg, s, id, 0, 0);
    case Check => WinnersDoNotSweep(cfg, s, id, 0, 0);
    case Commit(ok, heard) => CommitsDoNotSweep(s, id, ok, heard);
    case CommitAlarm(ok, heard) => CommitsDoNotSweep(s, id, ok, heard);
    case _ => QueriesDoNotSweep(cfg, s, id);
  }

  lemma SweepMovesKeepSweep(s: State, id: nat)
    requires ChainsOk(s.rows, s.chains) && id in s.reqs && SweepOk(s.rows, s.log, s.reqs[id].tx)
    ensures var t := ApplySurvey(s, id); SweepOk(t.rows, t.log, t.reqs[id].tx)
    ensures var t := ApplyStrike(s, id); SweepOk(t.rows, t.log, t.reqs[id].tx)
  {
    var tx := s.reqs[id].tx;
    if tx.Alarmed? { SurveyedOnce(s.rows, s.chains, s.log, tx.fam, tx.at); }
    if tx.Striking? { assert SweepOk(s.rows, s.log, Struck(tx.fam, tx.seen, StillActive(s.rows, tx.seen), tx.at)); }
  }

  lemma OwnMoveKeepsSweep(cfg: Config, s: State, id: nat, move: Move)
    requires ChainsOk(s.rows, s.chains) && id in s.reqs && SweepOk(s.rows, s.log, s.reqs[id].tx)
    ensures var t := ApplyMove(cfg, s, id, move); SweepOk(t.rows, t.log, t.reqs[id].tx)
  {
    if move.Survey? || move.Strike? {
      SweepMovesKeepSweep(s, id);
    } else {
      OtherMove(cfg, s, id, move);
    }
  }

  lemma OtherStepKeepsSweep(cfg: Config, s: State, id: nat, step: Step)
    requires LocksOk(s) && ChainsOk(s.rows, s.chains) && id in s.reqs && LoserOk(s.rows, s.reqs[id])
    requires SweepOk(s.rows, s.log, s.reqs[id].tx) && !(step.Act? && step.id == id)
    ensures var t := Apply(cfg, s, step); id in t.reqs && SweepOk(t.rows, t.log, t.reqs[id].tx)
  {
    var t := Apply(cfg, s, step);
    OthersLeaveRequest(cfg, s, id, step);
    if Sweeping(s.reqs[id].tx) {
      StepGrowsFamily(cfg, s, step, s.reqs[id].tx.fam);
      GrowthKeepsSweep(s.rows, t.rows, s.log, t.log, s.reqs[id].tx);
    }
  }

  lemma NewRequestOpened(cfg: Config, s: State, step: Step, id: nat)
    requires id in Apply(cfg, s, step).reqs && id !in s.reqs
    ensures Apply(cfg, s, step).reqs[id].tx.Opened?
  {
    if step.Act? && step.id in s.reqs { MoveFrame(cfg, s, step.id, step.move); }
  }

  lemma StepKeepsSweeps(cfg: Config, s: State, step: Step)
    requires LocksOk(s) && ChainsOk(s.rows, s.chains) && LosersOk(s) && SweepsOk(s)
    ensures SweepsOk(Apply(cfg, s, step))
  {
    var t := Apply(cfg, s, step);
    forall id | id in t.reqs
      ensures SweepOk(t.rows, t.log, t.reqs[id].tx)
    {
      if id !in s.reqs {
        NewRequestOpened(cfg, s, step, id);
      } else if step.Act? && step.id == id {
        OwnMoveKeepsSweep(cfg, s, id, step.move);
      } else {
        OtherStepKeepsSweep(cfg, s, id, step);
      }
    }
  }

  lemma {:induction false} RunKeepsSweeps(cfg: Config, steps: seq<Step>)
    ensures SweepsOk(Run(cfg, steps))
  {
    if steps != [] {
      var (init, step) := (steps[..|steps| - 1], steps[|steps| - 1]);
      RunKeepsSweeps(cfg, init);
      RunKeepsInv(cfg, init);
      StepKeepsSweeps(cfg, Run(cfg, init), step);
    }
  }

  // ----- When a reuse detection ends the family -----

  /** The row the family revoke saw was rotated meanwhile, and the family is active through what came of it. */
  ghost predicate Outrun(s: State, tx: Tx)
    requires Sweeping(tx)
  {
    SeenRotated(s.log, tx) && exists h :: Active(s.rows, h) && s.rows[h].fam == tx.fam
  }

  /** The commit of the family revoke takes exactly what it holds. */
  lemma AlarmTable(cfg: Config, s: State, id: nat, heard: bool)
    requires id in s.reqs && s.reqs[id].tx.Struck?
    ensures var t := Apply(cfg, s, Act(id, CommitAlarm(true, heard)));
            && t.chains == s.chains
            && (forall h :: Active(t.rows, h) <==> Active(s.rows, h) && h !in s.reqs[id].tx.hit)
            && (forall h :: h in s.rows ==> h in t.rows && t.rows[h].fam == s.rows[h].fam)
  {
  }

  lemma AlarmSpendsIff(cfg: Config, s: State, id: nat, heard: bool)
    requires EventsOk(s) && ChainsOk(s.rows, s.chains) && id in s.reqs && LoserOk(s.rows, s.reqs[id])
    requires s.reqs[id].tx.Struck? && SweepOk(s.rows, s.log, s.reqs[id].tx)
    ensures var tx := s.reqs[id].tx;
            Spent(Apply(cfg, s, Act(id, CommitAlarm(true, heard))), tx.fam) <==> !Outrun(s, tx)
  {
    var (tx, t) := (s.reqs[id].tx, Apply(cfg, s, Act(id, CommitAlarm(true, heard))));
    AlarmTable(cfg, s, id, heard);
    if SeenRotated(s.log, tx) {
      var h :| h in tx.seen && WasRotated(s.log, h);
      RotatedIsRevoked(s, h);
    }
  }

  lemma RotatedIsRevoked(s: State, h: Digest)
    requires EventsOk(s) && WasRotated(s.log, h)
    ensures !Active(s.rows, h)
  {
    var k :| 0 <= k < |s.log| && s.log[k].Rotated? && s.log[k].token == h;
    assert EventOk(s, s.log[k]);
  }

  /**
   A reuse detection that commits ends its family for good exactly when the row that was active when its
   family revoke started was not rotated meanwhile, or what came of that rotation is no longer active.
   */
  lemma {:induction false} AlarmKillsFamilyIff(cfg: Config, steps: seq<Step>, id: nat, heard: bool)
    requires id in Run(cfg, steps).reqs && Run(cfg, steps).reqs[id].tx.Struck?
    ensures var (s, tx) := (Run(cfg, steps), Run(cfg, steps).reqs[id].tx);
            SpentForGood(cfg, steps + [Act(id, CommitAlarm(true, heard))], tx.fam) <==> !Outrun(s, tx)
  {
    RunKeepsInv(cfg, steps);
    RunKeepsSweeps(cfg, steps);
    RunExtend(cfg, steps, Act(id, CommitAlarm(true, heard)));
    AlarmSpendsIff(cfg, Run(cfg, steps), id, heard);
    SpentIsForGood(cfg, steps + [Act(id, CommitAlarm(true, heard))], Run(cfg, steps).reqs[id].tx.fam);
  }

  /** Another transaction holds an active row of the family: it rotates it, or has struck it itself. */
  ghost predicate Contended(s: State, fam: Uuid) {
    exists h :: Active(s.rows, h) && s.rows[h].fam == fam && RowLocked(s, h)
  }

  /**
   A family revoke that meets its snapshot unchanged goes through at once iff no other transaction holds an
   active row.
   */
  lemma StrikeIffUncontended(cfg: Config, s: State, id: nat)
    requires id in s.reqs && s.reqs[id].tx.Striking?
    requires s.reqs[id].tx.seen == ActiveRows(s.rows, s.reqs[id].tx.fam)
    ensures var (tx, t) := (s.reqs[id].tx, Apply(cfg, s, Act(id, Strike)));
            && id in t.reqs && t.rows == s.rows
            && (if Contended(s, tx.fam) then t == s else t.reqs[id].tx == Struck(tx.fam, tx.seen, tx.seen, tx.at))
  {
    var tx := s.reqs[id].tx;
    assert StillActive(s.rows, tx.seen) == tx.seen;
    if Contended(s, tx.fam) {
      var h :| Active(s.rows, h) && s.rows[h].fam == tx.fam && RowLocked(s, h);
      assert h in tx.seen;
    }
  }

  /** The alarm `r` holds every active row of its family. */
  ghost predicate Armed(s: State, id: nat, r: Request) {
    && id in s.reqs && s.reqs[id] == r && r.tx.Struck?
    && forall h :: Active(s.rows, h) && s.rows[h].fam == r.tx.fam ==> h in r.tx.hit
  }

  /** Who holds every active row has locked out every rotation of the family. */
  lemma NoRotationWhenArmed(s: State, id: nat, r: Request, j: nat)
    requires LocksOk(s) && Armed(s, id, r) && j in s.reqs && s.reqs[j].tx.Rotating?
    ensures s.reqs[j].tx.row.fam != r.tx.fam
  {
    var q := s.reqs[j];
    assert RequestOk(s.rows, q) && Holds(q, Sha256(q.secret));
    assert Sha256(q.secret) in r.tx.hit ==> Holds(r, Sha256(q.secret));
  }

  /** So what is held stays held, whatever other requests do before the alarm commits. */
  lemma StepKeepsArmed(cfg: Config, s: State, id: nat, r: Request, step: Step)
    requires LocksOk(s) && ChainsOk(s.rows, s.chains) && LoserOk(s.rows, r)
    requires Armed(s, id, r) && !(step.Act? && step.id == id)
    ensures Armed(Apply(cfg, s, step), id, r)
  {
    OthersLeaveRequest(cfg, s, id, step);
    NewRows(cfg, s, step, r.tx.fam);
    StepEvolves(cfg, s, step);
    if Rotates(s, step, r.tx.fam) {
      NoRotationWhenArmed(s, id, r, step.id);
    }
  }

  lemma {:induction false} ArmedUntilCommit(cfg: Config, steps: seq<Step>, id: nat, r: Request, between: seq<Step>)
    requires Armed(Run(cfg, steps), id, r)
    requires forall k :: 0 <= k < |between| ==> !(between[k].Act? && between[k].id == id)
    ensures Armed(Run(cfg, steps + between), id, r)
  {
    if between == [] {
      assert steps + between == steps;
    } else {
      var (init, step) := (between[..|between| - 1], between[|between| - 1]);
      ArmedUntilCommit(cfg, steps, id, r, init);
      assert steps + between == steps + init + [step];
      RunExtend(cfg, steps + init, step);
      RunKeepsInv(cfg, steps + init);
      assert LoserOk(Run(cfg, steps + init).rows, r);
      StepKeepsArmed(cfg, Run(cfg, steps + init), id, r, step);
    }
  }

  lemma ArmedAlarmSpends(cfg: Config, s: State, id: nat, r: Request, heard: bool)
    requires ChainsOk(s.rows, s.chains) && LoserOk(s.rows, r) && Armed(s, id, r)
    ensures Spent(Apply(cfg, s, Act(id, CommitAlarm(true, heard))), r.tx.fam)
  {
    AlarmTable(cfg, s, id, heard);
  }

  lemma SurveyLocksNothing(cfg: Config, s: State, id: nat)
    requires id in s.reqs && s.reqs[id].tx.Alarmed?
    ensures var (tx, u) := (s.reqs[id].tx, Apply(cfg, s, Act(id, Survey)));
            && u.rows == s.rows && id in u.reqs && u.reqs[id].tx == Striking(tx.fam, ActiveRows(s.rows, tx.fam), tx.at)
            && forall h :: RowLocked(u, h) ==> RowLocked(s, h)
  {
    var u := Apply(cfg, s, Act(id, Survey));
    assert forall j :: j in u.reqs && j != id ==> j in s.reqs && u.reqs[j] == s.reqs[j];
    forall h | RowLocked(u, h)
      ensures RowLocked(s, h)
    {
      var j :| j in u.reqs && Holds(u.reqs[j], h);
      assert j in s.reqs && Holds(s.reqs[j], h);
    }
  }

  /** The survey and the strike of an uncontended alarm, one after the other, take every active row. */
  lemma UncontendedStrikeArms(cfg: Config, s: State, id: nat)
    requires id in s.reqs && s.reqs[id].tx.Alarmed? && !Contended(s, s.reqs[id].tx.fam)
    ensures var t := Apply(cfg, Apply(cfg, s, Act(id, Survey)), Act(id, Strike));
            && id in t.reqs && t.reqs[id].tx.Struck? && t.reqs[id].tx.fam == s.reqs[id].tx.fam
            && Armed(t, id, t.reqs[id])
  {
    SurveyLocksNothing(cfg, s, id);
    StrikeIffUncontended(cfg, Apply(cfg, s, Act(id, Survey)), id);
  }

  /**
   An alarm whose family revoke starts when no other transaction holds an active row of the family, and goes
   through at once, ends the family for good when it commits, whatever the others do in between and afterwards.
   */
  lemma {:induction false} UncontendedAlarmKills(cfg: Config, steps: seq<Step>, id: nat, between: seq<Step>,
                                                 heard: bool)
    requires var s := Run(cfg, steps);
             id in s.reqs && s.reqs[id].tx.Alarmed? && !Contended(s, s.reqs[id].tx.fam)
    requires forall k :: 0 <= k < |between| ==> !(between[k].Act? && between[k].id == id)
    ensures SpentForGood(cfg, steps + [Act(id, Survey)] + [Act(id, Strike)] + between
                              + [Act(id, CommitAlarm(true, heard))],
                         Run(cfg, steps).reqs[id].tx.fam)
  {
    var (s, fam) := (Run(cfg, steps), Run(cfg, steps).reqs[id].tx.fam);
    var struck := steps + [Act(id, Survey)] + [Act(id, Strike)];
    RunKeepsInv(cfg, steps);
    RunExtend(cfg, steps, Act(id, Survey));
    RunExtend(cfg, steps + [Act(id, Survey)], Act(id, Strike));
    UncontendedStrikeArms(cfg, s, id);
    var r := Run(cfg, struck).reqs[id];
    ArmedUntilCommit(cfg, struck, id, r, between);
    RunKeepsInv(cfg, struck + between);
    assert LoserOk(Run(cfg, struck + between).rows, r);
    ArmedAlarmSpends(cfg, Run(cfg, struck + between), id, r, heard);
    RunExtend(cfg, struck + between, Act(id, CommitAlarm(true, heard)));
    SpentIsForGood(cfg, struck + between + [Act(id, CommitAlarm(true, heard))], fam);
  }
}
