/**
 Calls of the two-factor service that nobody disturbs are the service's own; and runs in which concurrent
 calls break the conservation of recovery codes.
 */
module TotpRaces {
  import opened Wrappers
  import opened Clock
  import opened TtlCaches
  import opened AccessTokens
  import opened RecoveryCodes
  import opened TotpService
  import opened TotpStatements

  // ----- Undisturbed transactions -----

  /** Nobody holds anything of the user, or has codes for it pending. */
  ghost predicate Free(s: State, u: Uuid) {
    forall id :: id in s.reqs && s.reqs[id].Tx? && s.reqs[id].u == u ==>
      !s.reqs[id].matched && s.reqs[id].hits == {} && s.reqs[id].rows == {}
  }

  lemma FreeMeans(s: State, u: Uuid, id: nat, q: Req)
    requires Free(s, u) && q.u == u && (q.Tx? ==> q.hits == {} && q.rows == {})
    ensures !UserLocked(s, u)
    ensures forall r :: !CodeLocked(SetReq(s, id, q), u, r)
    ensures forall h :: !HashPending(SetReq(s, id, q), u, h)
  {
    var t := SetReq(s, id, q);
    assert forall j :: j in t.reqs && j != id ==> j in s.reqs && t.reqs[j] == s.reqs[j];
  }

  /** The transaction of `u` in a stage, all its user's codes seen. */
  function TxAt(l: Ledger, u: Uuid, confirm: bool, stage: Stage, hits: set<CodeRow>, rows: set<CodeRow>): Req {
    Tx(u, confirm, Matches(confirm, l.row), stage, l.codes, l.confirms, hits, rows)
  }

  /** The first UPDATE and the invalidation. */
  function Opening(hotp: Hotp, s: State, id: nat): State {
    Apply(hotp, Apply(hotp, Apply(hotp, s, Touch(id)), See(id)), Strike(id))
  }

  lemma Opens(hotp: Hotp, s: State, id: nat, u: Uuid, confirm: bool)
    requires id in s.reqs && s.reqs[id] == (if confirm then Confirming(u) else Disabling(u))
    requires u in s.users && Free(s, u)
    ensures Opening(hotp, s, id) == SetReq(s, id, TxAt(s.users[u], u, confirm, Struck, s.users[u].codes, {}))
  {
    var l := s.users[u];
    var (touched, seen) := (Tx(u, confirm, Matches(confirm, l.row), Touched, {}, 0, {}, {}),
                            TxAt(l, u, confirm, Seen, {}, {}));
    FreeMeans(s, u, id, touched);
    assert Apply(hotp, s, Touch(id)) == SetReq(s, id, touched);
    assert SetReq(SetReq(s, id, touched), id, seen) == SetReq(s, id, seen);
    assert Apply(hotp, SetReq(s, id, touched), See(id)) == SetReq(s, id, seen);
    FreeMeans(s, u, id, seen);
    assert l.codes * l.codes == l.codes;
    var struck := TxAt(l, u, confirm, Struck, l.codes, {});
    assert SetReq(SetReq(s, id, seen), id, struck) == SetReq(s, id, struck);
  }

  /** The user's ledger after an undisturbed confirmation. */
  function Confirmed(s: State, l: Ledger, e: Entropy): Ledger {
    Ledger(if Matches(true, l.row) then Activate(l.row, s.now) else l.row, NewRows(s.next, e), 0, l.confirms + 1)
  }

  lemma Closes(hotp: Hotp, s: State, id: nat, u: Uuid, e: Entropy)
    requires id in s.reqs && u in s.users && Free(s, u) && |Hashes(FreshCodes(e))| == 10
    ensures var (l, struck) := (s.users[u], TxAt(s.users[u], u, true, Struck, s.users[u].codes, {}));
            Apply(hotp, Apply(hotp, SetReq(s, id, struck), Fill(id, e)), Commit(id))
            == End(s, id).(users := s.users[u := Confirmed(s, l, e)], next := s.next + 10)
  {
    var l := s.users[u];
    var (struck, t) := (TxAt(l, u, true, Struck, l.codes, {}), SetReq(s, id, TxAt(l, u, true, Struck, l.codes, {})));
    FreeHashes(s, u, id, struck);
    assert l.codes - l.codes == {};
    var filled := Apply(hotp, t, Fill(id, e));
    assert filled.reqs[id] == TxAt(l, u, true, Filled, l.codes, NewRows(s.next, e));
    assert l.codes - l.codes + NewRows(s.next, e) == NewRows(s.next, e);
    assert filled.reqs - {id} == s.reqs - {id};
  }

  lemma FreeHashes(s: State, u: Uuid, id: nat, q: Req)
    requires Free(s, u) && q.u == u && q.Tx? && q.rows == {}
    ensures forall h :: !HashPending(SetReq(s, id, q), u, h)
  {
    var t := SetReq(s, id, q);
    assert forall j :: j in t.reqs && j != id ==> j in s.reqs && t.reqs[j] == s.reqs[j];
  }

  /** The whole transaction of a confirmation. */
  lemma WholeConfirm(hotp: Hotp, s: State, id: nat, u: Uuid, e: Entropy)
    requires id in s.reqs && s.reqs[id] == Confirming(u) && u in s.users && Free(s, u) && |Hashes(FreshCodes(e))| == 10
    ensures Apply(hotp, Apply(hotp, Opening(hotp, s, id), Fill(id, e)), Commit(id))
            == End(s, id).(users := s.users[u := Confirmed(s, s.users[u], e)], next := s.next + 10)
  {
    Opens(hotp, s, id, u, true);
    Closes(hotp, s, id, u, e);
  }

  /** The whole transaction of a disable. */
  lemma WholeDisable(hotp: Hotp, s: State, id: nat, u: Uuid)
    requires id in s.reqs && s.reqs[id] == Disabling(u) && u in s.users && Free(s, u)
    ensures var l := s.users[u];
            Apply(hotp, Opening(hotp, s, id), Commit(id))
            == End(s, id).(users := s.users[u := l.(row := Disable(l.row), codes := {})])
  {
    Opens(hotp, s, id, u, false);
    var l := s.users[u];
    var t := SetReq(s, id, TxAt(l, u, false, Struck, l.codes, {}));
    assert l.codes - l.codes + {} == {} && t.reqs - {id} == s.reqs - {id};
  }

  // ----- Calls at one instant -----

  function HashesOf(codes: set<CodeRow>): set<CodeHash> {
    set r | r in codes :: r.hash
  }

  /** The committed state, seen as the service's. */
  ghost predicate Represents(s: State, totp: Totp) {
    && totp.users.Keys == s.users.Keys && totp.replay == s.replay
    && forall u | u in s.users ::
         totp.users[u] == s.users[u].row && ActiveCodes(totp, u) == HashesOf(s.users[u].codes)
  }

  lemma HashesOfNewRows(next: nat, e: Entropy)
    ensures HashesOf(NewRows(next, e)) == Hashes(FreshCodes(e))
  {
    forall h | h in Hashes(FreshCodes(e)) ensures h in HashesOf(NewRows(next, e)) {
      var i :| 0 <= i < 10 && HashRecoveryCode(FreshCodes(e)[i]) == h;
      assert CodeHashes(e)[i] == h && CodeRow(next + i, CodeHashes(e)[i]) in NewRows(next, e);
    }
    forall h | h in HashesOf(NewRows(next, e)) ensures h in Hashes(FreshCodes(e)) {
      var i :| 0 <= i < 10 && CodeHashes(e)[i] == h;
      assert HashRecoveryCode(FreshCodes(e)[i]) == h;
    }
  }

  lemma FillFails(hotp: Hotp, s: State, id: nat, u: Uuid, e: Entropy)
    requires id in s.reqs && u in s.users && Free(s, u) && |Hashes(FreshCodes(e))| < 10
    ensures var struck := TxAt(s.users[u], u, true, Struck, s.users[u].codes, {});
            Apply(hotp, Apply(hotp, SetReq(s, id, struck), Fill(id, e)), Commit(id)) == End(s, id)
  {
    var struck := TxAt(s.users[u], u, true, Struck, s.users[u].codes, {});
    FreeHashes(s, u, id, struck);
    assert SetReq(s, id, struck).reqs - {id} == s.reqs - {id};
  }

  lemma NothingToDo(hotp: Hotp, s: State, id: nat, e: Entropy)
    requires id !in s.reqs
    ensures Opening(hotp, s, id) == s && Apply(hotp, s, Fill(id, e)) == s && Apply(hotp, s, Commit(id)) == s
  {
  }

  /** A confirmation that nobody disturbs is the service's `Confirm`, and finds its draft. */
  lemma AtOnceIsConfirm(hotp: Hotp, s: State, totp: Totp, id: nat, u: Uuid, code: string, e: Entropy)
    requires Represents(s, totp) && id !in s.reqs && Free(s, u)
    ensures var read := Apply(hotp, s, ReadForConfirm(id, u, code));
            Represents(Apply(hotp, Apply(hotp, Opening(hotp, read, id), Fill(id, e)), Commit(id)),
                       Confirm(hotp, totp, u, s.now, code, Some(e)).0)
    ensures var read := Apply(hotp, s, ReadForConfirm(id, u, code));
            id in read.reqs ==> Matches(true, read.users[u].row)
  {
    var read := Apply(hotp, s, ReadForConfirm(id, u, code));
    if read == s {
      NothingToDo(hotp, s, id, e);
    } else {
      assert read == SetReq(s, id, Confirming(u)) && Free(read, u);
      HashesBounded(FreshCodes(e));
      HashesOfNewRows(s.next, e);
      if |Hashes(FreshCodes(e))| < 10 {
        Opens(hotp, read, id, u, true);
        FillFails(hotp, read, id, u, e);
      } else {
        WholeConfirm(hotp, read, id, u, e);
      }
    }
  }

  lemma StoresDraft(hotp: Hotp, s: State, id: nat, u: Uuid, secret: TotpSecret)
    requires id !in s.reqs && Free(s, u) && u in s.users
    ensures Apply(hotp, SetReq(s, id, Drafting(u, secret)), StoreDraft(id))
            == SetRow(s, u, SetPending(s.users[u].row, secret, s.now))
  {
    var t := SetReq(s, id, Drafting(u, secret));
    assert Free(t, u) && t.reqs - {id} == s.reqs;
  }

  lemma RowRepresents(s: State, totp: Totp, u: Uuid, row: UserRow)
    requires Represents(s, totp) && u in s.users
    ensures Represents(SetRow(s, u, row), totp.(users := totp.users[u := row]))
  {
  }

  /** A setup that nobody disturbs is the service's `Setup`. */
  lemma AtOnceIsSetup(hotp: Hotp, s: State, totp: Totp, id: nat, u: Uuid, newSecret: TotpSecret)
    requires Represents(s, totp) && id !in s.reqs && Free(s, u)
    ensures var t := Apply(hotp, Apply(hotp, s, ReadForSetup(id, u, newSecret)), StoreDraft(id));
            Represents(t, Setup(totp, u, s.now, newSecret).0) && t.reqs == s.reqs
  {
    if PresentUser(s, u) && !s.users[u].row.enabled && GetPending(s.users[u].row, s.now).None? {
      StoresDraft(hotp, s, id, u, newSecret);
      RowRepresents(s, totp, u, SetPending(s.users[u].row, newSecret, s.now));
    } else {
      assert Apply(hotp, s, ReadForSetup(id, u, newSecret)) == s && Apply(hotp, s, StoreDraft(id)) == s;
    }
  }

  /** The cleanup of a row that no transaction holds is that of the service. */
  lemma SweepIsCleanup(hotp: Hotp, s: State, totp: Totp, u: Uuid)
    requires Represents(s, totp) && u in s.users && !UserLocked(s, u)
    ensures var t := Apply(hotp, s, SweepDraft(u));
            && u in t.users && t.users[u] == s.users[u].(row := Cleanup(totp, s.now).users[u])
            && t.users - {u} == s.users - {u}
  {
  }

  /** The index keeps unused codes of a user different; `r` is the one with this hash, if there is one. */
  ghost predicate IsCode(l: Ledger, h: CodeHash, r: CodeRow) {
    && (forall p, q :: p in l.codes && q in l.codes && p.hash == q.hash ==> p == q)
    && (h in HashesOf(l.codes) ==> r in l.codes && r.hash == h)
  }

  lemma ConsumesOne(l: Ledger, h: CodeHash, r: CodeRow)
    requires IsCode(l, h, r) && h in HashesOf(l.codes)
    ensures HashesOf(Consumed(l, r).codes) == HashesOf(l.codes) - {h}
  {
  }

  lemma FreeCodes(s: State, u: Uuid, id: nat, q: Req, r: CodeRow)
    requires Free(s, u) && !q.Tx?
    ensures !CodeLocked(SetReq(s, id, q), u, r)
  {
    var t := SetReq(s, id, q);
    assert forall j :: j in t.reqs && j != id ==> j in s.reqs && t.reqs[j] == s.reqs[j];
  }

  /** What the consumption of an undisturbed call leaves. */
  lemma SpendsAtOnce(hotp: Hotp, s: State, id: nat, u: Uuid, h: CodeHash, stepUp: bool, r: CodeRow)
    requires u in s.users && id !in s.reqs && Free(s, u) && IsCode(s.users[u], h, r)
    ensures var t := Apply(hotp, SetReq(s, id, Spending(u, h, stepUp)), Consume(id, r));
            if h !in HashesOf(s.users[u].codes) then t == s
            else
              var users := s.users[u := Consumed(s.users[u], r)];
              t == (if stepUp then SetReq(s, id, Disabling(u)) else s).(users := users)
  {
    var q := Spending(u, h, stepUp);
    FreeCodes(s, u, id, q, r);
    assert s.reqs[id := q] - {id} == s.reqs;
    assert s.reqs[id := q][id := Disabling(u)] == s.reqs[id := Disabling(u)];
  }

  /** Where a verification by `u` that started in `s` has come to. */
  ghost predicate Answers(s: State, t: State, id: nat, u: Uuid, stepUp: bool, totp: Totp, reply: Reply) {
    && Represents(t, totp) && t.now == s.now
    && t.reqs == if stepUp && reply.Verified? then s.reqs[id := Disabling(u)] else s.reqs
  }

  lemma VerifiesByCode(hotp: Hotp, s: State, totp: Totp, id: nat, u: Uuid, code: string, stepUp: bool, r: CodeRow)
    requires Represents(s, totp) && id !in s.reqs && Free(s, u) && IsRecoveryCode(code)
    requires PresentUser(s, u) && s.users[u].row.enabled && IsCode(s.users[u], HashRecoveryCode(code), r)
    ensures var t := Apply(hotp, Apply(hotp, s, ReadForVerify(id, u, code, stepUp)), Consume(id, r));
            var (totp', reply) := Verify(hotp, totp, u, s.now, code);
            Answers(s, t, id, u, stepUp, totp', reply)
  {
    var (h, l) := (HashRecoveryCode(code), s.users[u]);
    assert Apply(hotp, s, ReadForVerify(id, u, code, stepUp)) == SetReq(s, id, Spending(u, h, stepUp));
    SpendsAtOnce(hotp, s, id, u, h, stepUp, r);
    if h in HashesOf(l.codes) { ConsumesOne(l, h, r); }
  }

  lemma ConsumesNothing(hotp: Hotp, s: State, id: nat, r: CodeRow)
    requires id in s.reqs ==> !s.reqs[id].Spending?
    ensures Apply(hotp, s, Consume(id, r)) == s
  {
  }

  lemma VerifiesByTotp(hotp: Hotp, s: State, totp: Totp, id: nat, u: Uuid, code: string, stepUp: bool, r: CodeRow)
    requires Represents(s, totp) && id !in s.reqs
    requires !IsRecoveryCode(code) && PresentUser(s, u) && s.users[u].row.enabled
    ensures var t := Apply(hotp, Apply(hotp, s, ReadForVerify(id, u, code, stepUp)), Consume(id, r));
            var (totp', reply) := Verify(hotp, totp, u, s.now, code);
            Answers(s, t, id, u, stepUp, totp', reply)
  {
    ConsumesNothing(hotp, Apply(hotp, s, ReadForVerify(id, u, code, stepUp)), id, r);
  }

  lemma Refuses(hotp: Hotp, s: State, totp: Totp, id: nat, u: Uuid, code: string, stepUp: bool, r: CodeRow)
    requires Represents(s, totp) && id !in s.reqs && (!PresentUser(s, u) || !s.users[u].row.enabled)
    ensures var t := Apply(hotp, Apply(hotp, s, ReadForVerify(id, u, code, stepUp)), Consume(id, r));
            var (totp', reply) := Verify(hotp, totp, u, s.now, code);
            Answers(s, t, id, u, stepUp, totp', reply)
  {
    ConsumesNothing(hotp, Apply(hotp, s, ReadForVerify(id, u, code, stepUp)), id, r);
  }

  /** A verification, by recovery code or TOTP code, that nobody disturbs is the service's `Verify`; so is a step-up. */
  lemma AtOnceIsVerify(hotp: Hotp, s: State, totp: Totp, id: nat, u: Uuid, code: string, stepUp: bool, r: CodeRow)
    requires Represents(s, totp) && id !in s.reqs && Free(s, u)
    requires u in s.users ==> IsCode(s.users[u], HashRecoveryCode(code), r)
    ensures var t := Apply(hotp, Apply(hotp, s, ReadForVerify(id, u, code, stepUp)), Consume(id, r));
            var (totp', reply) := Verify(hotp, totp, u, s.now, code);
            Answers(s, t, id, u, stepUp, totp', reply)
  {
    if !PresentUser(s, u) || !s.users[u].row.enabled {
      Refuses(hotp, s, totp, id, u, code, stepUp, r);
    } else if IsRecoveryCode(code) {
      VerifiesByCode(hotp, s, totp, id, u, code, stepUp, r);
    } else {
      VerifiesByTotp(hotp, s, totp, id, u, code, stepUp, r);
    }
  }

  lemma TurnsOff(hotp: Hotp, s: State, totp: Totp, id: nat, u: Uuid)
    requires Represents(s, totp) && id in s.reqs && s.reqs[id] == Disabling(u) && u in s.users && Free(s, u)
    ensures Represents(Apply(hotp, Opening(hotp, s, id), Commit(id)),
                       totp.(users := totp.users[u := Disable(totp.users[u])], codes := totp.codes[u := {}]))
  {
    WholeDisable(hotp, s, id, u);
  }

  /** And a disable is the service's `TurnOffCall`. */
  lemma AtOnceIsDisable(hotp: Hotp, s: State, totp: Totp, id: nat, u: Uuid, code: string, r: CodeRow)
    requires Represents(s, totp) && id !in s.reqs && Free(s, u)
    requires u in s.users ==> IsCode(s.users[u], HashRecoveryCode(code), r)
    ensures var checked := Apply(hotp, Apply(hotp, s, ReadForVerify(id, u, code, true)), Consume(id, r));
            Represents(Apply(hotp, Opening(hotp, checked, id), Commit(id)), TurnOffCall(hotp, totp, u, s.now, code).0)
  {
    AtOnceIsVerify(hotp, s, totp, id, u, code, true, r);
    var checked := Apply(hotp, Apply(hotp, s, ReadForVerify(id, u, code, true)), Consume(id, r));
    var (totp', reply) := Verify(hotp, totp, u, s.now, code);
    if reply.Verified? {
      assert Free(checked, u);
      TurnsOff(hotp, checked, totp', id, u);
    } else {
      NothingToDo(hotp, checked, id, seq(100, _ => 0));
    }
  }

  // ----- Building runs -----

  lemma RunExtend(hotp: Hotp, steps: seq<Step>, step: Step)
    ensures Run(hotp, steps + [step]) == Apply(hotp, Run(hotp, steps), step)
  {
    assert (steps + [step])[..|steps + [step]| - 1] == steps;
  }

  lemma RunOpening(hotp: Hotp, steps: seq<Step>, id: nat) returns (steps': seq<Step>)
    ensures Run(hotp, steps') == Opening(hotp, Run(hotp, steps), id)
  {
    RunExtend(hotp, steps, Touch(id));
    steps' := steps + [Touch(id)];
    RunExtend(hotp, steps', See(id));
    steps' := steps' + [See(id)];
    RunExtend(hotp, steps', Strike(id));
    steps' := steps' + [Strike(id)];
  }

  lemma RunConfirm(hotp: Hotp, steps: seq<Step>, id: nat, e: Entropy) returns (steps': seq<Step>)
    requires var s := Run(hotp, steps); id in s.reqs && s.reqs[id] == Confirming(0) && 0 in s.users && Free(s, 0)
    requires |Hashes(FreshCodes(e))| == 10
    ensures var s := Run(hotp, steps);
            Run(hotp, steps') == End(s, id).(users := s.users[0 := Confirmed(s, s.users[0], e)], next := s.next + 10)
  {
    WholeConfirm(hotp, Run(hotp, steps), id, 0, e);
    steps' := RunOpening(hotp, steps, id);
    RunExtend(hotp, steps', Fill(id, e));
    steps' := steps' + [Fill(id, e)];
    RunExtend(hotp, steps', Commit(id));
    steps' := steps' + [Commit(id)];
  }

  lemma RunDisable(hotp: Hotp, steps: seq<Step>, id: nat) returns (steps': seq<Step>)
    requires var s := Run(hotp, steps); id in s.reqs && s.reqs[id] == Disabling(0) && 0 in s.users && Free(s, 0)
    ensures var s := Run(hotp, steps);
            var l := s.users[0].(row := Disable(s.users[0].row), codes := {});
            Run(hotp, steps') == End(s, id).(users := s.users[0 := l])
  {
    WholeDisable(hotp, Run(hotp, steps), id, 0);
    steps' := RunOpening(hotp, steps, id);
    RunExtend(hotp, steps', Commit(id));
    steps' := steps' + [Commit(id)];
  }

  const Off: UserRow := NewUser

  const Drafted: UserRow := UserRow(None, false, None, Some(0), Some(0), false)

  const On: UserRow := UserRow(Some(0), true, Some(0), None, None, false)

  /** The user 0 sets up 2FA with the secret 0, at the instant 0. */
  lemma RunSetup(hotp: Hotp, steps: seq<Step>) returns (steps': seq<Step>)
    requires var s := Run(hotp, steps);
             s.now == 0 && 0 in s.users && s.users[0].row == Off && 1 !in s.reqs && Free(s, 0)
    ensures Run(hotp, steps') == SetRow(Run(hotp, steps), 0, Drafted)
  {
    var s := Run(hotp, steps);
    RunExtend(hotp, steps, ReadForSetup(1, 0, 0));
    steps' := steps + [ReadForSetup(1, 0, 0)];
    var t := SetReq(s, 1, Drafting(0, 0));
    assert Run(hotp, steps') == t && Free(t, 0);
    assert t.reqs - {1} == s.reqs;
    RunExtend(hotp, steps', StoreDraft(1));
    steps' := steps' + [StoreDraft(1)];
  }

  /** A confirmation by the code of the draft passes its reads. */
  lemma RunRead(hotp: Hotp, steps: seq<Step>, id: nat) returns (steps': seq<Step>)
    requires Trim(hotp(0, 0)) == hotp(0, 0)
    requires var s := Run(hotp, steps); s.now == 0 && 0 in s.users && s.users[0].row == Drafted && id !in s.reqs
    ensures Run(hotp, steps') == SetReq(Run(hotp, steps), id, Confirming(0))
  {
    RunExtend(hotp, steps, ReadForConfirm(id, 0, hotp(0, 0)));
    steps' := steps + [ReadForConfirm(id, 0, hotp(0, 0))];
  }

  /** Ten times each of the bytes from 10 * k on. */
  function Sample(k: nat): Entropy
    requires k < 2
  {
    seq(100, i requires 0 <= i < 100 => i / 10 + 10 * k)
  }

  lemma SampleCode(k: nat, i: nat) returns (bytes: seq<Byte>)
    requires k < 2 && i < 10
    ensures |bytes| == 10 && bytes[0] == i + 10 * k && FreshCodes(Sample(k))[i] == Print(bytes)
    ensures CodeHashes(Sample(k))[i] == HashRecoveryCode(Print(bytes)) == Sha256(Print(bytes))
  {
    var e := Sample(k);
    bytes := e[10 * i..10 * i + 10];
    assert bytes[0] == e[10 * i] == 10 * i / 10 + 10 * k;
    HashOfPrint(bytes);
  }

  lemma HashOfPrint(bytes: seq<Byte>)
    requires |bytes| == 10
    ensures HashRecoveryCode(Print(bytes)) == Sha256(Print(bytes))
  {
    LowerOfPrint(bytes);
    TypedBackCode(bytes, Print(bytes), "", "");
  }

  lemma SampleCodesDiffer(k: nat, i: nat, m: nat, j: nat)
    requires k < 2 && m < 2 && i < 10 && j < 10 && (k != m || i != j)
    ensures CodeHashes(Sample(k))[i] != CodeHashes(Sample(m))[j]
  {
    var a := SampleCode(k, i);
    var b := SampleCode(m, j);
    if Print(a) == Print(b) { PrintInjective(a, b); }
  }

  lemma {:induction false} DifferentElements(hs: seq<CodeHash>)
    requires forall i, j :: 0 <= i < j < |hs| ==> hs[i] != hs[j]
    ensures |set h | h in hs| == |hs|
  {
    if hs != [] {
      var (init, last) := (hs[..|hs| - 1], hs[|hs| - 1]);
      DifferentElements(init);
      assert (set h | h in hs) == (set h | h in init) + {last};
    }
  }

  lemma HashesAreElements(e: Entropy)
    ensures Hashes(FreshCodes(e)) == set h | h in CodeHashes(e)
  {
    forall h ensures h in Hashes(FreshCodes(e)) <==> h in CodeHashes(e) {
      if h in Hashes(FreshCodes(e)) {
        var i :| 0 <= i < 10 && HashRecoveryCode(FreshCodes(e)[i]) == h;
        assert CodeHashes(e)[i] == h;
      }
      if h in CodeHashes(e) {
        var i :| 0 <= i < 10 && CodeHashes(e)[i] == h;
        assert HashRecoveryCode(FreshCodes(e)[i]) == h;
      }
    }
  }

  lemma TenSampleHashes(k: nat)
    requires k < 2
    ensures |Hashes(FreshCodes(Sample(k)))| == 10
  {
    var hs := CodeHashes(Sample(k));
    forall i, j | 0 <= i < j < 10 ensures hs[i] != hs[j] { SampleCodesDiffer(k, i, k, j); }
    DifferentElements(hs);
    HashesAreElements(Sample(k));
  }

  // ----- Runs in which conservation fails -----

  /** At the end of the run the user 0, not deleted, has 2FA `on` and this many usable codes. */
  ghost predicate EndsWith(hotp: Hotp, steps: seq<Step>, on: bool, codes: nat) {
    var s := Run(hotp, steps);
    PresentUser(s, 0) && s.users[0].row.enabled == on && |s.users[0].codes| == codes && s.users[0].spent == 0
  }

  lemma BrokenAtEnd(hotp: Hotp, steps: seq<Step>, on: bool, codes: nat)
    requires EndsWith(hotp, steps, on, codes) && codes != if on then 10 else 0
    ensures !ConservedThroughout(hotp, steps)
  {
    assert steps[..|steps|] == steps && !Conserved(Run(hotp, steps).users[0]);
  }

  /** A cleanup between the check of a confirmation and its transaction: 2FA is off, with ten usable codes. */
  lemma CleanupRace(hotp: Hotp) returns (steps: seq<Step>)
    requires Trim(hotp(0, 0)) == hotp(0, 0)
    ensures EndsWith(hotp, steps, false, 10) && !ConservedThroughout(hotp, steps)
  {
    steps := [];
    RunExtend(hotp, steps, AddUser(0));
    steps := steps + [AddUser(0)];
    steps := RunSetup(hotp, steps);
    steps := RunRead(hotp, steps, 2);
    RunExtend(hotp, steps, Tick(DRAFT_TTL + 1));
    steps := steps + [Tick(DRAFT_TTL + 1)];
    RunExtend(hotp, steps, SweepDraft(0));
    steps := steps + [SweepDraft(0)];
    assert Run(hotp, steps).users[0] == NewLedger;
    TenSampleHashes(0);
    steps := RunConfirm(hotp, steps, 2, Sample(0));
    RowsAreNew(0, CodeHashes(Sample(0)));
    BrokenAtEnd(hotp, steps, false, 10);
  }

  /** A step-up with the i-th sample code, still unused, passes. */
  lemma RunStepUp(hotp: Hotp, steps: seq<Step>, id: nat, i: nat) returns (steps': seq<Step>)
    requires i < 10
    requires var s := Run(hotp, steps);
             && 0 in s.users && s.users[0].row == On && id !in s.reqs && Free(s, 0)
             && CodeRow(i, CodeHashes(Sample(0))[i]) in s.users[0].codes
    ensures var s := Run(hotp, steps);
            Run(hotp, steps') == SetReq(s, id, Disabling(0))
              .(users := s.users[0 := Consumed(s.users[0], CodeRow(i, CodeHashes(Sample(0))[i]))])
  {
    var s := Run(hotp, steps);
    var bytes := SampleCode(0, i);
    var (code, r) := (Print(bytes), CodeRow(i, CodeHashes(Sample(0))[i]));
    PrintedIsAccepted(bytes);
    RunExtend(hotp, steps, ReadForVerify(id, 0, code, true));
    steps' := steps + [ReadForVerify(id, 0, code, true)];
    var q := Spending(0, r.hash, true);
    assert Run(hotp, steps') == SetReq(s, id, q);
    FreeCodes(s, 0, id, q, r);
    assert s.reqs[id := q][id := Disabling(0)] == s.reqs[id := Disabling(0)];
    RunExtend(hotp, steps', Consume(id, r));
    steps' := steps' + [Consume(id, r)];
  }

  /** The state after an enrolment at the instant 0. */
  function Enrolled(s: State): State
    requires 0 in s.users
  {
    s.(users := s.users[0 := Ledger(On, NewRows(s.next, Sample(0)), 0, s.users[0].confirms + 1)], next := s.next + 10)
  }

  lemma EnrolmentEnds(s: State)
    requires 0 in s.users && s.now == 0 && s.users[0].row == Off && 2 !in s.reqs
    ensures var t := SetReq(SetRow(s, 0, Drafted), 2, Confirming(0));
            End(t, 2).(users := t.users[0 := Confirmed(t, t.users[0], Sample(0))], next := t.next + 10) == Enrolled(s)
  {
    var t := SetReq(SetRow(s, 0, Drafted), 2, Confirming(0));
    assert t.reqs - {2} == s.reqs;
    assert Confirmed(t, t.users[0], Sample(0)) == Ledger(On, NewRows(s.next, Sample(0)), 0, s.users[0].confirms + 1);
    assert t.users[0 := Confirmed(t, t.users[0], Sample(0))] == s.users[0 := Confirmed(t, t.users[0], Sample(0))];
  }

  lemma RunEnrol(hotp: Hotp, steps: seq<Step>) returns (steps': seq<Step>)
    requires Trim(hotp(0, 0)) == hotp(0, 0)
    requires var s := Run(hotp, steps);
             s.now == 0 && 0 in s.users && s.users[0].row == Off && 1 !in s.reqs && 2 !in s.reqs && Free(s, 0)
    ensures Run(hotp, steps') == Enrolled(Run(hotp, steps))
  {
    var s := Run(hotp, steps);
    var t := SetReq(SetRow(s, 0, Drafted), 2, Confirming(0));
    steps' := RunSetup(hotp, steps);
    steps' := RunRead(hotp, steps', 2);
    assert Run(hotp, steps') == t && Free(t, 0);
    TenSampleHashes(0);
    steps' := RunConfirm(hotp, steps', 2, Sample(0));
    EnrolmentEnds(s);
  }

  lemma Sampled(next: nat, k: nat, i: nat)
    requires k < 2 && i < 10
    ensures CodeRow(next + i, CodeHashes(Sample(k))[i]) in NewRows(next, Sample(k))
  {
  }

  /** The user 0 with 2FA on; two disables, by the first two codes, have passed their step-up. */
  lemma TwoDisables(hotp: Hotp) returns (steps: seq<Step>)
    requires Trim(hotp(0, 0)) == hotp(0, 0)
    ensures var s := Run(hotp, steps);
            && s.now == 0 && s.users.Keys == {0} && s.users[0].row == On && s.users[0].confirms == 1
            && s.reqs == map[3 := Disabling(0), 4 := Disabling(0)] && s.next == 10
  {
    steps := [];
    RunExtend(hotp, steps, AddUser(0));
    steps := steps + [AddUser(0)];
    steps := RunEnrol(hotp, steps);
    Sampled(0, 0, 0);
    Sampled(0, 0, 1);
    steps := RunStepUp(hotp, steps, 3, 0);
    steps := RunStepUp(hotp, steps, 4, 1);
  }

  /** An unmatched transaction that nobody keeps waiting: snapshot and strike take every code. */
  lemma RunSweep(hotp: Hotp, steps: seq<Step>, id: nat, q: Req) returns (steps': seq<Step>)
    requires q.Tx? && q.u == 0 && q.stage.Touched? && q.hits == {} && q.rows == {}
    requires var s := Run(hotp, steps); 0 in s.users && id in s.reqs && s.reqs[id] == q && Free(s, 0)
    ensures var (s, l) := (Run(hotp, steps), Run(hotp, steps).users[0]);
            var struck := q.(stage := Struck, seen := l.codes, since := l.confirms, hits := l.codes);
            Run(hotp, steps') == SetReq(s, id, struck)
  {
    var s := Run(hotp, steps);
    var l := s.users[0];
    var seen := q.(stage := Seen, seen := l.codes, since := l.confirms);
    RunExtend(hotp, steps, See(id));
    steps' := steps + [See(id)];
    FreeMeans(s, 0, id, seen);
    assert l.codes * l.codes == l.codes;
    var struck := seen.(stage := Struck, hits := l.codes);
    assert SetReq(SetReq(s, id, seen), id, struck) == SetReq(s, id, struck);
    RunExtend(hotp, steps', Strike(id));
    steps' := steps' + [Strike(id)];
  }

  /** The first disable has committed, the second has found nothing to switch off, and the user has enrolled again. */
  lemma EnrolledAgain(hotp: Hotp, late: Req) returns (steps: seq<Step>)
    requires Trim(hotp(0, 0)) == hotp(0, 0) && late == Tx(0, false, false, Touched, {}, 0, {}, {})
    ensures var s := Run(hotp, steps);
            0 in s.users && s.reqs == map[4 := late] && s.users[0] == Ledger(On, NewRows(10, Sample(0)), 0, 2)
  {
    steps := TwoDisables(hotp);
    steps := RunDisable(hotp, steps, 3);
    var s := Run(hotp, steps);
    assert s.reqs == map[4 := Disabling(0)] && s.users[0].row == Off && !Matches(false, s.users[0].row);
    RunExtend(hotp, steps, Touch(4));
    steps := steps + [Touch(4)];
    assert Run(hotp, steps) == SetReq(s, 4, late) && SetReq(s, 4, late).reqs == map[4 := late];
    steps := RunEnrol(hotp, steps);
  }

  /**
   Two disables pass their step-up and the first commits; the second finds nothing to switch off. The user
   enrols again, and then the second disable uses up the new codes and commits: 2FA is on, without a code.
   */
  lemma DisableRace(hotp: Hotp) returns (steps: seq<Step>)
    requires Trim(hotp(0, 0)) == hotp(0, 0)
    ensures EndsWith(hotp, steps, true, 0) && !ConservedThroughout(hotp, steps)
  {
    var late := Tx(0, false, false, Touched, {}, 0, {}, {});
    steps := EnrolledAgain(hotp, late);
    steps := RunSweep(hotp, steps, 4, late);
    RunExtend(hotp, steps, Commit(4));
    steps := steps + [Commit(4)];
    assert Run(hotp, steps).users[0].codes == {};
    BrokenAtEnd(hotp, steps, true, 0);
  }

  // ----- Twenty codes -----

  /** The user 0 with 2FA on, and two more confirmations that have found no draft left and read the same snapshot. */
  lemma TwoLateConfirmations(hotp: Hotp, q: Req) returns (steps: seq<Step>)
    requires Trim(hotp(0, 0)) == hotp(0, 0)
    requires q == Tx(0, true, false, Seen, NewRows(0, Sample(0)), 1, {}, {})
    ensures var s := Run(hotp, steps);
            && 0 in s.users && s.users[0] == Ledger(On, NewRows(0, Sample(0)), 0, 1) && s.next == 10
            && s.reqs == map[3 := q, 4 := q]
  {
    steps := [];
    RunExtend(hotp, steps, AddUser(0));
    steps := steps + [AddUser(0)];
    steps := RunSetup(hotp, steps);
    steps := RunRead(hotp, steps, 2);
    steps := RunRead(hotp, steps, 3);
    steps := RunRead(hotp, steps, 4);
    TenSampleHashes(0);
    steps := RunConfirm(hotp, steps, 2, Sample(0));
    assert Run(hotp, steps).users[0] == Ledger(On, NewRows(0, Sample(0)), 0, 1);
    assert Run(hotp, steps).reqs == map[3 := Confirming(0), 4 := Confirming(0)];
    steps := RunLateRead(hotp, steps, 3);
    steps := RunLateRead(hotp, steps, 4);
  }

  lemma RunLateRead(hotp: Hotp, steps: seq<Step>, id: nat) returns (steps': seq<Step>)
    requires var s := Run(hotp, steps);
             0 in s.users && s.users[0].row == On && id in s.reqs && s.reqs[id] == Confirming(0)
    ensures var (s, l) := (Run(hotp, steps), Run(hotp, steps).users[0]);
            Run(hotp, steps') == SetReq(s, id, Tx(0, true, false, Seen, l.codes, l.confirms, {}, {}))
  {
    var s := Run(hotp, steps);
    var touched := Tx(0, true, false, Touched, {}, 0, {}, {});
    RunExtend(hotp, steps, Touch(id));
    steps' := steps + [Touch(id)];
    assert Run(hotp, steps') == SetReq(s, id, touched);
    RunExtend(hotp, steps', See(id));
    steps' := steps' + [See(id)];
    assert forall q :: SetReq(SetReq(s, id, touched), id, q) == SetReq(s, id, q);
  }

  /** A late confirmation that has read its snapshot. */
  predicate Late(q: Req) {
    q.Tx? && q.u == 0 && q.confirm && !q.matched && q.stage.Seen? && q.hits == {} && q.rows == {}
  }

  lemma LateStrike(hotp: Hotp, s: State, id: nat, q: Req)
    requires Late(q) && 0 in s.users && id in s.reqs && s.reqs[id] == q && Free(s, 0)
    ensures Apply(hotp, s, Strike(id)) == SetReq(s, id, q.(stage := Struck, hits := q.seen * s.users[0].codes))
  {
    FreeMeans(s, 0, id, q);
    assert SetReq(s, id, q) == s;
  }

  lemma LateFill(hotp: Hotp, s: State, id: nat, q: Req, k: nat)
    requires k < 2 && q.Tx? && q.u == 0 && q.confirm && q.stage.Struck? && q.rows == {} && 0 in s.users && Free(s, 0)
    requires forall r :: r in s.users[0].codes - q.hits ==> r.hash !in CodeHashes(Sample(k))
    ensures Apply(hotp, SetReq(s, id, q), Fill(id, Sample(k)))
            == SetReq(s, id, q.(stage := Filled, rows := NewRows(s.next, Sample(k)))).(next := s.next + 10)
  {
    FreeHashes(s, 0, id, q);
    TenSampleHashes(k);
    HashesAreElements(Sample(k));
    var filled := q.(stage := Filled, rows := NewRows(s.next, Sample(k)));
    assert SetReq(SetReq(s, id, q), id, filled) == SetReq(s, id, filled);
  }

  lemma LateCommit(hotp: Hotp, s: State, id: nat, q: Req)
    requires q.Tx? && q.u == 0 && q.confirm && !q.matched && q.stage.Filled? && 0 in s.users
    ensures var l := s.users[0];
            Apply(hotp, SetReq(s, id, q), Commit(id))
            == End(s, id).(users := s.users[0 := Ledger(l.row, l.codes - q.hits + q.rows, 0, l.confirms + 1)])
  {
    assert SetReq(s, id, q).reqs - {id} == s.reqs - {id};
  }

  /** What such a confirmation leaves: it uses up what is unused of its snapshot. */
  function LateEnd(s: State, id: nat, q: Req, k: nat): State
    requires k < 2 && q.Tx? && 0 in s.users
  {
    var (l, rows) := (s.users[0], NewRows(s.next, Sample(k)));
    End(s, id).(next := s.next + 10,
                users := s.users[0 := Ledger(l.row, l.codes - q.seen + rows, 0, l.confirms + 1)])
  }

  lemma LateRest(hotp: Hotp, s: State, id: nat, q: Req, k: nat)
    requires k < 2 && Late(q) && 0 in s.users && id in s.reqs && s.reqs[id] == q && Free(s, 0)
    requires forall r :: r in s.users[0].codes - q.seen ==> r.hash !in CodeHashes(Sample(k))
    ensures Apply(hotp, Apply(hotp, Apply(hotp, s, Strike(id)), Fill(id, Sample(k))), Commit(id))
              == LateEnd(s, id, q, k)
  {
    var struck := q.(stage := Struck, hits := q.seen * s.users[0].codes);
    var filled := struck.(stage := Filled, rows := NewRows(s.next, Sample(k)));
    assert s.users[0].codes - struck.hits == s.users[0].codes - q.seen;
    LateStrike(hotp, s, id, q);
    LateFill(hotp, s, id, struck, k);
    LateCommit(hotp, s.(next := s.next + 10), id, filled);
  }

  lemma RunLateCommit(hotp: Hotp, steps: seq<Step>, id: nat, q: Req, k: nat) returns (steps': seq<Step>)
    requires var s := Run(hotp, steps);
             && k < 2 && Late(q) && 0 in s.users && id in s.reqs && s.reqs[id] == q && Free(s, 0)
             && forall r :: r in s.users[0].codes - q.seen ==> r.hash !in CodeHashes(Sample(k))
    ensures Run(hotp, steps') == LateEnd(Run(hotp, steps), id, q, k)
  {
    LateRest(hotp, Run(hotp, steps), id, q, k);
    RunExtend(hotp, steps, Strike(id));
    steps' := steps + [Strike(id)];
    RunExtend(hotp, steps', Fill(id, Sample(k)));
    steps' := steps' + [Fill(id, Sample(k))];
    RunExtend(hotp, steps', Commit(id));
    steps' := steps' + [Commit(id)];
  }

  lemma RowsDisjoint(a: nat, d: nat, b: nat, e: nat)
    requires a < 2 && b < 2 && d + 10 <= e
    ensures NewRows(d, Sample(a)) !! NewRows(e, Sample(b))
    ensures |NewRows(d, Sample(a)) + NewRows(e, Sample(b))| == 20
  {
    RowsAreNew(d, CodeHashes(Sample(a)));
    RowsAreNew(e, CodeHashes(Sample(b)));
  }

  lemma OtherHashes(next: nat, r: CodeRow)
    requires r in NewRows(next, Sample(1))
    ensures r.hash !in CodeHashes(Sample(0))
  {
    var j :| 0 <= j < 10 && r == CodeRow(next + j, CodeHashes(Sample(1))[j]);
    forall i | 0 <= i < 10 ensures r.hash != CodeHashes(Sample(0))[i] { SampleCodesDiffer(1, j, 0, i); }
  }

  lemma OneLateCommitted(hotp: Hotp, q: Req) returns (steps: seq<Step>)
    requires Trim(hotp(0, 0)) == hotp(0, 0)
    requires q == Tx(0, true, false, Seen, NewRows(0, Sample(0)), 1, {}, {})
    ensures var s := Run(hotp, steps);
            && 0 in s.users && s.users[0] == Ledger(On, NewRows(10, Sample(1)), 0, 2) && s.next == 20
            && s.reqs == map[4 := q]
  {
    var first := NewRows(0, Sample(0));
    steps := TwoLateConfirmations(hotp, q);
    assert first - first == {};
    steps := RunLateCommit(hotp, steps, 3, q, 1);
    assert first - first + NewRows(10, Sample(1)) == NewRows(10, Sample(1));
  }

  /**
   Three confirmations pass their reads and the first commits. The other two find no draft, read the same
   codes, and commit one after the other; the last does not see the codes of the one before: twenty codes.
   */
  lemma ConfirmRace(hotp: Hotp) returns (steps: seq<Step>)
    requires Trim(hotp(0, 0)) == hotp(0, 0)
    ensures EndsWith(hotp, steps, true, 20) && !ConservedThroughout(hotp, steps)
  {
    var (first, second) := (NewRows(0, Sample(0)), NewRows(10, Sample(1)));
    var q := Tx(0, true, false, Seen, first, 1, {}, {});
    steps := OneLateCommitted(hotp, q);
    RowsDisjoint(0, 0, 1, 10);
    assert second - first == second;
    forall r | r in second - first ensures r.hash !in CodeHashes(Sample(0)) { OtherHashes(10, r); }
    steps := RunLateCommit(hotp, steps, 4, q, 0);
    RowsDisjoint(1, 10, 0, 20);
    BrokenAtEnd(hotp, steps, true, 20);
  }
}
