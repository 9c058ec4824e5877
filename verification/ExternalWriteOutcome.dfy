/** What the ledger says of a record is what happened to it; and what one undisturbed operation achieves. */
module ExternalWriteOutcome {
  import opened Wrappers
  import opened JsonValue
  import opened Session
  import opened ExternalWriteGate
  import opened ExternalWriteLedger
  import opened ExternalWriteProtocol

  // ----- the ledger tells the truth

  predicate NoCall(s: State, id: string) {
    forall k :: 0 <= k < |s.calls| ==> s.calls[k].id != id
  }

  ghost predicate AnsweredWell(s: State, w: WriteRecord, k: nat) {
    && k < |s.calls| && s.calls[k].id == w.id && s.calls[k].answer.Answered?
    && w.result == Some(Cut(s.calls[k].answer.text))
  }

  /** A call that failed left this very text. */
  predicate AnsweredBadly(w: WriteRecord, c: Called) {
    match c.answer
    case Answered(_) => false
    case AnsweredError(text) => w.result == Some(Cut(text))
    case Thrown(text) => w.result == Some(text)
  }

  /** The status of a record against the calls that went out; `executing` leaves the outcome in doubt. */
  ghost predicate Truthful(s: State, w: WriteRecord) {
    match w.status
    case Proposed => NoCall(s, w.id)
    case Executing => true
    case Executed => exists k: nat :: AnsweredWell(s, w, k)
    case WriteFailed => forall k :: 0 <= k < |s.calls| && s.calls[k].id == w.id ==> AnsweredBadly(w, s.calls[k])
  }

  ghost predicate LedgerTruthful(s: State) {
    forall j :: 0 <= j < |s.row.externalWrites| ==> Truthful(s, s.row.externalWrites[j])
  }

  /** What a patch is about to write: out of `executing` only by the confirm that claimed the record, and truthfully. */
  ghost predicate PatchTrue(s: State, i: nat, rec: WriteRecord, from: WriteStatus, to: WriteRecord, next: Then) {
    && to.id == rec.id
    && (from == Executing ==> rec.id in s.claimed && s.claimed[rec.id] == i && IsTerminal(to.status) && Truthful(s, to))
    && (from == Proposed && next.Stop? ==> to.status == WriteFailed)
  }

  ghost predicate OpTrue(s: State, i: nat, op: Op) {
    match op
    case Patching(rec, from, to, next, _) => PatchTrue(s, i, rec, from, to, next)
    case PatchingAt(rec, from, to, next, _, _) => PatchTrue(s, i, rec, from, to, next)
    case Calling(rec, _) =>
      forall j :: 0 <= j < |s.row.externalWrites| && s.row.externalWrites[j].id == rec.id ==>
        s.row.externalWrites[j].status == Executing
    case _ => true
  }

  ghost predicate OpsTrue(s: State) {
    forall i :: 0 <= i < |s.ops| ==> OpTrue(s, i, s.ops[i])
  }

  ghost predicate OutcomeInv(s: State) {
    LedgerTruthful(s) && OpsTrue(s)
  }

  lemma SameViewTruthful(s: State, s': State, w: WriteRecord)
    requires Truthful(s, w) && s'.calls == s.calls
    ensures Truthful(s', w)
  {
    if w.status == Executed {
      var k: nat :| AnsweredWell(s, w, k);
      assert AnsweredWell(s', w, k);
    }
  }

  /** No call went out and no claim changed: a patch that was true still is. */
  lemma SameViewPatch(s: State, s': State, j: nat, op: Op)
    requires OpTrue(s, j, op) && (op.Patching? || op.PatchingAt?) && s'.calls == s.calls
    requires forall id :: id in s.claimed ==> id in s'.claimed && s'.claimed[id] == s.claimed[id]
    ensures OpTrue(s', j, op)
  {
    if op.from == Executing {
      SameViewTruthful(s, s', op.to);
    }
  }

  lemma SameViewKeeps(s: State, s': State, i: nat, op: Op)
    requires OpTrue(s, i, op) && s'.row.externalWrites == s.row.externalWrites && s'.calls == s.calls && s'.claimed == s.claimed
    ensures OpTrue(s', i, op)
  {
    if op.Patching? || op.PatchingAt? {
      SameViewPatch(s, s', i, op);
    }
  }

  /** The steps that touch neither ledger nor calls nor claims: any old operation, or a new harmless one. */
  lemma QuietTrue(s: State, s': State)
    requires OutcomeInv(s)
    requires s'.row.externalWrites == s.row.externalWrites && s'.calls == s.calls && s'.claimed == s.claimed
    requires forall j :: 0 <= j < |s'.ops| ==> OpTrue(s, j, s'.ops[j])
    ensures OutcomeInv(s')
  {
    forall j | 0 <= j < |s'.ops| ensures OpTrue(s', j, s'.ops[j]) {
      SameViewKeeps(s, s', j, s'.ops[j]);
    }
    forall j | 0 <= j < |s'.row.externalWrites| ensures Truthful(s', s'.row.externalWrites[j]) {
      SameViewTruthful(s, s', s'.row.externalWrites[j]);
    }
  }

  lemma QuietOpTrue(env: Env, s: State, i: nat, op: Op, o: Oracle)
    requires LedgerOk(s) && OpTrue(s, i, op) && !op.Calling? && OpStep(env, s.row, op, o).row == s.row
    ensures OpTrue(s, i, OpStep(env, s.row, op, o).op)
  {
    match op {
      case ProposeAt(r, attempt, snap) =>
      case PatchingAt(rec, from, to, next, attempt, snap) =>
      case Confirm(id, digest) => ConfirmTrue(env, s, i, id, digest, o);
      case _ =>
    }
  }

  lemma ConfirmTrue(env: Env, s: State, i: nat, id: string, digest: string, o: Oracle)
    ensures OpTrue(s, i, ConfirmStep(env, s.row, id, digest, o))
  {
  }

  // ----- a call

  /** A new call by the confirm that claimed the record concerns no other record and no other operation. */
  lemma CallTruthful(s: State, s': State, call: Called, w: WriteRecord)
    requires Truthful(s, w) && s'.calls == s.calls + [call] && (call.id == w.id ==> w.status == Executing)
    ensures Truthful(s', w)
  {
    if w.status == Executed {
      var k: nat :| AnsweredWell(s, w, k);
      assert AnsweredWell(s', w, k);
    }
  }

  lemma CallSpares(s: State, s': State, call: Called, j: nat, op: Op)
    requires OpTrue(s, j, op) && s'.row == s.row && s'.claimed == s.claimed && s'.calls == s.calls + [call]
    requires call.id in s.claimed && s.claimed[call.id] != j
    ensures OpTrue(s', j, op)
  {
    match op
    case Patching(rec, from, to, next, _) => if from == Executing { CallTruthful(s, s', call, to); }
    case PatchingAt(rec, from, to, next, _, _) => if from == Executing { CallTruthful(s, s', call, to); }
    case _ =>
  }

  /** The confirm goes on to write exactly what its call brought. */
  lemma CallEndsTrue(env: Env, s: State, i: nat, o: Oracle)
    requires Inv(env, s) && i < |s.ops| && s.ops[i].Calling?
    ensures var s' := Next(env, s, Act(i, o)); OpTrue(s', i, s'.ops[i])
  {
    var s', rec := Next(env, s, Act(i, o)), s.ops[i].rec;
    assert OpOk(env, s, i, s.ops[i]);
    MintedMayExecute(env.digest, rec, s.ops[i].token.digest);
    assert NotCalled(s, rec.id);
    var k := |s.calls|;
    assert s'.calls[k].id == rec.id && s'.calls[k].answer == AnswerOf(o);
    if o.ok && !o.throws {
      assert AnsweredWell(s', s'.ops[i].to, k);
    }
  }

  lemma CallTrue(env: Env, s: State, i: nat, o: Oracle)
    requires Inv(env, s) && OutcomeInv(s) && i < |s.ops| && s.ops[i].Calling?
    ensures OutcomeInv(Next(env, s, Act(i, o)))
  {
    var s', op := Next(env, s, Act(i, o)), s.ops[i];
    var call := Called(op.rec.id, op.rec.action, Arguments(op.rec.target, op.rec.payload), op.token.digest, AnswerOf(o));
    CallEnds(env, s, i, o);
    CallGoesOut(env, s, i, call);
    CallEndsTrue(env, s, i, o);
    assert OpTrue(s, i, op);
    forall j | 0 <= j < |s'.ops| ensures OpTrue(s', j, s'.ops[j]) {
      if j != i {
        CallSpares(s, s', call, j, s.ops[j]);
      }
    }
    forall j | 0 <= j < |s'.row.externalWrites| ensures Truthful(s', s'.row.externalWrites[j]) {
      CallTruthful(s, s', call, s.row.externalWrites[j]);
    }
  }

  // ----- a committed append

  lemma ProposalTrue(env: Env, s: State, i: nat, o: Oracle)
    requires Inv(env, s) && OutcomeInv(s) && i < |s.ops| && s.ops[i].ProposeAt? && Next(env, s, Act(i, o)).row != s.row
    ensures OutcomeInv(Next(env, s, Act(i, o)))
  {
    var s', r, ws := Next(env, s, Act(i, o)), s.ops[i].record, s.row.externalWrites;
    assert OpOk(env, s, i, s.ops[i]);
    ProposalEffect(env, s, i, o);
    var kept := MakeRoom(ws).value;
    MakeRoomKeeps(ws);
    NotBornNotCalled(env, s, r.id);
    AppendTruthful(s, s', kept, r);
    forall j | 0 <= j < |s'.ops| ensures OpTrue(s', j, s'.ops[j]) {
      if j != i {
        assert OpOk(env, s, j, s.ops[j]);
        AppendSpares(s, s', kept, r, j, s.ops[j]);
      }
    }
  }

  lemma AppendTruthful(s: State, s': State, kept: Ledger, r: WriteRecord)
    requires LedgerTruthful(s) && (forall w :: w in kept ==> w in s.row.externalWrites)
    requires s'.row.externalWrites == kept + [r] && s'.calls == s.calls && Truthful(s, r)
    ensures LedgerTruthful(s')
  {
    forall j | 0 <= j < |s'.row.externalWrites| ensures Truthful(s', s'.row.externalWrites[j]) {
      if j < |kept| {
        assert kept[j] in kept;
        var m :| 0 <= m < |s.row.externalWrites| && s.row.externalWrites[m] == kept[j];
        SameViewTruthful(s, s', kept[j]);
      } else {
        SameViewTruthful(s, s', r);
      }
    }
  }

  lemma NotBornNotCalled(env: Env, s: State, id: string)
    requires Inv(env, s) && id !in s.born
    ensures NoCall(s, id)
  {
  }

  lemma AppendSpares(s: State, s': State, kept: Ledger, r: WriteRecord, j: nat, op: Op)
    requires OpTrue(s, j, op) && s'.row.externalWrites == kept + [r] && s'.calls == s.calls && s'.claimed == s.claimed
    requires forall w :: w in kept ==> w in s.row.externalWrites
    requires op.Calling? ==> op.rec.id != r.id
    ensures OpTrue(s', j, op)
  {
    if op.Calling? {
      var ws' := s'.row.externalWrites;
      forall m | 0 <= m < |ws'| && ws'[m].id == op.rec.id ensures ws'[m].status == Executing {
        assert ws'[m] == kept[m] && kept[m] in kept;
      }
    } else if op.Patching? || op.PatchingAt? {
      SameViewPatch(s, s', j, op);
    }
  }

  // ----- a committed patch

  lemma PatchedLedger(env: Env, s: State, i: nat, s': State, k: nat)
    requires Inv(env, s) && OutcomeInv(s) && i < |s.ops| && s.ops[i].PatchingAt? && k < |s.row.externalWrites|
    requires s.row.externalWrites[k].id == s.ops[i].rec.id && s.row.externalWrites[k].status == s.ops[i].from
    requires s'.row.externalWrites == s.row.externalWrites[k := s.ops[i].to] && s'.calls == s.calls
    ensures LedgerTruthful(s')
  {
    var op, ws, ws' := s.ops[i], s.row.externalWrites, s'.row.externalWrites;
    assert OpTrue(s, i, op) && OpOk(env, s, i, op) && Truthful(s, ws[k]);
    forall j | 0 <= j < |ws'| ensures Truthful(s', ws'[j]) {
      if j != k {
        SameViewTruthful(s, s', ws[j]);
      } else if op.from == Executing {
        SameViewTruthful(s, s', op.to);
      }
    }
  }

  lemma PatchSpares(env: Env, s: State, i: nat, s': State, k: nat, j: nat, op: Op)
    requires Inv(env, s) && i < |s.ops| && s.ops[i].PatchingAt? && k < |s.row.externalWrites| && j != i
    requires s.row.externalWrites[k].id == s.ops[i].rec.id && s.row.externalWrites[k].status == s.ops[i].from
    requires s'.row.externalWrites == s.row.externalWrites[k := s.ops[i].to] && s'.calls == s.calls
    requires forall id :: id in s.claimed ==> id in s'.claimed && s'.claimed[id] == s.claimed[id]
    requires OpOk(env, s, j, op) && OpTrue(s, j, op) && OpTrue(s, i, s.ops[i])
    ensures OpTrue(s', j, op)
  {
    if op.Patching? || op.PatchingAt? {
      SameViewPatch(s, s', j, op);
    } else if op.Calling? {
      if s.row.externalWrites[k].id == op.rec.id {
        assert false;
      }
    }
  }

  lemma PatchTrueKeeps(env: Env, s: State, i: nat, o: Oracle)
    requires Inv(env, s) && OutcomeInv(s) && i < |s.ops| && s.ops[i].PatchingAt? && Next(env, s, Act(i, o)).row != s.row
    ensures OutcomeInv(Next(env, s, Act(i, o)))
  {
    var s', op := Next(env, s, Act(i, o)), s.ops[i];
    assert OpOk(env, s, i, op) && OpTrue(s, i, op);
    var k := PatchEffect(env, s, i, o);
    PatchCommits(env, s, i, s', s'.row, k);
    PatchedLedger(env, s, i, s', k);
    forall j | 0 <= j < |s'.ops| ensures OpTrue(s', j, s'.ops[j]) {
      if j != i {
        PatchSpares(env, s, i, s', k, j, s.ops[j]);
      } else if op.next.Call? {
        ClaimedIsExecuting(s, s', k, op);
      }
    }
  }

  lemma ClaimedIsExecuting(s: State, s': State, k: nat, op: Op)
    requires LedgerOk(s) && op.PatchingAt? && k < |s.row.externalWrites| && s.row.externalWrites[k].id == op.rec.id
    requires s'.row.externalWrites == s.row.externalWrites[k := op.to] && op.to.status == Executing
    ensures forall j :: 0 <= j < |s'.row.externalWrites| && s'.row.externalWrites[j].id == op.rec.id ==>
      s'.row.externalWrites[j].status == Executing
  {
    forall j | 0 <= j < |s'.row.externalWrites| && s'.row.externalWrites[j].id == op.rec.id
      ensures s'.row.externalWrites[j].status == Executing
    {
      if j != k {
        DistinctIds(s, j, k);
      }
    }
  }

  // ----- every run

  lemma ActTrue(env: Env, s: State, i: nat, o: Oracle)
    requires Inv(env, s) && OutcomeInv(s) && i < |s.ops|
    ensures OutcomeInv(Next(env, s, Act(i, o)))
  {
    var op := s.ops[i];
    assert OpOk(env, s, i, op) && OpTrue(s, i, op);
    if op.Calling? {
      CallTrue(env, s, i, o);
    } else if Next(env, s, Act(i, o)).row == s.row {
      QuietOp(env, s, i, op, o);
      QuietOpTrue(env, s, i, op, o);
      QuietTrue(s, Next(env, s, Act(i, o)));
    } else {
      OnlyCommitsWrite(env, s, i, o);
      if op.ProposeAt? {
        ProposalTrue(env, s, i, o);
      } else {
        PatchTrueKeeps(env, s, i, o);
      }
    }
  }

  lemma NextTrue(env: Env, s: State, c: Choice)
    requires Inv(env, s) && OutcomeInv(s)
    ensures OutcomeInv(Next(env, s, c))
  {
    match c {
      case Act(i, o) => if i < |s.ops| { ActTrue(env, s, i, o); }
      case _ => QuietTrue(s, Next(env, s, c));
    }
  }

  lemma {:induction false} RunTrue(env: Env, s: State, cs: seq<Choice>)
    requires Inv(env, s) && OutcomeInv(s)
    ensures OutcomeInv(Run(env, s, cs))
    decreases |cs|
  {
    if |cs| > 0 {
      NextKeeps(env, s, cs[0]);
      NextTrue(env, s, cs[0]);
      RunTrue(env, Next(env, s, cs[0]), cs[1..]);
    }
  }

  /**
   Over every run: a record marked `executed` has a call that answered well, and its result is that answer; one marked
   `failed` has none that did, and if it was called its result is the error; an open one was never called.
   */
  lemma LedgerTellsTheTruth(env: Env, row: Row, cs: seq<Choice>)
    requires row.externalWrites == []
    ensures var s := Run(env, Start(row), cs);
      forall j :: 0 <= j < |s.row.externalWrites| ==> Truthful(s, s.row.externalWrites[j])
  {
    RunTrue(env, Start(row), cs);
  }

  // ----- one operation with nobody in between

  /** The open record that a GitHub proposal would repeat. */
  predicate Repeats(env: Env, r: WriteRecord, w: WriteRecord) {
    r.provider == GITHUB && w.status == Proposed && Digest(env.digest, w.(provider := GITHUB)) == Digest(env.digest, r)
  }

  /** What an undisturbed proposal makes of the ledger. */
  ghost predicate Appended(env: Env, ws: Ledger, r: WriteRecord, ws': Ledger) {
    if (exists j :: 0 <= j < |ws| && Repeats(env, r, ws[j])) then ws' == ws
    else if |ws| < EXTERNAL_WRITES_MAX then ws' == ws + [r]
    else if (forall j :: 0 <= j < |ws| ==> InFlight(ws[j])) then ws' == ws
    else exists j :: IsOldestTerminal(ws, j) && ws' == RemoveAt(ws, j) + [r]
  }

  lemma DedupeIffRepeats(env: Env, r: WriteRecord, ws: Ledger)
    ensures DedupeFor(env, r)(ws).Some? <==> exists j :: 0 <= j < |ws| && Repeats(env, r, ws[j])
  {
    if r.provider == GITHUB {
      var p := (w: WriteRecord) => w.status == Proposed && Digest(env.digest, w.(provider := GITHUB)) == Digest(env.digest, r);
      var found := FindIndex(ws, p);
      if found.Some? {
        assert Repeats(env, r, ws[found.value]);
      } else {
        forall j | 0 <= j < |ws| ensures !Repeats(env, r, ws[j]) {
          assert !p(ws[j]);
        }
      }
    }
  }

  /** The first attempt of an undisturbed proposal reads and writes the very same row. */
  lemma ProposalRuns(env: Env, s: State, i: nat, r: WriteRecord, o1: Oracle, o2: Oracle)
    requires i < |s.ops| && s.ops[i] == Propose(r, 0)
    ensures var s' := Next(env, Next(env, s, Act(i, o1)), Act(i, o2));
      && s'.ops == s.ops[i := Ended] && s'.calls == s.calls
      && (if DedupeFor(env, r)(s.row.externalWrites).Some? || MakeRoom(s.row.externalWrites).None? then s'.row == s.row
          else s'.row == s.row.(externalWrites := MakeRoom(s.row.externalWrites).value + [r], version := s.row.version + 1))
  {
    assert s.calls + [] == s.calls;
    var op := OpStep(env, s.row, s.ops[i], o1).op;
    assert s.ops[i := op][i := Ended] == s.ops[i := Ended];
  }

  /**
   A proposal that meets no interference: an open GitHub record with the same content is not repeated, a ledger full of
   writes in flight refuses, and otherwise the record is appended, at the cost of the oldest terminal one if the ledger is
   full. Nothing else in the row changes.
   */
  lemma UndisturbedProposal(env: Env, s: State, i: nat, r: WriteRecord, o1: Oracle, o2: Oracle)
    requires i < |s.ops| && s.ops[i] == Propose(r, 0) && |s.row.externalWrites| <= EXTERNAL_WRITES_MAX
    ensures var s' := Next(env, Next(env, s, Act(i, o1)), Act(i, o2));
      && s'.ops == s.ops[i := Ended] && s'.calls == s.calls
      && Appended(env, s.row.externalWrites, r, s'.row.externalWrites)
      && s'.row == s.row.(externalWrites := s'.row.externalWrites, version := s'.row.version)
  {
    ProposalRuns(env, s, i, r, o1, o2);
    var ws := s.row.externalWrites;
    DedupeIffRepeats(env, r, ws);
    RefusedOnlyWhenAllInFlight(ws);
    if MakeRoom(ws).Some? {
      MakeRoomKeeps(ws);
    }
  }

  /** An append or a patch that meets a foreign commit is tried again, up to six times in all. */
  lemma StaleWritesRetry(env: Env, s: State, i: nat, o: Oracle)
    requires i < |s.ops| && (s.ops[i].ProposeAt? || s.ops[i].PatchingAt?) && s.ops[i].snap.version != s.row.version
    requires s.ops[i].ProposeAt? ==> AppendDecision(s.ops[i].record, DedupeFor(env, s.ops[i].record))(s.ops[i].snap).Put?
    requires s.ops[i].PatchingAt? ==> PatchDecision(s.ops[i].rec.id, s.ops[i].from, s.ops[i].to)(s.ops[i].snap).Put?
    ensures var op, s' := s.ops[i], Next(env, s, Act(i, o));
      && s'.row == s.row && s'.calls == s.calls
      && s'.ops[i] ==
         if op.attempt >= MAX_RETRY then Ended
         else if op.ProposeAt? then Propose(op.record, op.attempt + 1)
         else Patching(op.rec, op.from, op.to, op.next, op.attempt + 1)
  {
    assert s.calls + [] == s.calls;
  }

  /** An undisturbed patch of a record at the expected status: one read, one write. */
  lemma PatchRuns(env: Env, s: State, i: nat, k: nat, o1: Oracle, o2: Oracle)
    requires LedgerOk(s) && i < |s.ops| && s.ops[i].Patching? && k < |s.row.externalWrites|
    requires s.row.externalWrites[k].id == s.ops[i].rec.id && s.row.externalWrites[k].status == s.ops[i].from
    ensures var s', op := Next(env, Next(env, s, Act(i, o1)), Act(i, o2)), s.ops[i];
      && s'.row == s.row.(externalWrites := s.row.externalWrites[k := op.to], version := s.row.version + 1)
      && s'.ops == s.ops[i := if op.next.Call? then Calling(op.rec, op.next.token) else Ended]
      && s'.calls == s.calls && s'.born == s.born && s'.issued == s.issued
  {
    var op := s.ops[i];
    PatchedAt(s, k, op.to);
    assert s.calls + [] == s.calls;
    assert Next(env, s, Act(i, o1)).ops[i] == PatchingAt(op.rec, op.from, op.to, op.next, op.attempt, s.row);
  }

  /** The record after a call that brought this answer. */
  function Resolved(rec: WriteRecord, o: Oracle): WriteRecord {
    match AnswerOf(o)
    case Answered(text) => rec.(status := Executed, result := Some(Cut(text)), confirmedAt := Some(o.now))
    case AnsweredError(text) => rec.(status := WriteFailed, result := Some(Cut(text)), confirmedAt := Some(o.now))
    case Thrown(text) => rec.(status := WriteFailed, result := Some(text), confirmedAt := Some(o.now))
  }

  /** The human confirmed this very content, and it is one of the writes that are allowed. */
  predicate Confirmable(env: Env, rec: WriteRecord, confirmed: string) {
    IsAllowed(rec.provider, rec.action) && CollidingKeys(rec.target, rec.payload) == {} && confirmed == Digest(env.digest, rec)
  }

  /** What an undisturbed confirm does: `o` answers it at first, `c` the call. */
  ghost predicate Confirmed(env: Env, s: State, s': State, k: nat, confirmed: string, o: Oracle, c: Oracle)
    requires k < |s.row.externalWrites|
  {
    var ws, rec := s.row.externalWrites, s.row.externalWrites[k];
    if rec.status != Proposed || !o.reachable then s'.row == s.row && s'.calls == s.calls
    else if !Confirmable(env, rec, confirmed) then
      && s'.calls == s.calls
      && s'.row == s.row.(externalWrites :=
           ws[k := rec.(status := WriteFailed, result := Some(o.text), confirmedAt := Some(o.now))], version := s.row.version + 1)
    else
      && s'.calls == s.calls + [Called(rec.id, rec.action, Arguments(rec.target, rec.payload), confirmed, AnswerOf(c))]
      && s'.row == s.row.(externalWrites := ws[k := Resolved(rec, c)], version := s.row.version + 2)
  }

  /** A confirm of a record that is not open, or without a transport, ends at once. */
  lemma ConfirmRefuses(env: Env, s: State, i: nat, id: string, confirmed: string, k: nat, o: Oracle)
    requires LedgerOk(s) && i < |s.ops| && s.ops[i] == Confirm(id, confirmed)
    requires k < |s.row.externalWrites| && s.row.externalWrites[k].id == id
    ensures var rec := s.row.externalWrites[k];
      Next(env, s, Act(i, o)) == s.(ops := s.ops[i :=
        if rec.status != Proposed || !o.reachable then Ended
        else if Confirmable(env, rec, confirmed) then
          Patching(rec, Proposed, rec.(status := Executing), Call(Token(id, confirmed)), 0)
        else
          Patching(rec, Proposed, rec.(status := WriteFailed, result := Some(o.text), confirmedAt := Some(o.now)), Stop, 0)])
  {
    PatchedAt(s, k, s.row.externalWrites[k]);
    assert s.calls + [] == s.calls;
  }

  lemma CallRunsAlone(env: Env, s: State, i: nat, rec: WriteRecord, confirmed: string, c: Oracle)
    requires i < |s.ops| && s.ops[i] == Calling(rec, Token(rec.id, confirmed)) && Confirmable(env, rec, confirmed)
    ensures Next(env, s, Act(i, c)) ==
            s.(ops := s.ops[i := Patching(rec, Executing, Resolved(rec, c), Stop, 0)],
               calls := s.calls + [Called(rec.id, rec.action, Arguments(rec.target, rec.payload), confirmed, AnswerOf(c))])
  {
  }

  lemma PatchedLedgerOk(s: State, s': State, k: nat, to: WriteRecord)
    requires LedgerOk(s) && k < |s.row.externalWrites| && SameContent(to, s.row.externalWrites[k])
    requires s'.row.externalWrites == s.row.externalWrites[k := to] && s'.issued == s.issued && s'.born == s.born
    ensures LedgerOk(s')
  {
    forall j | 0 <= j < |s'.row.externalWrites| ensures Carries(s', s'.row.externalWrites[j]) {
      assert Carries(s, s.row.externalWrites[j]);
    }
  }

  lemma ConfirmCallsOnce(env: Env, s: State, i: nat, id: string, confirmed: string, k: nat, os: seq<Oracle>)
    requires LedgerOk(s) && i < |s.ops| && s.ops[i] == Confirm(id, confirmed) && |os| == 6
    requires k < |s.row.externalWrites| && s.row.externalWrites[k].id == id
    requires s.row.externalWrites[k].status == Proposed && os[0].reachable && Confirmable(env, s.row.externalWrites[k], confirmed)
    ensures var s' := Steps(env, s, i, os); s'.ops == s.ops[i := Ended] && Confirmed(env, s, s', k, confirmed, os[0], os[3])
  {
    ClaimsFirst(env, s, i, id, confirmed, k, os);
    var s3 := Next(env, Next(env, Next(env, s, Act(i, os[0])), Act(i, os[1])), Act(i, os[2]));
    CallsAndResolves(env, s3, i, s.row.externalWrites[k], confirmed, k, os[3], os[4], os[5]);
    assert s.row.externalWrites[k := s.row.externalWrites[k].(status := Executing)][k := Resolved(s.row.externalWrites[k], os[3])]
           == s.row.externalWrites[k := Resolved(s.row.externalWrites[k], os[3])];
  }

  /** The first half: the record is taken to `executing` before anything goes out. */
  lemma ClaimsFirst(env: Env, s: State, i: nat, id: string, confirmed: string, k: nat, os: seq<Oracle>)
    requires LedgerOk(s) && i < |s.ops| && s.ops[i] == Confirm(id, confirmed) && |os| == 6
    requires k < |s.row.externalWrites| && s.row.externalWrites[k].id == id
    requires s.row.externalWrites[k].status == Proposed && os[0].reachable && Confirmable(env, s.row.externalWrites[k], confirmed)
    ensures var rec := s.row.externalWrites[k];
      var s3 := Next(env, Next(env, Next(env, s, Act(i, os[0])), Act(i, os[1])), Act(i, os[2]));
      && LedgerOk(s3) && s3.calls == s.calls && s3.ops == s.ops[i := Calling(rec, Token(id, confirmed))]
      && s3.row == s.row.(externalWrites := s.row.externalWrites[k := rec.(status := Executing)], version := s.row.version + 1)
  {
    var rec, s1 := s.row.externalWrites[k], Next(env, s, Act(i, os[0]));
    ConfirmRefuses(env, s, i, id, confirmed, k, os[0]);
    PatchRuns(env, s1, i, k, os[1], os[2]);
    PatchedLedgerOk(s1, Next(env, Next(env, s1, Act(i, os[1])), Act(i, os[2])), k, rec.(status := Executing));
  }

  /** The second half: the call, and the record of its answer. */
  lemma CallsAndResolves(env: Env, s: State, i: nat, rec: WriteRecord, confirmed: string, k: nat, c: Oracle, o1: Oracle, o2: Oracle)
    requires LedgerOk(s) && i < |s.ops| && s.ops[i] == Calling(rec, Token(rec.id, confirmed)) && Confirmable(env, rec, confirmed)
    requires k < |s.row.externalWrites| && s.row.externalWrites[k] == rec.(status := Executing)
    ensures var s' := Next(env, Next(env, Next(env, s, Act(i, c)), Act(i, o1)), Act(i, o2));
      && s'.ops == s.ops[i := Ended]
      && s'.calls == s.calls + [Called(rec.id, rec.action, Arguments(rec.target, rec.payload), confirmed, AnswerOf(c))]
      && s'.row == s.row.(externalWrites := s.row.externalWrites[k := Resolved(rec, c)], version := s.row.version + 1)
  {
    CallRunsAlone(env, s, i, rec, confirmed, c);
    PatchRuns(env, Next(env, s, Act(i, c)), i, k, o1, o2);
  }

  /** Six steps of operation i. */
  function Steps(env: Env, s: State, i: nat, os: seq<Oracle>): State
    requires |os| == 6
  {
    var s3 := Next(env, Next(env, Next(env, s, Act(i, os[0])), Act(i, os[1])), Act(i, os[2]));
    Next(env, Next(env, Next(env, s3, Act(i, os[3])), Act(i, os[4])), Act(i, os[5]))
  }

  lemma ConfirmFails(env: Env, s: State, i: nat, id: string, confirmed: string, k: nat, os: seq<Oracle>)
    requires LedgerOk(s) && i < |s.ops| && s.ops[i] == Confirm(id, confirmed) && |os| == 6
    requires k < |s.row.externalWrites| && s.row.externalWrites[k].id == id
    requires !(s.row.externalWrites[k].status == Proposed && os[0].reachable && Confirmable(env, s.row.externalWrites[k], confirmed))
    ensures var s' := Steps(env, s, i, os); s'.ops == s.ops[i := Ended] && Confirmed(env, s, s', k, confirmed, os[0], os[3])
  {
    var s1 := Next(env, s, Act(i, os[0]));
    var s3 := Next(env, Next(env, s1, Act(i, os[1])), Act(i, os[2]));
    ConfirmRefuses(env, s, i, id, confirmed, k, os[0]);
    if s1.ops[i] == Ended {
      EndedStep(env, s1, i, os[1]);
      EndedStep(env, s1, i, os[2]);
    } else {
      PatchRuns(env, s1, i, k, os[1], os[2]);
    }
    EndedStep(env, s3, i, os[3]);
    EndedStep(env, s3, i, os[4]);
    EndedStep(env, s3, i, os[5]);
  }

  lemma EndedStep(env: Env, s: State, i: nat, o: Oracle)
    requires i < |s.ops| && s.ops[i] == Ended
    ensures Next(env, s, Act(i, o)) == s
  {
    assert s.ops[i := Ended] == s.ops && s.calls + [] == s.calls;
  }

  /**
   A confirm that meets no interference ends after at most six steps. A record that is not open, or no transport: nothing
   happens. Another digest, a forbidden action or colliding keys: the record is marked `failed` without a call. Otherwise
   the call goes out once, with the record's own arguments, and its answer decides between `executed` and `failed`.
   */
  lemma UndisturbedConfirm(env: Env, s: State, i: nat, id: string, confirmed: string, k: nat, os: seq<Oracle>)
    requires LedgerOk(s) && i < |s.ops| && s.ops[i] == Confirm(id, confirmed) && |os| == 6
    requires k < |s.row.externalWrites| && s.row.externalWrites[k].id == id
    ensures var s' := Steps(env, s, i, os); s'.ops == s.ops[i := Ended] && Confirmed(env, s, s', k, confirmed, os[0], os[3])
  {
    var rec := s.row.externalWrites[k];
    if rec.status == Proposed && os[0].reachable && Confirmable(env, rec, confirmed) {
      ConfirmCallsOnce(env, s, i, id, confirmed, k, os);
    } else {
      ConfirmFails(env, s, i, id, confirmed, k, os);
    }
  }
}
