/**
 Propose, confirm, execute: the external-write protocol as a step machine over the session row.

 Any number of proposals and confirms run concurrently, other writers commit at will, and a crash kills every
 operation in flight while the row survives. The in-process `confirmingWrites` guard is left out on purpose:
 what is proved does not depend on it, so it holds across processes and restarts.
 */
module ExternalWriteProtocol {
  import opened Wrappers
  import opened JsonValue
  import opened Session
  import opened ExternalWriteGate
  import opened ExternalWriteLedger
  import OptimisticWrite

  datatype Env = Env(digest: DigestFn, isPositiveInt: Value -> bool)

  /** What one confirm still has to do after the patch it is working on. */
  datatype Then = Stop | Call(token: Token)

  datatype Op =
    | Ended
    | Propose(record: WriteRecord, attempt: nat)                                      // appendExternalWrite, before store.get
    | ProposeAt(record: WriteRecord, attempt: nat, snap: Row)                         // ... before store.update
    | Confirm(id: string, digest: string)                                             // the confirm route, before its first read
    | Patching(rec: WriteRecord, from: WriteStatus, to: WriteRecord, next: Then, attempt: nat)              // patchExternalWrite, before store.get
    | PatchingAt(rec: WriteRecord, from: WriteStatus, to: WriteRecord, next: Then, attempt: nat, snap: Row) // ... before store.update
    | Calling(rec: WriteRecord, token: Token)                                         // about to execute

  /** What the remote tool did: it answered, it answered with an error, or the call threw. */
  datatype Answer = Answered(text: string) | AnsweredError(text: string) | Thrown(text: string)

  /** `callTool` ran for the record with this id. */
  datatype Called = Called(id: string, action: Text, args: map<Text, Value>, confirmed: string, answer: Answer)

  /**
   `issued` has every record ever proposed, as proposed, and `issuedBy` the operation that proposed it; `born`
   numbers the recorded ones in commit order; `claimed` has the ids that went from `proposed` to `executing`,
   with the confirm that took them there.
   */
  datatype State = State(
    row: Row, ops: seq<Op>, calls: seq<Called>,
    issued: map<string, WriteRecord>, issuedBy: map<string, nat>, born: map<string, nat>, claimed: map<string, nat>)

  /** `reachable` is a usable transport; `ok`, `throws` and the texts are the remote tool's answer. */
  datatype Oracle = Oracle(reachable: bool, ok: bool, throws: bool, text: string, now: string)

  datatype Choice =
    | StartProposal(record: WriteRecord)
    | StartConfirm(id: string, digest: string)
    | Act(i: nat, o: Oracle)
    | Foreign(w: Session.Write)
    | Crash

  /** `born` and `claimed` are the id, if any, that the step recorded or took to `executing`. */
  datatype Out = Out(row: Row, op: Op, calls: seq<Called>, born: Option<string>, claimed: Option<string>)

  function Stay(row: Row, op: Op): Out {
    Out(row, op, [], None, None)
  }

  // ----- proposing

  /** The checks of the propose route, and of the GitHub recorder behind it. */
  predicate ProposalAccepted(env: Env, r: WriteRecord) {
    && r.status == Proposed
    && IsAllowed(r.provider, r.action)
    && (r.provider == GITHUB ==>
          && (r.action == MERGE_PULL_REQUEST ==>
                Ascii("pullNumber") in Properties(MembersOf(r.target))
                && env.isPositiveInt(Properties(MembersOf(r.target))[Ascii("pullNumber")]))
          && CollidingKeys(r.target, r.payload) == {})
  }

  function DedupeFor(env: Env, r: WriteRecord): Ledger -> Option<WriteRecord> {
    if r.provider == GITHUB then GithubDedupe(env.digest, r) else NoDedupe()
  }

  function ProposeStep(env: Env, row: Row, r: WriteRecord, attempt: nat): Out {
    var d := AppendDecision(r, DedupeFor(env, r))(row);
    if d.Stop? then Stay(row, Ended) else Stay(row, ProposeAt(r, attempt, row))
  }

  function ProposeAtStep(env: Env, row: Row, r: WriteRecord, attempt: nat, snap: Row): Out {
    var d := AppendDecision(r, DedupeFor(env, r))(snap);
    if d.Stop? then Stay(row, Ended)
    else
      match Commit(row, d.write, snap.version)
      case Some(row') => Out(row', Ended, [], Some(r.id), None)
      case None => Stay(row, if attempt >= MAX_RETRY then Ended else Propose(r, attempt + 1))
  }

  // ----- confirming

  function ConfirmStep(env: Env, row: Row, id: string, confirmed: string, o: Oracle): Op {
    match FindWrite(row.externalWrites, id)
    case None => Ended
    case Some(i) =>
      var rec := row.externalWrites[i];
      if rec.status != Proposed || !o.reachable then Ended
      else
        match Mint(env.digest, rec, confirmed)
        case Some(token) => Patching(rec, Proposed, rec.(status := Executing), Call(token), 0)
        case None =>
          Patching(rec, Proposed, rec.(status := WriteFailed, result := Some(o.text), confirmedAt := Some(o.now)), Stop, 0)
  }

  function PatchStep(row: Row, rec: WriteRecord, from: WriteStatus, to: WriteRecord, next: Then, attempt: nat): Op {
    if PatchDecision(rec.id, from, to)(row).Stop? then Ended else PatchingAt(rec, from, to, next, attempt, row)
  }

  function PatchAtStep(row: Row, rec: WriteRecord, from: WriteStatus, to: WriteRecord, next: Then, attempt: nat, snap: Row): Out {
    var d := PatchDecision(rec.id, from, to)(snap);
    if d.Stop? then Stay(row, Ended)
    else
      match Commit(row, d.write, snap.version)
      case Some(row') => if next.Call? then Out(row', Calling(rec, next.token), [], None, Some(rec.id)) else Stay(row', Ended)
      case None => Stay(row, if attempt >= MAX_RETRY then Ended else Patching(rec, from, to, next, attempt + 1))
  }

  const RESULT_MAX := 500

  /** `text.slice(0, 500)`. */
  function Cut(text: string): string {
    if |text| <= RESULT_MAX then text else text[..RESULT_MAX]
  }

  function AnswerOf(o: Oracle): Answer {
    if o.throws then Thrown(o.text) else if o.ok then Answered(o.text) else AnsweredError(o.text)
  }

  /** `executeExternalWrite` and the record of its outcome. */
  function CallStep(env: Env, row: Row, rec: WriteRecord, token: Token, o: Oracle): Out {
    var ran := MayExecute(env.digest, token, rec);
    var resolved := rec.(status := if ran && !o.throws && o.ok then Executed else WriteFailed,
                         result := Some(if ran && !o.throws then Cut(o.text) else o.text), confirmedAt := Some(o.now));
    Out(row, Patching(rec, Executing, resolved, Stop, 0),
        if ran then [Called(rec.id, rec.action, Arguments(rec.target, rec.payload), token.digest, AnswerOf(o))] else [], None, None)
  }

  function OpStep(env: Env, row: Row, op: Op, o: Oracle): Out {
    match op
    case Ended => Stay(row, op)
    case Propose(r, attempt) => ProposeStep(env, row, r, attempt)
    case ProposeAt(r, attempt, snap) => ProposeAtStep(env, row, r, attempt, snap)
    case Confirm(id, digest) => Stay(row, ConfirmStep(env, row, id, digest, o))
    case Patching(rec, from, to, next, attempt) => Stay(row, PatchStep(row, rec, from, to, next, attempt))
    case PatchingAt(rec, from, to, next, attempt, snap) => PatchAtStep(row, rec, from, to, next, attempt, snap)
    case Calling(rec, token) => CallStep(env, row, rec, token, o)
  }

  /** Writers of the other columns; a record's id is fresh because it is a random UUID. */
  function Next(env: Env, s: State, c: Choice): State {
    match c
    case StartProposal(r) =>
      if r.id in s.issued || !ProposalAccepted(env, r) then s
      else s.(ops := s.ops + [Propose(r, 0)], issued := s.issued[r.id := r], issuedBy := s.issuedBy[r.id := |s.ops|])
    case StartConfirm(id, digest) => s.(ops := s.ops + [Confirm(id, digest)])
    case Act(i, o) =>
      if i >= |s.ops| then s
      else
        var out := OpStep(env, s.row, s.ops[i], o);
        s.(row := out.row, ops := s.ops[i := out.op], calls := s.calls + out.calls,
           born := if out.born.Some? then s.born[out.born.value := |s.born|] else s.born,
           claimed := if out.claimed.Some? then s.claimed[out.claimed.value := i] else s.claimed)
    case Foreign(w) =>
      if w.Generic? && w.patch.externalWrites.Some? then s else s.(row := Apply(s.row, w))
    case Crash => s.(ops := [])
  }

  function Run(env: Env, s: State, cs: seq<Choice>): State
    decreases |cs|
  {
    if |cs| == 0 then s else Run(env, Next(env, s, cs[0]), cs[1..])
  }

  function Start(row: Row): State {
    State(row, [], [], map[], map[], map[], map[])
  }

  // ----- the invariant

  predicate SameContent(a: WriteRecord, b: WriteRecord) {
    && a.id == b.id && a.provider == b.provider && a.summary == b.summary && a.action == b.action
    && a.target == b.target && a.payload == b.payload && a.proposedAt == b.proposedAt
  }

  /** The record an operation carries is one that was issued, content unchanged. */
  ghost predicate Carries(s: State, r: WriteRecord) {
    r.id in s.issued && SameContent(r, s.issued[r.id])
  }

  /** The patches a confirm makes: never back to `proposed`, and `executing` only on the way to the call. */
  ghost predicate PatchOk(env: Env, rec: WriteRecord, from: WriteStatus, to: WriteRecord, next: Then) {
    && SameContent(to, rec) && from in {Proposed, Executing}
    && (next.Stop? ==> IsTerminal(to.status))
    && (next.Call? ==> from == Proposed && to.status == Executing && TokenOk(env, rec, next.token))
  }

  ghost predicate TokenOk(env: Env, rec: WriteRecord, token: Token) {
    Mint(env.digest, rec, token.digest) == Some(token)
  }

  /** A record still on its way: proposed by this very operation and not in the ledger. */
  ghost predicate PendingOk(env: Env, s: State, i: nat, r: WriteRecord) {
    && ProposalAccepted(env, r)
    && r.id in s.issued && s.issued[r.id] == r && r.id in s.issuedBy && s.issuedBy[r.id] == i && r.id !in s.born
  }

  ghost predicate OpOk(env: Env, s: State, i: nat, op: Op) {
    match op
    case Propose(r, _) => PendingOk(env, s, i, r)
    case ProposeAt(r, _, snap) => PendingOk(env, s, i, r) && SnapOk(s.row, snap)
    case Patching(rec, from, to, next, _) => Carries(s, rec) && PatchOk(env, rec, from, to, next)
    case PatchingAt(rec, from, to, next, _, snap) => Carries(s, rec) && PatchOk(env, rec, from, to, next) && SnapOk(s.row, snap)
    case Calling(rec, token) =>
      && Carries(s, rec) && TokenOk(env, rec, token)
      && rec.id in s.claimed && s.claimed[rec.id] == i && NotCalled(s, rec.id)
    case _ => true
  }

  ghost predicate NotCalled(s: State, id: string) {
    forall k :: 0 <= k < |s.calls| ==> s.calls[k].id != id
  }

  /** What a call that ran stood on. */
  ghost predicate CallOk(env: Env, s: State, c: Called) {
    c.id in s.issued && (
      var r := s.issued[c.id];
      && IsAllowed(r.provider, r.action) && c.action == r.action
      && CollidingKeys(r.target, r.payload) == {} && c.args == Arguments(r.target, r.payload)
      && c.confirmed == Digest(env.digest, r))
  }

  ghost predicate LedgerOk(s: State) {
    var ws := s.row.externalWrites;
    && |ws| <= EXTERNAL_WRITES_MAX
    && (forall i :: 0 <= i < |ws| ==> Carries(s, ws[i]) && ws[i].id in s.born)
    && (forall i, j :: 0 <= i < j < |ws| ==> s.born[ws[i].id] < s.born[ws[j].id])
  }

  ghost predicate BornOk(s: State) {
    forall id :: id in s.born ==> id in s.issued && s.born[id] < |s.born|
  }

  /** What has gone to `executing` is recorded and never open again. */
  ghost predicate ClaimedOk(s: State) {
    && (forall id :: id in s.claimed ==> id in s.born)
    && (forall j :: 0 <= j < |s.row.externalWrites| && s.row.externalWrites[j].id in s.claimed ==>
          s.row.externalWrites[j].status != Proposed)
  }

  ghost predicate CallsOk(env: Env, s: State) {
    && (forall k :: 0 <= k < |s.calls| ==> CallOk(env, s, s.calls[k]) && s.calls[k].id in s.claimed)
    && (forall k, l :: 0 <= k < l < |s.calls| ==> s.calls[k].id != s.calls[l].id)
  }

  predicate OpenGithub(r: WriteRecord) {
    r.provider == GITHUB && r.status == Proposed
  }

  ghost predicate GithubDistinct(env: Env, ws: Ledger) {
    forall i, j :: 0 <= i < j < |ws| && OpenGithub(ws[i]) && OpenGithub(ws[j]) ==>
      Digest(env.digest, ws[i]) != Digest(env.digest, ws[j])
  }

  ghost predicate Inv(env: Env, s: State) {
    && LedgerOk(s) && BornOk(s) && ClaimedOk(s) && CallsOk(env, s) && GithubDistinct(env, s.row.externalWrites)
    && forall i :: 0 <= i < |s.ops| ==> OpOk(env, s, i, s.ops[i])
  }

  // ----- preservation

  /** What any step leaves to the other operations. */
  ghost predicate Evolves(s: State, s': State, i: nat) {
    && (s'.row == s.row || s'.row.version == s.row.version + 1)
    && (forall id :: id in s.issued ==> id in s'.issued && s'.issued[id] == s.issued[id])
    && (forall id :: id in s.issuedBy && s.issuedBy[id] != i ==> id in s'.issuedBy && s'.issuedBy[id] == s.issuedBy[id])
    && (forall id :: id in s'.born ==> id in s.born || (id in s.issuedBy && s.issuedBy[id] == i))
    && (forall id :: id in s.claimed ==> id in s'.claimed && s'.claimed[id] == s.claimed[id])
    && (forall k :: 0 <= k < |s'.calls| ==>
          NotCalled(s, s'.calls[k].id) ==> s'.calls[k].id in s.claimed && s.claimed[s'.calls[k].id] == i)
  }

  lemma OpUndisturbed(env: Env, s: State, s': State, i: nat, j: nat, op: Op)
    requires OpOk(env, s, j, op) && Evolves(s, s', i) && i != j
    ensures OpOk(env, s', j, op)
  {
  }

  /** Ledger positions are distinct ids. */
  lemma DistinctIds(s: State, i: nat, j: nat)
    requires LedgerOk(s) && i < |s.row.externalWrites| && j < |s.row.externalWrites| && i != j
    ensures s.row.externalWrites[i].id != s.row.externalWrites[j].id
  {
    var lo, hi := if i < j then i else j, if i < j then j else i;
    assert s.born[s.row.externalWrites[lo].id] < s.born[s.row.externalWrites[hi].id];
  }

  /** Where the record at position i was before position k was removed. */
  function Before(k: nat, i: nat): nat {
    if i < k then i else i + 1
  }

  /** Evicting a record keeps the order of births. */
  lemma EvictedLedger(env: Env, s: State, k: nat)
    requires LedgerOk(s) && GithubDistinct(env, s.row.externalWrites) && k < |s.row.externalWrites|
    ensures var kept := RemoveAt(s.row.externalWrites, k);
      && GithubDistinct(env, kept)
      && (forall i :: 0 <= i < |kept| ==> kept[i] in s.row.externalWrites)
      && (forall i, j :: 0 <= i < j < |kept| ==> s.born[kept[i].id] < s.born[kept[j].id])
  {
    var ws := s.row.externalWrites;
    var kept := RemoveAt(ws, k);
    forall i | 0 <= i < |kept| ensures kept[i] == ws[Before(k, i)] && kept[i] in ws {
    }
    forall i, j | 0 <= i < j < |kept| ensures s.born[kept[i].id] < s.born[kept[j].id] {
      assert kept[i] == ws[Before(k, i)] && kept[j] == ws[Before(k, j)];
    }
    forall i, j | 0 <= i < j < |kept| && OpenGithub(kept[i]) && OpenGithub(kept[j])
      ensures Digest(env.digest, kept[i]) != Digest(env.digest, kept[j])
    {
      assert kept[i] == ws[Before(k, i)] && kept[j] == ws[Before(k, j)];
    }
  }

  lemma KeptLedger(env: Env, s: State, kept: Ledger)
    requires LedgerOk(s) && GithubDistinct(env, s.row.externalWrites)
    requires MakeRoom(s.row.externalWrites) == Some(kept)
    ensures forall i :: 0 <= i < |kept| ==> kept[i] in s.row.externalWrites && Carries(s, kept[i]) && kept[i].id in s.born
    ensures forall i, j :: 0 <= i < j < |kept| ==> s.born[kept[i].id] < s.born[kept[j].id]
    ensures GithubDistinct(env, kept) && |kept| < EXTERNAL_WRITES_MAX
  {
    var ws := s.row.externalWrites;
    RefusedOnlyWhenAllInFlight(ws);
    MakeRoomKeeps(ws);
    if kept != ws {
      var k :| 0 <= k < |ws| && IsTerminal(ws[k].status) && kept == RemoveAt(ws, k);
      EvictedLedger(env, s, k);
    }
    forall i | 0 <= i < |kept| ensures kept[i] in ws && Carries(s, kept[i]) && kept[i].id in s.born {
      var j :| 0 <= j < |ws| && ws[j] == kept[i];
    }
  }

  /** The dedupe of a GitHub append found no open record with the same digest. */
  lemma NotOpenYet(env: Env, ws: Ledger, r: WriteRecord, w: WriteRecord)
    requires DedupeFor(env, r)(ws).None? && r.provider == GITHUB && w in ws && OpenGithub(w)
    ensures Digest(env.digest, w) != Digest(env.digest, r)
  {
    assert w.(provider := GITHUB) == w;
  }

  lemma AppendDistinct(env: Env, ws: Ledger, kept: Ledger, r: WriteRecord)
    requires DedupeFor(env, r)(ws).None? && GithubDistinct(env, kept) && forall i :: 0 <= i < |kept| ==> kept[i] in ws
    ensures GithubDistinct(env, kept + [r])
  {
    var ws' := kept + [r];
    forall a, b | 0 <= a < b < |ws'| && OpenGithub(ws'[a]) && OpenGithub(ws'[b])
      ensures Digest(env.digest, ws'[a]) != Digest(env.digest, ws'[b])
    {
      if b == |kept| {
        NotOpenYet(env, ws, r, ws'[a]);
      }
    }
  }

  /** What a committed append does to the state. */
  lemma ProposalEffect(env: Env, s: State, i: nat, o: Oracle)
    requires i < |s.ops| && s.ops[i].ProposeAt? && SnapOk(s.row, s.ops[i].snap)
    requires Next(env, s, Act(i, o)).row != s.row
    ensures var s', r, ws := Next(env, s, Act(i, o)), s.ops[i].record, s.row.externalWrites;
      && DedupeFor(env, r)(ws).None? && MakeRoom(ws).Some?
      && s' == s.(row := s'.row, ops := s.ops[i := Ended], born := s.born[r.id := |s.born|])
      && s'.row.externalWrites == MakeRoom(ws).value + [r] && s'.row.version == s.row.version + 1
  {
    var op := s.ops[i];
    ProposalOut(env, s.row, op.record, op.attempt, op.snap);
    assert s.calls + [] == s.calls;
  }

  lemma ProposalOut(env: Env, row: Row, r: WriteRecord, attempt: nat, snap: Row)
    requires SnapOk(row, snap) && ProposeAtStep(env, row, r, attempt, snap).row != row
    ensures var out := ProposeAtStep(env, row, r, attempt, snap);
      && DedupeFor(env, r)(row.externalWrites).None? && MakeRoom(row.externalWrites).Some?
      && out.op == Ended && out.calls == [] && out.born == Some(r.id) && out.claimed.None?
      && out.row.externalWrites == MakeRoom(row.externalWrites).value + [r] && out.row.version == row.version + 1
  {
    var d := AppendDecision(r, DedupeFor(env, r))(snap);
    assert d.Put? && snap == row;
  }

  lemma ProposalCommits(env: Env, s: State, i: nat, s': State, row': Row)
    requires Inv(env, s) && i < |s.ops| && s.ops[i].ProposeAt?
    requires MakeRoom(s.row.externalWrites).Some? && DedupeFor(env, s.ops[i].record)(s.row.externalWrites).None?
    requires row'.externalWrites == MakeRoom(s.row.externalWrites).value + [s.ops[i].record]
    requires s' == s.(row := row', ops := s.ops[i := Ended], born := s.born[s.ops[i].record.id := |s.born|])
    ensures LedgerOk(s') && BornOk(s') && ClaimedOk(s') && GithubDistinct(env, s'.row.externalWrites)
  {
    var r, ws := s.ops[i].record, s.row.externalWrites;
    assert OpOk(env, s, i, s.ops[i]);
    var kept := MakeRoom(ws).value;
    KeptLedger(env, s, kept);
    AppendDistinct(env, ws, kept, r);
    AppendedLedger(s, kept, r, s');
    AppendedBorn(env, s, kept, r, s');
  }

  lemma AppendedBorn(env: Env, s: State, kept: Ledger, r: WriteRecord, s': State)
    requires Inv(env, s) && MakeRoom(s.row.externalWrites) == Some(kept)
    requires r.id in s.issued && r.id !in s.born && s'.issued == s.issued && s'.claimed == s.claimed
    requires s'.born == s.born[r.id := |s.born|] && s'.row.externalWrites == kept + [r]
    ensures BornOk(s') && ClaimedOk(s')
  {
    KeptClaimed(env, s, kept);
    assert |s'.born| == |s.born| + 1 && r.id !in s.claimed;
    forall id | id in s'.born ensures id in s'.issued && s'.born[id] < |s'.born| {
      assert id != r.id ==> id in s.born;
    }
  }

  lemma KeptClaimed(env: Env, s: State, kept: Ledger)
    requires Inv(env, s) && MakeRoom(s.row.externalWrites) == Some(kept)
    ensures forall j :: 0 <= j < |kept| && kept[j].id in s.claimed ==> kept[j].status != Proposed
  {
    var ws := s.row.externalWrites;
    KeptLedger(env, s, kept);
    forall j | 0 <= j < |kept| && kept[j].id in s.claimed ensures kept[j].status != Proposed {
      assert kept[j] in ws;
      var k :| 0 <= k < |ws| && ws[k] == kept[j];
    }
  }

  lemma AppendedLedger(s: State, kept: Ledger, r: WriteRecord, s': State)
    requires |kept| < EXTERNAL_WRITES_MAX && BornOk(s) && r.id !in s.born
    requires forall i :: 0 <= i < |kept| ==> Carries(s, kept[i]) && kept[i].id in s.born
    requires forall i, j :: 0 <= i < j < |kept| ==> s.born[kept[i].id] < s.born[kept[j].id]
    requires r.id in s.issued && s.issued[r.id] == r && s'.issued == s.issued
    requires s'.born == s.born[r.id := |s.born|] && s'.row.externalWrites == kept + [r]
    ensures LedgerOk(s') && |s'.born| == |s.born| + 1
  {
    var ws' := kept + [r];
    forall j | 0 <= j < |ws'| ensures Carries(s', ws'[j]) && ws'[j].id in s'.born {
      if j < |kept| {
        assert Carries(s, kept[j]);
      }
    }
    forall i, j | 0 <= i < j < |ws'| ensures s'.born[ws'[i].id] < s'.born[ws'[j].id] {
      assert kept[i].id in s.born;
      if j < |kept| {
        assert kept[j].id in s.born;
      }
    }
  }

  /** The record with this id is the one at position k and no other. */
  lemma PatchedAt(s: State, k: nat, to: WriteRecord)
    requires LedgerOk(s) && k < |s.row.externalWrites|
    ensures var ws := s.row.externalWrites;
      FindWrite(ws, ws[k].id) == Some(k) && ReplaceWrite(ws, ws[k].id, to) == ws[k := to]
  {
    var ws := s.row.externalWrites;
    var found := FindWrite(ws, ws[k].id);
    if found.Some? && found.value != k {
      DistinctIds(s, found.value, k);
    }
    forall j | 0 <= j < |ws| ensures ReplaceWrite(ws, ws[k].id, to)[j] == ws[k := to][j] {
      if j != k {
        DistinctIds(s, j, k);
      }
    }
  }

  /** After a committed patch the ledger differs only in the status, result and time of one record. */
  lemma PatchEffect(env: Env, s: State, i: nat, o: Oracle) returns (k: nat)
    requires LedgerOk(s) && i < |s.ops| && s.ops[i].PatchingAt? && OpOk(env, s, i, s.ops[i])
    requires Next(env, s, Act(i, o)).row != s.row
    ensures var s', op, ws := Next(env, s, Act(i, o)), s.ops[i], s.row.externalWrites;
      && k < |ws| && ws[k].id == op.rec.id && ws[k].status == op.from
      && SameContent(op.to, ws[k]) && op.to.status != Proposed
      && s' == s.(row := s'.row, ops := s.ops[i := if op.next.Call? then Calling(op.rec, op.next.token) else Ended],
                  claimed := if op.next.Call? then s.claimed[op.rec.id := i] else s.claimed)
      && s'.row.externalWrites == ws[k := op.to] && s'.row.version == s.row.version + 1
  {
    var op, ws := s.ops[i], s.row.externalWrites;
    var d := PatchDecision(op.rec.id, op.from, op.to)(op.snap);
    assert d.Put? && op.snap == s.row;
    assert s.calls + [] == s.calls;
    k := FindWrite(ws, op.rec.id).value;
    PatchedAt(s, k, op.to);
    assert Carries(s, ws[k]);
  }

  lemma PatchCommits(env: Env, s: State, i: nat, s': State, row': Row, k: nat)
    requires Inv(env, s) && i < |s.ops| && s.ops[i].PatchingAt? && k < |s.row.externalWrites|
    requires s.row.externalWrites[k].id == s.ops[i].rec.id && s.row.externalWrites[k].status == s.ops[i].from
    requires SameContent(s.ops[i].to, s.row.externalWrites[k]) && s.ops[i].to.status != Proposed
    requires row'.externalWrites == s.row.externalWrites[k := s.ops[i].to]
    requires var op := s.ops[i];
      s' == s.(row := row', ops := s.ops[i := if op.next.Call? then Calling(op.rec, op.next.token) else Ended],
               claimed := if op.next.Call? then s.claimed[op.rec.id := i] else s.claimed)
    ensures LedgerOk(s') && BornOk(s') && ClaimedOk(s') && GithubDistinct(env, row'.externalWrites)
    ensures OpOk(env, s', i, s'.ops[i]) && (s.ops[i].next.Call? ==> s.ops[i].rec.id !in s.claimed)
  {
    var op, ws, ws' := s.ops[i], s.row.externalWrites, row'.externalWrites;
    assert OpOk(env, s, i, op);
    forall j | 0 <= j < |ws'| ensures Carries(s', ws'[j]) && ws'[j].id == ws[j].id && ws[j].id in s.born {
      assert Carries(s, ws[j]);
    }
    forall j | 0 <= j < |ws'| && ws'[j].id in s'.claimed ensures ws'[j].status != Proposed {
      if j != k {
        DistinctIds(s, j, k);
      }
    }
    if op.next.Call? {
      assert op.rec.id !in s.claimed;
      assert NotCalled(s, op.rec.id);
    }
  }

  lemma CallRuns(env: Env, s: State, i: nat, o: Oracle)
    requires Inv(env, s) && i < |s.ops| && s.ops[i].Calling?
    ensures var s' := Next(env, s, Act(i, o));
      && CallsOk(env, s') && OpOk(env, s', i, s'.ops[i]) && Evolves(s, s', i)
      && s'.row == s.row && s'.born == s.born && s'.claimed == s.claimed && s'.issued == s.issued
  {
    var op := s.ops[i];
    var call := Called(op.rec.id, op.rec.action, Arguments(op.rec.target, op.rec.payload), op.token.digest, AnswerOf(o));
    CallGoesOut(env, s, i, call);
    CallEnds(env, s, i, o);
    CallRecorded(env, s, Next(env, s, Act(i, o)), i, call);
  }

  /** After the call its operation resolves the record it holds. */
  lemma CallEnds(env: Env, s: State, i: nat, o: Oracle)
    requires Inv(env, s) && i < |s.ops| && s.ops[i].Calling?
    ensures var s', op := Next(env, s, Act(i, o)), s.ops[i];
      && OpOk(env, s', i, s'.ops[i])
      && s' == s.(ops := s'.ops, calls := s.calls + [Called(op.rec.id, op.rec.action, Arguments(op.rec.target, op.rec.payload), op.token.digest,
                                                             AnswerOf(o))])
  {
    assert OpOk(env, s, i, s.ops[i]);
    MintedMayExecute(env.digest, s.ops[i].rec, s.ops[i].token.digest);
  }

  lemma CallRecorded(env: Env, s: State, s': State, i: nat, call: Called)
    requires Inv(env, s) && s' == s.(ops := s'.ops, calls := s.calls + [call])
    requires CallOk(env, s, call) && call.id in s.claimed && s.claimed[call.id] == i && NotCalled(s, call.id)
    ensures CallsOk(env, s') && Evolves(s, s', i)
  {
    forall k | 0 <= k < |s'.calls| ensures CallOk(env, s', s'.calls[k]) && s'.calls[k].id in s'.claimed {
      if k < |s.calls| {
        assert CallOk(env, s, s.calls[k]);
      }
    }
  }

  /** The call is what was issued and confirmed, and no call of this record went out before. */
  lemma CallGoesOut(env: Env, s: State, i: nat, call: Called)
    requires Inv(env, s) && i < |s.ops| && s.ops[i].Calling?
    requires var op := s.ops[i];
      call == Called(op.rec.id, op.rec.action, Arguments(op.rec.target, op.rec.payload), op.token.digest, call.answer)
    ensures CallOk(env, s, call) && call.id in s.claimed && s.claimed[call.id] == i && NotCalled(s, call.id)
  {
    var op := s.ops[i];
    assert OpOk(env, s, i, op);
    MintedMayExecute(env.digest, op.rec, op.token.digest);
  }

  /** The steps that leave row, calls and histories alone. */
  lemma QuietOp(env: Env, s: State, i: nat, op: Op, o: Oracle)
    requires OpOk(env, s, i, op) && LedgerOk(s) && !op.Calling? && OpStep(env, s.row, op, o).row == s.row
    ensures var out := OpStep(env, s.row, op, o);
      OpOk(env, s, i, out.op) && out.calls == [] && out.born.None? && out.claimed.None?
  {
    match op {
      case Propose(_, _) =>
      case ProposeAt(_, _, _) =>
      case Confirm(id, digest) => ConfirmOk(env, s, i, id, digest, o);
      case Patching(_, _, _, _, _) =>
      case PatchingAt(_, _, _, _, _, _) =>
      case Ended =>
    }
  }

  lemma ConfirmOk(env: Env, s: State, i: nat, id: string, digest: string, o: Oracle)
    requires LedgerOk(s)
    ensures OpOk(env, s, i, ConfirmStep(env, s.row, id, digest, o))
  {
    if FindWrite(s.row.externalWrites, id).Some? {
      var rec := s.row.externalWrites[FindWrite(s.row.externalWrites, id).value];
      assert Carries(s, rec);
      MintedMayExecute(env.digest, rec, digest);
    }
  }

  lemma OthersKept(env: Env, s: State, s': State, i: nat)
    requires Inv(env, s) && i < |s.ops| && |s'.ops| == |s.ops| && Evolves(s, s', i)
    requires forall j :: 0 <= j < |s.ops| && j != i ==> s'.ops[j] == s.ops[j]
    ensures forall j :: 0 <= j < |s.ops| && j != i ==> OpOk(env, s', j, s'.ops[j])
  {
    forall j | 0 <= j < |s.ops| && j != i ensures OpOk(env, s', j, s'.ops[j]) {
      OpUndisturbed(env, s, s', i, j, s.ops[j]);
    }
  }

  lemma CallsUntouched(env: Env, s: State, s': State)
    requires CallsOk(env, s) && s'.calls == s.calls
    requires forall id :: id in s.issued ==> id in s'.issued && s'.issued[id] == s.issued[id]
    requires forall id :: id in s.claimed ==> id in s'.claimed
    ensures CallsOk(env, s')
  {
    forall k | 0 <= k < |s'.calls| ensures CallOk(env, s', s'.calls[k]) {
      assert CallOk(env, s, s.calls[k]);
    }
  }

  lemma ProposalEvolves(env: Env, s: State, i: nat, s': State, row': Row)
    requires BornOk(s) && i < |s.ops| && s.ops[i].ProposeAt? && OpOk(env, s, i, s.ops[i])
    requires row'.version == s.row.version + 1
    requires s' == s.(row := row', ops := s.ops[i := Ended], born := s.born[s.ops[i].record.id := |s.born|])
    ensures Evolves(s, s', i)
  {
  }

  lemma PatchEvolves(s: State, i: nat, s': State, row': Row)
    requires i < |s.ops| && s.ops[i].PatchingAt? && (s.ops[i].next.Call? ==> s.ops[i].rec.id !in s.claimed)
    requires row'.version == s.row.version + 1
    requires var op := s.ops[i];
      s' == s.(row := row', ops := s.ops[i := if op.next.Call? then Calling(op.rec, op.next.token) else Ended],
               claimed := if op.next.Call? then s.claimed[op.rec.id := i] else s.claimed)
    ensures Evolves(s, s', i)
  {
  }

  lemma CommitKeeps(env: Env, s: State, i: nat, s': State)
    requires Inv(env, s) && i < |s.ops| && |s'.ops| == |s.ops| && Evolves(s, s', i)
    requires forall j :: 0 <= j < |s.ops| && j != i ==> s'.ops[j] == s.ops[j]
    requires LedgerOk(s') && BornOk(s') && ClaimedOk(s') && GithubDistinct(env, s'.row.externalWrites)
    requires s'.calls == s.calls && s'.issued == s.issued && OpOk(env, s', i, s'.ops[i])
    ensures Inv(env, s')
  {
    CallsUntouched(env, s, s');
    OthersKept(env, s, s', i);
  }

  lemma QuietKeeps(env: Env, s: State, i: nat, s': State, op': Op)
    requires Inv(env, s) && i < |s.ops| && s' == s.(ops := s.ops[i := op']) && OpOk(env, s, i, op')
    ensures Inv(env, s')
  {
    forall j | 0 <= j < |s'.ops| ensures OpOk(env, s', j, s'.ops[j]) {
      assert OpOk(env, s, j, if j == i then op' else s.ops[j]);
    }
    CallsUntouched(env, s, s');
  }

  lemma ProposalKeeps(env: Env, s: State, i: nat, o: Oracle)
    requires Inv(env, s) && i < |s.ops| && s.ops[i].ProposeAt? && Next(env, s, Act(i, o)).row != s.row
    ensures Inv(env, Next(env, s, Act(i, o)))
  {
    var s' := Next(env, s, Act(i, o));
    assert OpOk(env, s, i, s.ops[i]);
    ProposalEffect(env, s, i, o);
    ProposalCommits(env, s, i, s', s'.row);
    ProposalEvolves(env, s, i, s', s'.row);
    CommitKeeps(env, s, i, s');
  }

  lemma PatchKeeps(env: Env, s: State, i: nat, o: Oracle)
    requires Inv(env, s) && i < |s.ops| && s.ops[i].PatchingAt? && Next(env, s, Act(i, o)).row != s.row
    ensures Inv(env, Next(env, s, Act(i, o)))
  {
    var s' := Next(env, s, Act(i, o));
    assert OpOk(env, s, i, s.ops[i]);
    var k := PatchEffect(env, s, i, o);
    PatchCommits(env, s, i, s', s'.row, k);
    PatchEvolves(s, i, s', s'.row);
    CommitKeeps(env, s, i, s');
  }

  lemma QuietActKeeps(env: Env, s: State, i: nat, o: Oracle)
    requires Inv(env, s) && i < |s.ops| && !s.ops[i].Calling? && Next(env, s, Act(i, o)).row == s.row
    ensures Inv(env, Next(env, s, Act(i, o)))
  {
    var op := s.ops[i];
    var out := OpStep(env, s.row, op, o);
    assert OpOk(env, s, i, op);
    QuietOp(env, s, i, op, o);
    assert Next(env, s, Act(i, o)) == s.(ops := s.ops[i := out.op]);
    QuietKeeps(env, s, i, Next(env, s, Act(i, o)), out.op);
  }

  lemma CallKeeps(env: Env, s: State, i: nat, o: Oracle)
    requires Inv(env, s) && i < |s.ops| && s.ops[i].Calling?
    ensures Inv(env, Next(env, s, Act(i, o)))
  {
    CallRuns(env, s, i, o);
    OthersKept(env, s, Next(env, s, Act(i, o)), i);
  }

  /** Only an append or a patch in its last step can write the row. */
  lemma OnlyCommitsWrite(env: Env, s: State, i: nat, o: Oracle)
    requires i < |s.ops| && Next(env, s, Act(i, o)).row != s.row
    ensures s.ops[i].ProposeAt? || s.ops[i].PatchingAt?
  {
  }

  lemma ActKeeps(env: Env, s: State, i: nat, o: Oracle)
    requires Inv(env, s) && i < |s.ops|
    ensures Inv(env, Next(env, s, Act(i, o)))
  {
    if s.ops[i].Calling? {
      CallKeeps(env, s, i, o);
    } else if Next(env, s, Act(i, o)).row == s.row {
      QuietActKeeps(env, s, i, o);
    } else {
      OnlyCommitsWrite(env, s, i, o);
      if s.ops[i].ProposeAt? {
        ProposalKeeps(env, s, i, o);
      } else {
        PatchKeeps(env, s, i, o);
      }
    }
  }

  lemma StartProposalKeeps(env: Env, s: State, r: WriteRecord)
    requires Inv(env, s) && r.id !in s.issued && ProposalAccepted(env, r)
    ensures Inv(env, Next(env, s, StartProposal(r)))
  {
    var s' := Next(env, s, StartProposal(r));
    assert s' == s.(ops := s.ops + [Propose(r, 0)], issued := s.issued[r.id := r], issuedBy := s.issuedBy[r.id := |s.ops|]);
    assert r.id !in s.born;
    forall j | 0 <= j < |s'.ops| ensures OpOk(env, s', j, s'.ops[j]) {
      if j < |s.ops| {
        OldOpKept(env, s, s', r.id, j, s.ops[j]);
      }
    }
    CallsUntouched(env, s, s');
    forall k | 0 <= k < |s'.row.externalWrites| ensures Carries(s', s'.row.externalWrites[k]) {
      assert Carries(s, s.row.externalWrites[k]);
    }
  }

  /** A freshly issued id concerns no operation already under way. */
  lemma OldOpKept(env: Env, s: State, s': State, id: string, j: nat, op: Op)
    requires OpOk(env, s, j, op) && id !in s.issued
    requires s'.row == s.row && s'.calls == s.calls && s'.born == s.born && s'.claimed == s.claimed
    requires forall x :: x in s.issued ==> x in s'.issued && s'.issued[x] == s.issued[x]
    requires forall x :: x in s.issuedBy && x != id ==> x in s'.issuedBy && s'.issuedBy[x] == s.issuedBy[x]
    ensures OpOk(env, s', j, op)
  {
  }

  /** A confirm that starts, a foreign commit and a crash touch neither the ledger nor the calls. */
  lemma OutsiderKeeps(env: Env, s: State, s': State)
    requires Inv(env, s)
    requires s' == s.(row := s'.row, ops := s'.ops)
    requires s'.row.externalWrites == s.row.externalWrites
    requires s'.row == s.row || s'.row.version == s.row.version + 1
    requires forall j :: 0 <= j < |s'.ops| ==> (j < |s.ops| && s'.ops[j] == s.ops[j]) || s'.ops[j].Confirm?
    ensures Inv(env, s')
  {
    forall j | 0 <= j < |s'.ops| ensures OpOk(env, s', j, s'.ops[j]) {
      if j < |s.ops| && s'.ops[j] == s.ops[j] {
        OutsiderSpares(env, s, s', j, s.ops[j]);
      }
    }
    forall j | 0 <= j < |s'.row.externalWrites| ensures Carries(s', s'.row.externalWrites[j]) {
      assert Carries(s, s.row.externalWrites[j]);
    }
    CallsUntouched(env, s, s');
  }

  lemma OutsiderSpares(env: Env, s: State, s': State, j: nat, op: Op)
    requires OpOk(env, s, j, op) && s' == s.(row := s'.row, ops := s'.ops)
    requires s'.row == s.row || s'.row.version == s.row.version + 1
    ensures OpOk(env, s', j, op)
  {
  }

  lemma NextKeeps(env: Env, s: State, c: Choice)
    requires Inv(env, s)
    ensures Inv(env, Next(env, s, c))
  {
    match c {
      case StartProposal(r) => if Next(env, s, c) != s { StartProposalKeeps(env, s, r); }
      case Act(i, o) => if i < |s.ops| { ActKeeps(env, s, i, o); }
      case _ => OutsiderKeeps(env, s, Next(env, s, c));
    }
  }

  lemma {:induction false} RunKeeps(env: Env, s: State, cs: seq<Choice>)
    requires Inv(env, s)
    ensures Inv(env, Run(env, s, cs))
    decreases |cs|
  {
    if |cs| > 0 {
      NextKeeps(env, s, cs[0]);
      RunKeeps(env, Next(env, s, cs[0]), cs[1..]);
    }
  }

  // ----- main results

  /**
   In every interleaving of proposals, confirms, foreign commits and crashes, `callTool` runs at most once per
   write id, and each call is for an issued record's own, allow-listed action with the disjoint union of its own
   target and payload, whose digest is the one the human confirmed.
   */
  lemma AtMostOnceAndAsConfirmed(env: Env, row: Row, cs: seq<Choice>)
    requires row.externalWrites == []
    ensures var s := Run(env, Start(row), cs);
      && (forall k, l :: 0 <= k < l < |s.calls| ==> s.calls[k].id != s.calls[l].id)
      && (forall k :: 0 <= k < |s.calls| ==> CallOk(env, s, s.calls[k]))
  {
    RunKeeps(env, Start(row), cs);
  }

  /** Over any run the ledger stays within its cap, in the order the records were made, contents untouched. */
  lemma LedgerStaysInOrder(env: Env, row: Row, cs: seq<Choice>)
    requires row.externalWrites == []
    ensures var s := Run(env, Start(row), cs);
      var ws := s.row.externalWrites;
      && |ws| <= EXTERNAL_WRITES_MAX
      && (forall i :: 0 <= i < |ws| ==> ws[i].id in s.issued && SameContent(ws[i], s.issued[ws[i].id]) && ws[i].id in s.born)
      && (forall i, j :: 0 <= i < j < |ws| ==> s.born[ws[i].id] < s.born[ws[j].id])
      && GithubDistinct(env, ws)
  {
    RunKeeps(env, Start(row), cs);
    var s := Run(env, Start(row), cs);
    assert forall i :: 0 <= i < |s.row.externalWrites| ==> Carries(s, s.row.externalWrites[i]);
  }

  /** A step may evict or settle a record, but an open or in-doubt one is still there afterwards. */
  lemma NoInFlightWriteIsLost(env: Env, row: Row, cs: seq<Choice>, c: Choice, w: WriteRecord)
    requires row.externalWrites == []
    requires w in Run(env, Start(row), cs).row.externalWrites && InFlight(w)
    ensures var s := Run(env, Start(row), cs);
      exists w' :: w' in Next(env, s, c).row.externalWrites && SameContent(w', w)
  {
    RunKeeps(env, Start(row), cs);
    StepKeepsInFlight(env, Run(env, Start(row), cs), c, w);
  }

  lemma ProposalKeepsInFlight(env: Env, s: State, c: Choice, w: WriteRecord)
    requires Inv(env, s) && w in s.row.externalWrites && InFlight(w)
    requires c.Act? && c.i < |s.ops| && s.ops[c.i].ProposeAt?
    requires Next(env, s, c).row.externalWrites != s.row.externalWrites
    ensures exists w' :: w' in Next(env, s, c).row.externalWrites && SameContent(w', w)
  {
    ProposalEffect(env, s, c.i, c.o);
    MakeRoomKeeps(s.row.externalWrites);
    assert w in Next(env, s, c).row.externalWrites && SameContent(w, w);
  }

  lemma StepKeepsInFlight(env: Env, s: State, c: Choice, w: WriteRecord)
    requires Inv(env, s) && w in s.row.externalWrites && InFlight(w)
    ensures exists w' :: w' in Next(env, s, c).row.externalWrites && SameContent(w', w)
  {
    var s' := Next(env, s, c);
    var k :| 0 <= k < |s.row.externalWrites| && s.row.externalWrites[k] == w;
    if s'.row.externalWrites == s.row.externalWrites {
      assert w in s'.row.externalWrites && SameContent(w, w);
    } else {
      assert OpOk(env, s, c.i, s.ops[c.i]);
      if s.ops[c.i].ProposeAt? {
        ProposalKeepsInFlight(env, s, c, w);
      } else {
        PatchKeepsInFlight(env, s, c, k);
      }
    }
  }

  lemma PatchKeepsInFlight(env: Env, s: State, c: Choice, k: nat)
    requires Inv(env, s) && k < |s.row.externalWrites|
    requires c.Act? && c.i < |s.ops| && s.ops[c.i].PatchingAt?
    requires Next(env, s, c).row.externalWrites != s.row.externalWrites
    ensures exists w' :: w' in Next(env, s, c).row.externalWrites && SameContent(w', s.row.externalWrites[k])
  {
    assert OpOk(env, s, c.i, s.ops[c.i]);
    var p := PatchEffect(env, s, c.i, c.o);
    var ws' := Next(env, s, c).row.externalWrites;
    assert ws'[k] in ws' && SameContent(ws'[k], s.row.externalWrites[k]);
  }
}
