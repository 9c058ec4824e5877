/**
 Safety of the pipeline in every interleaving: what is pushed was verified after an approval, a cancelled row
 is frozen, no chat turn is lost, and the resilient writer gives up only under real contention.
 */
module PipelineSafety {
  import opened Wrappers
  import opened Session
  import opened MergeFiles
  import opened Pipeline

  // ----- reading the history

  ghost predicate ApprovedIn(log: seq<Event>) {
    exists m :: 0 <= m < |log| && log[m].Approved?
  }

  /** Trace minted `t` for files with its digest, and an approval had been recorded before that run. */
  ghost predicate RanIn(env: Env, log: seq<Event>, t: VerifyToken) {
    exists k :: 0 <= k < |log| && MintedAt(env, log, k, t)
  }

  ghost predicate MintedAt(env: Env, log: seq<Event>, k: nat, t: VerifyToken)
    requires k < |log|
  {
    && log[k].TraceRan? && log[k].minted == Some(t)
    && t.testsRun >= 1 && t.sessionId == env.id && t.codeDigest == env.digestFiles(log[k].files)
    && ApprovedIn(log[..k])
  }

  ghost predicate RecordedIn(env: Env, log: seq<Event>, t: VerifyToken) {
    exists j :: 0 <= j < |log| && log[j] == TokenRecorded(t) && RanIn(env, log[..j], t)
  }

  /** The files have the digest of a token recorded earlier, minted by a run that came after an approval. */
  ghost predicate Justified(env: Env, log: seq<Event>, files: Files) {
    exists t :: RecordedIn(env, log, t) && t.codeDigest == env.digestFiles(files)
  }

  ghost predicate PushesJustified(env: Env, log: seq<Event>) {
    forall i :: 0 <= i < |log| && log[i].Pushed? ==> Justified(env, log[..i], log[i].files)
  }

  /** Every approval on record is bound to the session's present spec. */
  ghost predicate ApprovalsBound(env: Env, row: Row, log: seq<Event>) {
    forall m :: 0 <= m < |log| && log[m].Approved? ==>
      && row.approval.Some? && row.spec == Some(log[m].approval.spec)
      && log[m].approval.specDigest == env.digestSpec(log[m].approval.spec)
  }

  /** The chat turns appended so far, in commit order. */
  function ChatOf(log: seq<Event>): seq<ChatTurn> {
    if |log| == 0 then []
    else ChatOf(log[..|log| - 1]) + (match log[|log| - 1] case ChatAppended(turns) => turns case _ => [])
  }

  /** A surfaced conflict stands for at least six commits by others since the first read. */
  ghost predicate ConflictsEarned(log: seq<Event>) {
    forall k :: 0 <= k < |log| && log[k].ConflictSurfaced? ==>
      log[k].lastSeen >= log[k].firstRead + MAX_RESILIENT_WRITE_RETRY + 1
  }

  lemma ApprovedGrows(log: seq<Event>, more: seq<Event>)
    ensures ApprovedIn(log) ==> ApprovedIn(log + more)
  {
    if ApprovedIn(log) {
      var m :| 0 <= m < |log| && log[m].Approved?;
      assert (log + more)[m].Approved?;
    }
  }

  lemma RanGrows(env: Env, log: seq<Event>, more: seq<Event>, t: VerifyToken)
    ensures RanIn(env, log, t) ==> RanIn(env, log + more, t)
  {
    if RanIn(env, log, t) {
      var k :| 0 <= k < |log| && MintedAt(env, log, k, t);
      assert (log + more)[..k] == log[..k];
      assert MintedAt(env, log + more, k, t);
    }
  }

  lemma RecordedGrows(env: Env, log: seq<Event>, more: seq<Event>, t: VerifyToken)
    ensures RecordedIn(env, log, t) ==> RecordedIn(env, log + more, t)
  {
    if RecordedIn(env, log, t) {
      var j :| 0 <= j < |log| && log[j] == TokenRecorded(t) && RanIn(env, log[..j], t);
      assert (log + more)[..j] == log[..j] && (log + more)[j] == log[j];
    }
  }

  lemma JustifiedGrows(env: Env, log: seq<Event>, more: seq<Event>, files: Files)
    ensures Justified(env, log, files) ==> Justified(env, log + more, files)
  {
    if Justified(env, log, files) {
      var t :| RecordedIn(env, log, t) && t.codeDigest == env.digestFiles(files);
      RecordedGrows(env, log, more, t);
    }
  }

  // ----- the invariant

  /** What the operation checked on its snapshot before it prepared this write. */
  ghost predicate PinOk(snap: Row, pin: Pin) {
    match pin
    case SeedSpec(_) => snap.status == Composing && snap.approval.None?
    case GrantApproval(_) => snap.status == AwaitingSpecApproval && snap.spec.Some?
    case OpenBuild(_) => snap.status == AwaitingSpecApproval
    case Clarify => snap.status == Composing
    case DraftSpec(_, _) => snap.status == Composing && snap.approval.None?
    case CancelRow => !IsCancelImmune(snap.status)
    case AbandonRow => snap.status == AwaitingCriticResolution
    case ReopenSpecGate => snap.status == AwaitingCriticResolution && snap.approval.None?
    case FailRun => snap.status == Building
    case AppendChat(_, _) => true
    case PutLedger(_) => true
    case PutPublish(_) => true
  }

  ghost predicate GoalOk(env: Env, log: seq<Event>, goal: Goal) {
    match goal
    case SaveCode(_) => ApprovedIn(log)
    case SaveDocs(_) => ApprovedIn(log)
    case SaveToken(_, t, _) => RanIn(env, log, t)
    case _ => true
  }

  ghost predicate OpOk(env: Env, row: Row, log: seq<Event>, op: Op) {
    match op
    case Draft(snap) => SnapOk(row, snap) && snap.status == Composing && snap.approval.None?
    case Pinned(snap, pin) => SnapOk(row, snap) && PinOk(snap, pin)
    case Produce(_, _, _, _) => ApprovedIn(log)
    case Reread(_, goal, attempt, first) =>
      && attempt <= MAX_RESILIENT_WRITE_RETRY && GoalOk(env, log, goal)
      && (attempt > 0 ==> row.version >= first + attempt)
    case TryWrite(_, goal, attempt, first, snap) =>
      && attempt <= MAX_RESILIENT_WRITE_RETRY && GoalOk(env, log, goal)
      && SnapOk(row, snap) && snap.status != Cancelled && snap.version >= first + attempt
    case Docs(_, _, _) => ApprovedIn(log)
    case Verify(_, _, _) => ApprovedIn(log)
    case Destination(cur) => Justified(env, log, CodeFiles(cur))
    case Pushing(cur, _) => Justified(env, log, CodeFiles(cur))
    case _ => true
  }

  ghost predicate RowOk(env: Env, row: Row, log: seq<Event>) {
    && row.id == env.id
    && (row.verifyToken.Some? ==> RecordedIn(env, log, row.verifyToken.value))
    && (row.approval.Some? ==> ApprovedIn(log))
    && ApprovalsBound(env, row, log)
    && PushesJustified(env, log)
    && ConflictsEarned(log)
    && row.chat == LastN(env.seed + ChatOf(log), CHAT_TURNS_MAX)
  }

  ghost predicate Inv(env: Env, s: State) {
    RowOk(env, s.row, s.log) && forall i :: 0 <= i < |s.ops| ==> OpOk(env, s.row, s.log, s.ops[i])
  }

  // ----- preservation

  /** Nobody's step disturbs what another operation relies on. */
  lemma OthersUndisturbed(env: Env, row: Row, log: seq<Event>, row': Row, more: seq<Event>, op: Op)
    requires OpOk(env, row, log, op)
    requires row' == row || row'.version == row.version + 1
    ensures OpOk(env, row', log + more, op)
  {
    ApprovedGrows(log, more);
    match op {
      case Reread(_, goal, _, _) => if goal.SaveToken? { RanGrows(env, log, more, goal.token); }
      case TryWrite(_, goal, _, _, _) => if goal.SaveToken? { RanGrows(env, log, more, goal.token); }
      case Destination(cur) => JustifiedGrows(env, log, more, CodeFiles(cur));
      case Pushing(cur, _) => JustifiedGrows(env, log, more, CodeFiles(cur));
      case _ =>
    }
  }

  /** A write that adds no event of its own keeps the row's invariant when it leaves the gate columns and chat alone. */
  lemma QuietWrite(env: Env, row: Row, log: seq<Event>, row': Row)
    requires RowOk(env, row, log)
    requires row'.id == row.id && row'.verifyToken == row.verifyToken && row'.approval == row.approval && row'.chat == row.chat
    requires row.approval.Some? ==> row'.spec == row.spec
    ensures RowOk(env, row', log)
  {
  }

  /** One event more: what remains to be shown for the row. */
  lemma ExtendRow(env: Env, row: Row, log: seq<Event>, row': Row, e: Event)
    requires RowOk(env, row, log) && row'.id == row.id
    requires row'.verifyToken.Some? ==> row'.verifyToken == row.verifyToken || RecordedIn(env, log + [e], row'.verifyToken.value)
    requires row'.approval.Some? ==> row.approval.Some? || e.Approved?
    requires row.approval.Some? ==> row'.approval.Some? && row'.spec == row.spec
    requires e.Approved? ==>
      row'.approval.Some? && row'.spec == Some(e.approval.spec) && e.approval.specDigest == env.digestSpec(e.approval.spec)
    requires e.Pushed? ==> Justified(env, log, e.files)
    requires e.ConflictSurfaced? ==> e.lastSeen >= e.firstRead + MAX_RESILIENT_WRITE_RETRY + 1
    requires row'.chat == if e.ChatAppended? then LastN(row.chat + e.turns, CHAT_TURNS_MAX) else row.chat
    ensures RowOk(env, row', log + [e])
  {
    ApprovedGrows(log, [e]);
    assert e.Approved? ==> (log + [e])[|log|].Approved?;
    if row.verifyToken.Some? {
      RecordedGrows(env, log, [e], row.verifyToken.value);
    }
    ExtendPushes(env, log, e);
    ExtendChat(env, log, e);
  }

  lemma ExtendPushes(env: Env, log: seq<Event>, e: Event)
    requires PushesJustified(env, log) && (e.Pushed? ==> Justified(env, log, e.files))
    ensures PushesJustified(env, log + [e])
  {
    var log' := log + [e];
    forall i | 0 <= i < |log'| && log'[i].Pushed? ensures Justified(env, log'[..i], log'[i].files) {
      assert log'[..i] == if i < |log| then log[..i] else log;
    }
  }

  lemma ExtendChat(env: Env, log: seq<Event>, e: Event)
    ensures LastN(env.seed + ChatOf(log + [e]), CHAT_TURNS_MAX)
         == if e.ChatAppended? then LastN(LastN(env.seed + ChatOf(log), CHAT_TURNS_MAX) + e.turns, CHAT_TURNS_MAX)
            else LastN(env.seed + ChatOf(log), CHAT_TURNS_MAX)
  {
    var log' := log + [e];
    assert log'[..|log'| - 1] == log;
    if e.ChatAppended? {
      LastNAppend(env.seed + ChatOf(log), e.turns, CHAT_TURNS_MAX);
      assert env.seed + ChatOf(log') == env.seed + ChatOf(log) + e.turns;
    } else {
      assert ChatOf(log') == ChatOf(log);
    }
  }

  lemma PinStepKeeps(env: Env, row: Row, log: seq<Event>, snap: Row, pin: Pin)
    requires RowOk(env, row, log) && OpOk(env, row, log, Pinned(snap, pin))
    ensures var out := PinStep(env, row, snap, pin);
      RowOk(env, out.row, log + out.log) && OpOk(env, out.row, log + out.log, out.op)
  {
    var out := PinStep(env, row, snap, pin);
    if snap.version != row.version {
      assert log + out.log == log;
    } else {
      assert snap == row;
      match pin {
        case GrantApproval(_) => ExtendRow(env, row, log, out.row, out.log[0]);
        case AppendChat(_, _) => ExtendRow(env, row, log, out.row, out.log[0]);
        case _ =>
          assert log + out.log == log;
          QuietWrite(env, row, log, out.row);
      }
    }
  }

  lemma WriteStepKeeps(env: Env, row: Row, log: seq<Event>, who: Driver, goal: Goal, attempt: nat, first: nat, snap: Row)
    requires RowOk(env, row, log) && OpOk(env, row, log, TryWrite(who, goal, attempt, first, snap))
    ensures var out := WriteStep(env, row, who, goal, attempt, first, snap);
      RowOk(env, out.row, log + out.log) && OpOk(env, out.row, log + out.log, out.op)
  {
    var out := WriteStep(env, row, who, goal, attempt, first, snap);
    if snap.version != row.version {
      if attempt >= MAX_RESILIENT_WRITE_RETRY {
        ExtendRow(env, row, log, row, out.log[0]);
      } else {
        assert log + out.log == log;
      }
    } else if goal.SaveToken? {
      var log' := log + out.log;
      assert log'[|log|] == TokenRecorded(goal.token) && log'[..|log|] == log;
      assert RecordedIn(env, log', goal.token);
      ExtendRow(env, row, log, out.row, out.log[0]);
    } else {
      assert log + out.log == log;
      QuietWrite(env, row, log, out.row);
    }
  }

  lemma VerifyStepKeeps(env: Env, row: Row, log: seq<Event>, who: Driver, session: Row, files: Files, o: Oracle)
    requires RowOk(env, row, log) && OpOk(env, row, log, Verify(who, session, files))
    ensures var out := VerifyStep(env, who, session, files, row, o);
      RowOk(env, out.row, log + out.log) && OpOk(env, out.row, log + out.log, out.op)
  {
    var out := VerifyStep(env, who, session, files, row, o);
    if o.throws {
      assert log + out.log == log;
    } else {
      ExtendRow(env, row, log, row, out.log[0]);
      var log' := log + out.log;
      assert log'[|log|] == out.log[0] && log'[..|log|] == log;
      if out.op.goal.SaveToken? {
        assert MintedAt(env, log', |log|, out.op.goal.token);
      }
    }
  }

  lemma PushStepKeeps(env: Env, row: Row, log: seq<Event>, cur: Row, delivery: Option<Delivery>, o: Oracle)
    requires RowOk(env, row, log) && OpOk(env, row, log, Pushing(cur, delivery))
    ensures var out := PushStep(cur, delivery, row, o);
      RowOk(env, out.row, log + out.log) && OpOk(env, out.row, log + out.log, out.op)
  {
    var out := PushStep(cur, delivery, row, o);
    if o.repoFails {
      assert log + out.log == log;
    } else {
      ExtendRow(env, row, log, row, out.log[0]);
    }
  }

  lemma BeginKeeps(env: Env, row: Row, log: seq<Event>, call: Call, o: Oracle, busy: bool)
    requires RowOk(env, row, log)
    ensures OpOk(env, row, log, BeginStep(env, row, call, o, busy))
  {
  }

  /** The steps that neither write the row nor leave a trace in the history. */
  lemma SilentStepKeeps(env: Env, row: Row, log: seq<Event>, op: Op, o: Oracle, busy: bool)
    requires !op.Begin? && !op.Pinned? && !op.TryWrite? && !op.Verify? && !op.Pushing?
    requires RowOk(env, row, log) && OpOk(env, row, log, op)
    ensures var out := OpStep(env, row, op, o, busy);
      out.row == row && out.log == [] && OpOk(env, row, log, out.op)
  {
  }

  lemma OpStepKeeps(env: Env, row: Row, log: seq<Event>, op: Op, o: Oracle, busy: bool)
    requires RowOk(env, row, log) && OpOk(env, row, log, op)
    ensures var out := OpStep(env, row, op, o, busy);
      RowOk(env, out.row, log + out.log) && OpOk(env, out.row, log + out.log, out.op)
  {
    match op {
      case Pinned(snap, pin) => PinStepKeeps(env, row, log, snap, pin);
      case TryWrite(who, goal, attempt, first, snap) => WriteStepKeeps(env, row, log, who, goal, attempt, first, snap);
      case Verify(who, session, files) => VerifyStepKeeps(env, row, log, who, session, files, o);
      case Pushing(cur, delivery) => PushStepKeeps(env, row, log, cur, delivery, o);
      case Begin(call) =>
        BeginKeeps(env, row, log, call, o, busy);
        assert log + [] == log;
      case _ =>
        SilentStepKeeps(env, row, log, op, o, busy);
        assert log + [] == log;
    }
  }

  /** Only a commit changes the row, and it raises the version by one. */
  lemma OpStepMoves(env: Env, row: Row, op: Op, o: Oracle, busy: bool)
    ensures var row' := OpStep(env, row, op, o, busy).row; row' == row || row'.version == row.version + 1
  {
  }

  lemma NextKeeps(env: Env, s: State, c: Choice)
    requires Inv(env, s)
    ensures Inv(env, Next(env, s, c))
  {
    var s' := Next(env, s, c);
    if c.Act? && c.i < |s.ops| {
      var out := OpStep(env, s.row, s.ops[c.i], c.o, s.runner.Some?);
      OpStepKeeps(env, s.row, s.log, s.ops[c.i], c.o, s.runner.Some?);
      OpStepMoves(env, s.row, s.ops[c.i], c.o, s.runner.Some?);
      forall j | 0 <= j < |s'.ops| ensures OpOk(env, s'.row, s'.log, s'.ops[j]) {
        if j != c.i {
          OthersUndisturbed(env, s.row, s.log, s'.row, out.log, s.ops[j]);
        }
      }
    }
  }

  lemma {:induction false} RunKeeps(env: Env, s: State, cs: seq<Choice>)
    requires Inv(env, s)
    ensures Inv(env, Run(env, s, cs))
    decreases |cs|
  {
    if |cs| > 0 {
      NextKeeps(env, s, cs[0]);
      RunKeeps(env, Next(env, s, cs[0]), cs[1..]);
    }
  }

  lemma StartOk(env: Env, spec: Option<Spec>, base: Option<Files>, delivery: Option<Delivery>)
    requires |env.seed| <= CHAT_TURNS_MAX
    ensures Inv(env, Start(env, spec, base, delivery))
  {
    assert env.seed + ChatOf([]) == env.seed;
  }

  // ----- main results

  /**
   In every interleaving, every file set handed to the push adapter has the digest of a VerifyToken recorded
   earlier on this session, minted by a Trace run on files with that digest, and that run came after an
   approval; every approval on record is bound to the session's spec.
   */
  lemma PushedWasVerifiedAfterApproval(env: Env, spec: Option<Spec>, base: Option<Files>, delivery: Option<Delivery>, cs: seq<Choice>)
    requires |env.seed| <= CHAT_TURNS_MAX
    ensures var s := Run(env, Start(env, spec, base, delivery), cs);
      PushesJustified(env, s.log) && ApprovalsBound(env, s.row, s.log)
  {
    StartOk(env, spec, base, delivery);
    RunKeeps(env, Start(env, spec, base, delivery), cs);
  }

  /** With a digest that tells file sets apart up to `Same`, what is pushed is a file set Trace passed. */
  lemma PushedIsATestedFileSet(
    env: Env, spec: Option<Spec>, base: Option<Files>, delivery: Option<Delivery>, cs: seq<Choice>,
    same: (Files, Files) -> bool, i: nat) returns (k: nat)
    requires |env.seed| <= CHAT_TURNS_MAX
    requires forall a, b :: env.digestFiles(a) == env.digestFiles(b) ==> same(a, b)
    requires var log := Run(env, Start(env, spec, base, delivery), cs).log; i < |log| && log[i].Pushed?
    ensures var log := Run(env, Start(env, spec, base, delivery), cs).log;
      && k < i && log[k].TraceRan? && log[k].minted.Some? && log[k].minted.value.testsRun >= 1
      && same(log[i].files, log[k].files)
  {
    PushedWasVerifiedAfterApproval(env, spec, base, delivery, cs);
    var log := Run(env, Start(env, spec, base, delivery), cs).log;
    var t :| RecordedIn(env, log[..i], t) && t.codeDigest == env.digestFiles(log[i].files);
    var before := log[..i];
    var j :| 0 <= j < |before| && before[j] == TokenRecorded(t) && RanIn(env, before[..j], t);
    var earlier := before[..j];
    k :| 0 <= k < |earlier| && MintedAt(env, earlier, k, t);
    assert log[k] == earlier[k];
  }

  /** The columns a cancel freezes. */
  predicate SameOutcome(a: Row, b: Row) {
    && a.status == b.status && a.spec == b.spec && a.approval == b.approval && a.code == b.code
    && a.verifyToken == b.verifyToken && a.testEvidence == b.testEvidence && a.passport == b.passport
    && a.delivery == b.delivery
  }

  lemma CancelledStays(env: Env, s: State, c: Choice)
    requires Inv(env, s) && s.row.status == Cancelled
    ensures SameOutcome(s.row, Next(env, s, c).row)
  {
    if c.Act? && c.i < |s.ops| {
      assert OpOk(env, s.row, s.log, s.ops[c.i]);
    }
  }

  lemma {:induction false} CancelledStaysForever(env: Env, s: State, cs: seq<Choice>)
    requires Inv(env, s) && s.row.status == Cancelled
    ensures SameOutcome(s.row, Run(env, s, cs).row)
    decreases |cs|
  {
    if |cs| > 0 {
      CancelledStays(env, s, cs[0]);
      NextKeeps(env, s, cs[0]);
      CancelledStaysForever(env, Next(env, s, cs[0]), cs[1..]);
    }
  }

  lemma {:induction false} RunSplits(env: Env, s: State, cs: seq<Choice>, more: seq<Choice>)
    ensures Run(env, s, cs + more) == Run(env, Run(env, s, cs), more)
    decreases |cs|
  {
    if |cs| == 0 {
      assert cs + more == more;
    } else {
      assert (cs + more)[1..] == cs[1..] + more;
      RunSplits(env, Next(env, s, cs[0]), cs[1..], more);
    }
  }

  /** Once a row is cancelled, no step in flight and no later operation changes its outcome. */
  lemma CancelIsFinal(env: Env, spec: Option<Spec>, base: Option<Files>, delivery: Option<Delivery>, cs: seq<Choice>, more: seq<Choice>)
    requires |env.seed| <= CHAT_TURNS_MAX
    requires Run(env, Start(env, spec, base, delivery), cs).row.status == Cancelled
    ensures SameOutcome(Run(env, Start(env, spec, base, delivery), cs).row, Run(env, Start(env, spec, base, delivery), cs + more).row)
  {
    var s0 := Start(env, spec, base, delivery);
    StartOk(env, spec, base, delivery);
    RunKeeps(env, s0, cs);
    CancelledStaysForever(env, Run(env, s0, cs), more);
    RunSplits(env, s0, cs, more);
  }

  /** No interleaving writes `cancelled` over a finished run or a retryable park. */
  lemma CancelSparesImmune(env: Env, spec: Option<Spec>, base: Option<Files>, delivery: Option<Delivery>, cs: seq<Choice>, c: Choice)
    requires |env.seed| <= CHAT_TURNS_MAX
    requires Run(env, Start(env, spec, base, delivery), cs).row.status in {Status.Done, Failed, PushFailed, VerifyFailed}
    ensures Run(env, Start(env, spec, base, delivery), cs + [c]).row.status != Cancelled
  {
    var s0 := Start(env, spec, base, delivery);
    StartOk(env, spec, base, delivery);
    RunKeeps(env, s0, cs);
    RunSplits(env, s0, cs, [c]);
    var s := Run(env, s0, cs);
    assert Run(env, s, [c]) == Next(env, s, c);
    ImmuneIsSpared(env, s, c);
  }

  lemma ImmuneIsSpared(env: Env, s: State, c: Choice)
    requires Inv(env, s) && s.row.status in {Status.Done, Failed, PushFailed, VerifyFailed}
    ensures Next(env, s, c).row.status != Cancelled
  {
    if c.Act? && c.i < |s.ops| {
      assert OpOk(env, s.row, s.log, s.ops[c.i]);
    }
  }

  /** The stored conversation is the last 200 turns of the seed and all committed appends, whoever else wrote. */
  lemma NoChatTurnIsLost(env: Env, spec: Option<Spec>, base: Option<Files>, delivery: Option<Delivery>, cs: seq<Choice>)
    requires |env.seed| <= CHAT_TURNS_MAX
    ensures var s := Run(env, Start(env, spec, base, delivery), cs);
      s.row.chat == LastN(env.seed + ChatOf(s.log), CHAT_TURNS_MAX)
  {
    StartOk(env, spec, base, delivery);
    RunKeeps(env, Start(env, spec, base, delivery), cs);
  }

  /** `updateResilient` makes at most six attempts, and surfaces a conflict only after six foreign commits. */
  lemma ResilientWritesGiveUpLate(env: Env, spec: Option<Spec>, base: Option<Files>, delivery: Option<Delivery>, cs: seq<Choice>)
    requires |env.seed| <= CHAT_TURNS_MAX
    ensures var s := Run(env, Start(env, spec, base, delivery), cs);
      && ConflictsEarned(s.log)
      && forall i :: 0 <= i < |s.ops| && s.ops[i].TryWrite? ==> s.ops[i].attempt < 6
  {
    StartOk(env, spec, base, delivery);
    RunKeeps(env, Start(env, spec, base, delivery), cs);
    var s := Run(env, Start(env, spec, base, delivery), cs);
    forall i | 0 <= i < |s.ops| && s.ops[i].TryWrite? ensures s.ops[i].attempt < 6 {
      assert OpOk(env, s.row, s.log, s.ops[i]);
    }
  }
}
