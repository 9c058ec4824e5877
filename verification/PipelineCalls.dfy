/** What each call of the pipeline achieves when nobody interferes: the final row, the answer and what happened, exactly. */
module PipelineCalls {
  import opened Wrappers
  import opened Session
  import opened MergeFiles
  import opened Pipeline
  import opened PipelineSafety
  import opened PipelineCode

  /** One step of the operation, and its trace. */
  function Step(env: Env, out: Out, o: Oracle): Out {
    var next := OpStep(env, out.row, out.op, o, false);
    Out(next.row, next.op, out.log + next.log)
  }

  /** The operation runs alone, one step per answer of the world. */
  function Alone(env: Env, out: Out, os: seq<Oracle>): Out
    decreases |os|
  {
    if |os| == 0 then out else Alone(env, Step(env, out, os[0]), os[1..])
  }

  function Calls(row: Row, call: Call): Out {
    Out(row, Begin(call), [])
  }

  function Ends(row: Row, log: seq<Event>): Out {
    Out(row, Finished(Returned), log)
  }

  function Refuses(row: Row, e: Error): Out {
    Out(row, Finished(Threw(e)), [])
  }

  // ----- the short calls

  lemma UndisturbedCancel(env: Env, row: Row, o1: Oracle, o2: Oracle)
    ensures Step(env, Step(env, Calls(row, CallCancel), o1), o2) ==
            if row.status in {Status.Done, Failed, Cancelled, PushFailed, VerifyFailed} then Refuses(row, WrongStatus)
            else Ends(row.(status := Cancelled, version := row.version + 1), [])
  {
  }

  /** An approval is bound to the very spec of the row, and opens the build. */
  lemma UndisturbedApprove(env: Env, row: Row, o1: Oracle, o2: Oracle, o3: Oracle)
    ensures Step(env, Step(env, Step(env, Calls(row, CallApprove), o1), o2), o3) ==
            if row.status != AwaitingSpecApproval then Refuses(row, WrongStatus)
            else if row.spec.None? then Refuses(row, NoSpec)
            else
              var a := Approval(row.spec.value, env.digestSpec(row.spec.value));
              Ends(row.(approval := Some(a), status := Building, version := row.version + 2), [Approved(a)])
  {
  }

  /** A human gives up a parked session, or sends one without an approval back to the spec gate. */
  lemma UndisturbedResolve(env: Env, row: Row, proceed: bool, o1: Oracle, o2: Oracle)
    requires proceed ==> row.approval.None? || row.status != AwaitingCriticResolution
    ensures Step(env, Step(env, Calls(row, CallResolve(proceed)), o1), o2) ==
            if row.status != AwaitingCriticResolution then Refuses(row, WrongStatus)
            else Ends(row.(status := if proceed then AwaitingSpecApproval else Cancelled, version := row.version + 1), [])
  {
  }

  /** The recoveries that verify again do so on the stored code. */
  lemma UndisturbedRecovery(env: Env, row: Row, o: Oracle)
    ensures row.status == AwaitingCriticResolution && row.approval.Some? ==>
      Step(env, Calls(row, CallResolve(true)), o) == Out(row, Docs(Resolver, row, CodeFiles(row)), [])
    ensures row.status == VerifyFailed && SpecApproved(env, row) ==>
      Step(env, Calls(row, CallRetry), o) == Out(row, Docs(Retrier, row, CodeFiles(row)), [])
    ensures row.status != VerifyFailed ==> Step(env, Calls(row, CallRetry), o) == Refuses(row, WrongStatus)
    ensures row.status == VerifyFailed && !SpecApproved(env, row) ==>
      Step(env, Calls(row, CallRetry), o) == Refuses(row, SpecNotApproved)
  {
  }

  lemma UndisturbedChat(env: Env, row: Row, turns: seq<ChatTurn>, o1: Oracle, o2: Oracle)
    ensures Step(env, Step(env, Calls(row, CallChat(turns, 0)), o1), o2) ==
            Ends(row.(chat := LastN(row.chat + turns, CHAT_TURNS_MAX), version := row.version + 1), [ChatAppended(turns)])
  {
  }

  lemma UndisturbedPublish(env: Env, row: Row, record: Publish, o1: Oracle, o2: Oracle)
    ensures Step(env, Step(env, Calls(row, CallPublish(record)), o1), o2) ==
            if row.status != Status.Done then Refuses(row, WrongStatus)
            else Ends(row.(publish := Some(record), version := row.version + 1), [])
  {
  }

  lemma UndisturbedLedgerWrite(env: Env, row: Row, o1: Oracle, o2: Oracle)
    ensures Step(env, Step(env, Calls(row, CallLedger), o1), o2) ==
            Ends(row.(externalWrites := o1.ledger, version := row.version + 1), [])
  {
  }

  // ----- the start

  /** A start with a spec approved in chat: spec, approval and status in three commits, then the kicked run. */
  lemma UndisturbedSeededStart(env: Env, row: Row, spec: Spec, o1: Oracle, o2: Oracle, o3: Oracle)
    ensures var a := Approval(spec, env.digestSpec(spec));
      Step(env, Step(env, Step(env, Out(row, Pinned(row, SeedSpec(spec)), []), o1), o2), o3) ==
      Out(row.(spec := Some(spec), approval := Some(a), status := Building, version := row.version + 3),
          Begin(CallRun(true)), [Approved(a)])
  {
  }

  /** A start without one: Scribe's question, its draft, or its draft with the critic's objection. */
  lemma UndisturbedDraft(env: Env, row: Row, o1: Oracle, o2: Oracle)
    ensures Step(env, Step(env, Out(row, Draft(row), []), o1), o2) ==
            if o1.throws then Refuses(row, CriticFailed)
            else if o1.drafted.None? then Ends(row.(status := Composing, version := row.version + 1), [])
            else Ends(row.(status := if o1.approved then AwaitingSpecApproval else AwaitingCriticResolution,
                           spec := o1.drafted, version := row.version + 1), [])
  {
  }

  // ----- a resilient write

  /** At any attempt that nobody interferes with it commits; on a cancelled row it raises instead. */
  lemma SavesAlone(env: Env, row: Row, who: Driver, goal: Goal, attempt: nat, first: nat, log: seq<Event>, o1: Oracle, o2: Oracle)
    ensures var out := Step(env, Out(row, Reread(who, goal, attempt, first), log), o1);
      var row' := Apply(row, GoalWrite(env, goal));
      if row.status == Cancelled then out == Out(row, GoalFails(who, goal, RunCancelled), log)
      else Step(env, out, o2) == Out(row', AfterGoal(who, goal, row'), log + GoalEvents(goal))
  {
    assert log + [] == log;
  }

  /** A write that comes too late is tried again, up to six times in all. */
  lemma StaleWriteRetries(env: Env, row: Row, who: Driver, goal: Goal, attempt: nat, first: nat, snap: Row, log: seq<Event>, o: Oracle)
    requires snap.version != row.version
    ensures var out := Step(env, Out(row, TryWrite(who, goal, attempt, first, snap), log), o);
      && out.row == row
      && (attempt < MAX_RESILIENT_WRITE_RETRY ==> out.op == Reread(who, goal, attempt + 1, first) && out.log == log)
      && (attempt >= MAX_RESILIENT_WRITE_RETRY ==> out.log == log + [ConflictSurfaced(first, row.version)])
  {
    assert log + [] == log;
  }

  /** A driver that meets a cancelled row ends with that, and parks nothing; a failed push keeps its own error. */
  lemma CancelledDriverEnds(env: Env, row: Row, who: Driver, goal: Goal, attempt: nat, first: nat, log: seq<Event>, o: Oracle)
    requires row.status == Cancelled
    ensures Step(env, Out(row, Reread(who, goal, attempt, first), log), o) ==
            Out(row, Finished(Threw(if goal.ParkPushFailed? && goal.error == PushRejected then PushRejected else RunCancelled)), log)
  {
    assert log + [] == log;
  }

  /** A write locked on a row read earlier fails if anyone committed since; a chat append is tried once more, then dropped. */
  lemma StalePins(env: Env, row: Row, snap: Row, pin: Pin, o: Oracle)
    requires snap.version != row.version
    ensures !pin.AppendChat? ==> Step(env, Out(row, Pinned(snap, pin), []), o) == Refuses(row, VersionConflict)
    ensures pin.AppendChat? && pin.attempt > 0 ==> Step(env, Out(row, Pinned(snap, pin), []), o) == Ends(row, [])
    ensures pin.AppendChat? && pin.attempt == 0 ==>
      Step(env, Step(env, Step(env, Out(row, Pinned(snap, pin), []), o), o), o) ==
      Ends(row.(chat := LastN(row.chat + pin.turns, CHAT_TURNS_MAX), version := row.version + 1), [ChatAppended(pin.turns)])
  {
  }

  /** An agent that fails ends its driver; a kicked run goes on to park the failure. */
  lemma AgentFailureEnds(env: Env, row: Row, op: Op, o: Oracle)
    requires (op.Produce? || op.Verify?) && o.throws
    ensures Step(env, Out(row, op, []), o) ==
            if (op.Produce? && op.kicked) || (op.Verify? && op.who == Runner(true)) then Out(row, CatchRun, [])
            else Refuses(row, AgentFailed)
  {
  }

  // ----- the produce loop

  predicate NoneThrows(rounds: seq<Oracle>) {
    forall k :: 0 <= k < |rounds| ==> !rounds[k].throws
  }

  /** After the rejected rounds `done`, the loop stands before its next round. */
  ghost predicate InLoop(env: Env, row: Row, session: Row, base: Files, done: seq<Oracle>, out: Out, kicked: bool) {
    && out.row == row && out.log == [] && out.op.Produce? && out.op.kicked == kicked && out.op.session == session
    && out.op.attempt == |done| && EditBase(base, done, out.op.base)
  }

  lemma {:induction false} RejectedRoundsLoop(env: Env, row: Row, session: Row, base: Files, b: Files, kicked: bool, rounds: seq<Oracle>)
    requires NoneThrows(rounds) && AllRejected(env, rounds) && |rounds| <= env.iterateBudget && EditBase(base, [], b)
    ensures InLoop(env, row, session, base, rounds, Alone(env, Out(row, Produce(kicked, session, b, 0), []), rounds), kicked)
  {
    if |rounds| > 0 {
      var init, o := rounds[..|rounds| - 1], rounds[|rounds| - 1];
      var start := Out(row, Produce(kicked, session, b, 0), []);
      assert rounds == init + [o];
      RejectedRoundsLoop(env, row, session, base, b, kicked, init);
      AloneSnoc(env, start, init, o);
      RoundLoops(env, row, session, base, init, Alone(env, start, init), kicked, o);
    }
  }

  lemma RoundLoops(env: Env, row: Row, session: Row, base: Files, done: seq<Oracle>, out: Out, kicked: bool, o: Oracle)
    requires InLoop(env, row, session, base, done, out, kicked) && |done| < env.iterateBudget && !o.throws && Rejected(env, o)
    ensures InLoop(env, row, session, base, done + [o], Step(env, out, o), kicked)
  {
    CandidateHolds(base, Past(done, None, []), out.op.base, o);
  }

  lemma {:induction false} AloneSnoc(env: Env, out: Out, os: seq<Oracle>, o: Oracle)
    ensures Alone(env, out, os + [o]) == Step(env, Alone(env, out, os), o)
    decreases |os|
  {
    if |os| == 0 {
      assert os + [o] == [o] && [o][1..] == [];
    } else {
      assert (os + [o])[1..] == os[1..] + [o];
      AloneSnoc(env, Step(env, out, os[0]), os[1..], o);
    }
  }

  /** The files the rounds make of the base. */
  ghost predicate Built(base: Files, rounds: seq<Oracle>, files: Files) {
    Holds(base, Past(rounds, None, []), files)
  }

  /** The round that ends the loop saves what the rounds built, as approved code or for a human to look at. */
  lemma LastRoundSaves(env: Env, row: Row, session: Row, base: Files, done: seq<Oracle>, out: Out, kicked: bool, o: Oracle)
    returns (files: Files)
    requires InLoop(env, row, session, base, done, out, kicked) && !o.throws
    requires o.approved || o.critical || env.requireResolution || |done| >= env.iterateBudget
    ensures Built(base, done + [o], files)
    ensures Step(env, out, o) ==
            Out(row, Reread(Runner(kicked), if o.approved then SaveCode(files) else ParkAtCritic(files), 0, row.version), [])
  {
    files := Merge(out.op.base, o.files);
    CandidateHolds(base, Past(done, None, []), out.op.base, o);
  }

  /**
   A build of an approved session that nobody interferes with: after any number of rejected rounds within the budget, an
   approved round stores exactly what the rounds built and goes on to the README; a round that cannot go on parks it.
   */
  lemma UndisturbedRounds(env: Env, row: Row, kicked: bool, o0: Oracle, rounds: seq<Oracle>, o1: Oracle, o2: Oracle)
    returns (files: Files)
    requires row.status == Building && SpecApproved(env, row) && NoneThrows(rounds)
    requires EndedApproved(env, rounds) || EndedParked(env, rounds)
    ensures Built(row.base.GetOr([]), rounds, files)
    ensures var out := Step(env, Step(env, Alone(env, Step(env, Out(row, RunRead(kicked), []), o0), rounds), o1), o2);
      var saved := row.(code := Some(files), version := row.version + 1);
      out == if EndedApproved(env, rounds) then Out(saved, Docs(Runner(kicked), saved, files), [])
             else Ends(saved.(status := AwaitingCriticResolution), [])
  {
    var base, init, o := row.base.GetOr([]), rounds[..|rounds| - 1], rounds[|rounds| - 1];
    var start := Out(row, Produce(kicked, row, base, 0), []);
    assert rounds == init + [o];
    assert Step(env, Out(row, RunRead(kicked), []), o0) == start;
    assert EditBase(base, [], base);
    RejectedRoundsLoop(env, row, row, base, base, kicked, init);
    AloneSnoc(env, start, init, o);
    files := LastRoundSaves(env, row, row, base, init, Alone(env, start, init), kicked, o);
    var goal := if o.approved then SaveCode(files) else ParkAtCritic(files);
    SavesAlone(env, row, Runner(kicked), goal, 0, row.version, [], o1, o2);
  }

  /** A build that is not open, not approved or already running is refused; a kicked run parks its own failure. */
  lemma UndisturbedRunRefusals(env: Env, row: Row, kicked: bool, o: Oracle)
    ensures BeginStep(env, row, CallRun(kicked), o, true) == Raise(Runner(kicked), WrongStatus)
    ensures BeginStep(env, row, CallRun(kicked), o, false) == RunRead(kicked)
    ensures row.status != Building ==> Step(env, Out(row, RunRead(kicked), []), o) == Out(row, Raise(Runner(kicked), WrongStatus), [])
    ensures row.status == Building && !SpecApproved(env, row) ==>
      Step(env, Out(row, RunRead(kicked), []), o) == Out(row, Raise(Runner(kicked), SpecNotApproved), [])
  {
  }

  lemma FailedRunIsParked(env: Env, row: Row, o1: Oracle, o2: Oracle)
    ensures Step(env, Step(env, Out(row, CatchRun, []), o1), o2) ==
            if row.status == Building then Ends(row.(status := Failed, version := row.version + 1), []) else Ends(row, [])
  {
  }

  // ----- README, Trace and the push gate

  /** The README first: it joins the stored code and the files that go to Trace. */
  lemma UndisturbedReadme(env: Env, row: Row, who: Driver, session: Row, files: Files, o: Oracle, o1: Oracle, o2: Oracle)
    requires session.spec.Some? && row.status != Cancelled
    ensures var out := Step(env, Out(row, Docs(who, session, files), []), o);
      if o.docs.None? then out == Out(row, Verify(who, session, files), [])
      else
        var files' := Merge(files, [o.docs.value]);
        var row' := row.(code := Some(files'), version := row.version + 1);
        Step(env, Step(env, out, o1), o2) == Out(row', Verify(who, row', files'), [])
  {
    if o.docs.Some? {
      SavesAlone(env, row, who, SaveDocs(Merge(files, [o.docs.value])), 0, row.version, [], o1, o2);
    }
  }

  /** What a passing run writes: the token, the gate's status, the evidence, the passport and the destination. */
  function Gated(env: Env, row: Row, session: Row, token: VerifyToken, evidence: Option<Evidence>, delivery: Option<Delivery>): Row {
    row.(verifyToken := Some(token), status := AwaitingPushConfirm, testEvidence := evidence.OrElse(row.testEvidence),
         passport := if env.signsPassport then Some(Passport(token.sessionId, token.testsRun, token.codeDigest, token.evidenceDigest))
                     else row.passport,
         delivery := session.delivery.OrElse(delivery).OrElse(row.delivery), version := row.version + 2)
  }

  /** Trace's answer `t`: a pass of at least one test opens the push gate with a token for exactly these files. */
  lemma UndisturbedPass(env: Env, row: Row, who: Driver, session: Row, files: Files, t: Oracle, d: Oracle, o: Oracle)
    requires row.status != Cancelled && !t.throws && t.passed && t.testsRun >= 1
    ensures var token := VerifyToken(env.id, t.testsRun, env.digestFiles(files), t.evidenceDigest);
      var out := Step(env, Step(env, Step(env, Out(row, Verify(who, session, files), []), t), o), o);
      Step(env, Step(env, Step(env, out, d), o), o) ==
      Ends(Gated(env, row, session, token, t.evidence, d.delivery), [TraceRan(files, Some(token)), TokenRecorded(token)])
  {
    var token := VerifyToken(env.id, t.testsRun, env.digestFiles(files), t.evidenceDigest);
    var ran := [TraceRan(files, Some(token))];
    var row1 := row.(verifyToken := Some(token), version := row.version + 1);
    TraceMints(env, row, who, session, files, t);
    SavesAlone(env, row, who, SaveToken(session, token, t.evidence), 0, row.version, ran, o, o);
    OpensGate(env, row1, who, session, token, t.evidence, ran + [TokenRecorded(token)], d, o);
  }

  lemma TraceMints(env: Env, row: Row, who: Driver, session: Row, files: Files, t: Oracle)
    requires !t.throws && t.passed && t.testsRun >= 1
    ensures var token := VerifyToken(env.id, t.testsRun, env.digestFiles(files), t.evidenceDigest);
      Step(env, Out(row, Verify(who, session, files), []), t) ==
      Out(row, Reread(who, SaveToken(session, token, t.evidence), 0, row.version), [TraceRan(files, Some(token))])
  {
    var ran := [TraceRan(files, Some(VerifyToken(env.id, t.testsRun, env.digestFiles(files), t.evidenceDigest)))];
    assert [] + ran == ran;
  }

  lemma OpensGate(env: Env, row: Row, who: Driver, session: Row, token: VerifyToken, evidence: Option<Evidence>, log: seq<Event>,
                  d: Oracle, o: Oracle)
    requires row.status != Cancelled && row.verifyToken == Some(token) && row.version > 0
    ensures Step(env, Step(env, Step(env, Out(row, Deliver(who, session, token, evidence), log), d), o), o) ==
            Ends(Gated(env, row.(version := row.version - 1), session, token, evidence, d.delivery), log)
  {
    var goal := OpenPushGate(token, evidence, session.delivery.OrElse(d.delivery));
    assert log + [] == log;
    assert Step(env, Out(row, Deliver(who, session, token, evidence), log), d) == Out(row, Reread(who, goal, 0, row.version), log);
    SavesAlone(env, row, who, goal, 0, row.version, log, o, o);
  }

  /** No pass, or no test: no token, and the session can be retried with the evidence of the failure. */
  lemma UndisturbedFail(env: Env, row: Row, who: Driver, session: Row, files: Files, t: Oracle, o: Oracle)
    requires row.status != Cancelled && !t.throws && !(t.passed && t.testsRun >= 1)
    ensures Step(env, Step(env, Step(env, Out(row, Verify(who, session, files), []), t), o), o) ==
            Ends(row.(status := VerifyFailed, testEvidence := t.evidence.OrElse(row.testEvidence), version := row.version + 1),
                 [TraceRan(files, None)])
  {
    var ran := [TraceRan(files, None)];
    assert [] + ran == ran && ran + [] == ran;
    SavesAlone(env, row, who, ParkVerifyFailed(t.evidence), 0, row.version, ran, o, o);
  }

  // ----- the push

  /** The row is verified for exactly the code it holds. */
  predicate MayPush(env: Env, row: Row) {
    && row.status in {AwaitingPushConfirm, PushFailed}
    && row.verifyToken.Some? && row.verifyToken.value.sessionId == row.id
    && row.verifyToken.value.codeDigest == env.digestFiles(CodeFiles(row))
  }

  lemma UndisturbedConfirmRefusals(env: Env, row: Row, o: Oracle)
    ensures row.status == Status.Done ==> Step(env, Calls(row, CallConfirm), o) == Refuses(row, AlreadyPushed)
    ensures row.status !in {Status.Done, AwaitingPushConfirm, PushFailed} ==>
      Step(env, Calls(row, CallConfirm), o) == Refuses(row, WrongStatus)
    ensures row.status in {AwaitingPushConfirm, PushFailed} && !MayPush(env, row) ==>
      Step(env, Calls(row, CallConfirm), o) == Refuses(row, if IsVerified(row) then CodeMismatch else NotVerified)
    ensures MayPush(env, row) ==> Step(env, Calls(row, CallConfirm), o) == Out(row, Destination(row), [])
  {
  }

  /**
   A confirm of a verified row: without a destination, or when repository or push fail, the session can be confirmed
   again; a push that succeeds finishes it, with exactly the stored code pushed. The destination is pinned either way.
   */
  lemma UndisturbedConfirm(env: Env, row: Row, b: Oracle, d: Oracle, p: Oracle, o: Oracle)
    requires MayPush(env, row)
    ensures var at := Step(env, Step(env, Calls(row, CallConfirm), b), d);
      var pinned := row.(delivery := row.delivery.OrElse(d.delivery), version := row.version + 1);
      if d.refused then
        Step(env, Step(env, at, o), o) == Refuses(pinned.(status := PushFailed), NoDestination)
      else
        var out := Step(env, Step(env, Step(env, at, p), o), o);
        && out.row == pinned.(status := if p.repoFails || p.pushFails then PushFailed else Status.Done)
        && out.op == Finished(if p.repoFails || p.pushFails then Threw(PushRejected) else Returned)
        && out.log == if p.repoFails then [] else [Pushed(CodeFiles(row))]
  {
    UndisturbedConfirmRefusals(env, row, b);
    if d.refused {
      NoDestinationParks(env, row, d, o);
    } else {
      assert Step(env, Out(row, Destination(row), []), d) == Out(row, Pushing(row, Derived(row, d)), []);
      PushEnds(env, row, d, p, o);
    }
  }

  /** The destination to pin, if none is pinned yet. */
  function Derived(row: Row, d: Oracle): Option<Delivery> {
    if row.delivery.None? then d.delivery else None
  }

  lemma NoDestinationParks(env: Env, row: Row, d: Oracle, o: Oracle)
    requires row.status != Cancelled && d.refused
    ensures Step(env, Step(env, Step(env, Out(row, Destination(row), []), d), o), o) ==
            Refuses(row.(status := PushFailed, delivery := row.delivery.OrElse(d.delivery), version := row.version + 1), NoDestination)
  {
    SavesAlone(env, row, Pusher, ParkPushFailed(Derived(row, d), NoDestination), 0, row.version, [], o, o);
  }

  lemma PushEnds(env: Env, row: Row, d: Oracle, p: Oracle, o: Oracle)
    requires row.status != Cancelled
    ensures var out := Step(env, Step(env, Step(env, Out(row, Pushing(row, Derived(row, d)), []), p), o), o);
      && out.row == row.(status := if p.repoFails || p.pushFails then PushFailed else Status.Done,
                         delivery := row.delivery.OrElse(d.delivery), version := row.version + 1)
      && out.op == Finished(if p.repoFails || p.pushFails then Threw(PushRejected) else Returned)
      && out.log == if p.repoFails then [] else [Pushed(CodeFiles(row))]
  {
    var log := if p.repoFails then [] else [Pushed(CodeFiles(row))];
    var goal := if p.repoFails || p.pushFails then ParkPushFailed(Derived(row, d), PushRejected) else FinishPush(Derived(row, d));
    assert [] + log == log && log + [] == log;
    assert Step(env, Out(row, Pushing(row, Derived(row, d)), []), p) == Out(row, Reread(Pusher, goal, 0, row.version), log);
    SavesAlone(env, row, Pusher, goal, 0, row.version, log, o, o);
  }
}
