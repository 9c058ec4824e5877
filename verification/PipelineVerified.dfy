/**
 When recoveries of a session do not overlap, whatever waits at the push gate carries a token for exactly the
 stored code; when they do overlap, it need not.
 */
module PipelineVerified {
  import opened Wrappers
  import opened Session
  import opened MergeFiles
  import opened Pipeline
  import opened PipelineSafety

  /** The driver of an operation that has passed its entry checks and may still write the row. */
  function DriverOf(op: Op): Option<Driver> {
    match op
    case Produce(kicked, _, _, _) => Some(Runner(kicked))
    case Reread(who, _, _, _) => Some(who)
    case TryWrite(who, _, _, _, _) => Some(who)
    case Docs(who, _, _) => Some(who)
    case Verify(who, _, _) => Some(who)
    case Deliver(who, _, _, _) => Some(who)
    case Destination(_) => Some(Pusher)
    case Pushing(_, _) => Some(Pusher)
    case _ => None
  }

  /** A `resolveCritic` or `retryVerification` that is re-verifying. */
  predicate Recovering(op: Op) {
    DriverOf(op) == Some(Resolver) || DriverOf(op) == Some(Retrier)
  }

  predicate NonOverlapping(s: State) {
    forall i, j :: 0 <= i < j < |s.ops| ==> !(Recovering(s.ops[i]) && Recovering(s.ops[j]))
  }

  /** No two recoveries are in flight together anywhere along the run. */
  predicate NonOverlappingRun(env: Env, s: State, cs: seq<Choice>)
    decreases |cs|
  {
    NonOverlapping(s) && (|cs| > 0 ==> NonOverlappingRun(env, Next(env, s, cs[0]), cs[1..]))
  }

  predicate AtOrPastGate(st: Status) {
    st in {AwaitingPushConfirm, PushFailed, Done}
  }

  /** The stored token verifies the stored code. */
  predicate VerifiedCode(env: Env, row: Row) {
    IsVerified(row) && row.verifyToken.value.codeDigest == env.digestFiles(CodeFiles(row))
  }

  /** The statuses a driver can meet while it is under way. */
  predicate Tied(st: Status, who: Driver) {
    match who
    case Runner(_) => st in {Building, Failed, Cancelled}
    case Resolver => st in {AwaitingCriticResolution, Cancelled}
    case Retrier => st == VerifyFailed
    case Pusher => AtOrPastGate(st) || st == Cancelled
  }

  predicate IsPushGoal(g: Goal) {
    g.ParkPushFailed? || g.FinishPush?
  }

  ghost predicate GoalPhase(env: Env, row: Row, g: Goal) {
    match g
    case SaveToken(_, t, _) => t.sessionId == env.id && t.codeDigest == env.digestFiles(CodeFiles(row))
    case OpenPushGate(_, _, _) => VerifiedCode(env, row)
    case _ => true
  }

  /** How far the driver has come, in terms of the row. */
  ghost predicate Phase(env: Env, row: Row, op: Op) {
    match op
    case Docs(_, _, files) => CodeFiles(row) == files
    case Verify(_, _, files) => CodeFiles(row) == files
    case Reread(_, g, _, _) => GoalPhase(env, row, g)
    case TryWrite(_, g, _, _, _) => GoalPhase(env, row, g)
    case Deliver(_, _, _, _) => VerifiedCode(env, row)
    case _ => true
  }

  /** Push goals are the pusher's and nobody else's. */
  predicate GoalFitsDriver(op: Op) {
    match op
    case Reread(who, g, _, _) => IsPushGoal(g) <==> who == Pusher
    case TryWrite(who, g, _, _, _) => IsPushGoal(g) <==> who == Pusher
    case Docs(who, _, _) => who != Pusher
    case Verify(who, _, _) => who != Pusher
    case Deliver(who, _, _, _) => who != Pusher
    case _ => true
  }

  ghost predicate DriverOk(env: Env, row: Row, op: Op) {
    && GoalFitsDriver(op)
    && (DriverOf(op).Some? ==> Tied(row.status, DriverOf(op).value))
    && (Recovering(op) ==> row.approval.Some?)
    && (DriverOf(op).Some? && row.status != Cancelled ==> Phase(env, row, op))
  }

  predicate OneRunner(s: State) {
    forall i :: 0 <= i < |s.ops| && InFlightRun(s.ops[i]) ==> s.runner == Some(i)
  }

  ghost predicate GateInv(env: Env, s: State) {
    && (AtOrPastGate(s.row.status) ==> VerifiedCode(env, s.row))
    && OneRunner(s)
    && forall i :: 0 <= i < |s.ops| ==> DriverOk(env, s.row, s.ops[i])
  }

  // ----- one step

  lemma OneAtATime(s: State, i: nat, j: nat)
    requires OneRunner(s) && NonOverlapping(s) && i < |s.ops| && j < |s.ops| && i != j
    ensures !(InFlightRun(s.ops[i]) && InFlightRun(s.ops[j]))
    ensures !(Recovering(s.ops[i]) && Recovering(s.ops[j]))
  {
    var lo, hi := if i < j then i else j, if i < j then j else i;
    assert !(Recovering(s.ops[lo]) && Recovering(s.ops[hi]));
  }

  lemma DriverInFlight(op: Op)
    requires DriverOf(op).Some? && DriverOf(op).value.Runner?
    ensures InFlightRun(op)
  {
  }

  /** Two drivers at once on a live row can only be two confirms. */
  lemma DriversExclude(env: Env, s: State, i: nat, j: nat)
    requires GateInv(env, s) && NonOverlapping(s) && s.row.status != Cancelled
    requires i < |s.ops| && j < |s.ops| && i != j
    requires DriverOf(s.ops[i]).Some? && DriverOf(s.ops[j]).Some?
    ensures DriverOf(s.ops[i]) == Some(Pusher) && DriverOf(s.ops[j]) == Some(Pusher)
  {
    OneAtATime(s, i, j);
    var a, b := DriverOf(s.ops[i]).value, DriverOf(s.ops[j]).value;
    assert DriverOk(env, s.row, s.ops[i]) && DriverOk(env, s.row, s.ops[j]);
    if a.Runner? {
      DriverInFlight(s.ops[i]);
    }
    if b.Runner? {
      DriverInFlight(s.ops[j]);
    }
  }

  lemma BeginOk(env: Env, row: Row, log: seq<Event>, call: Call, o: Oracle, busy: bool)
    requires RowOk(env, row, log) && (AtOrPastGate(row.status) ==> VerifiedCode(env, row))
    ensures DriverOk(env, row, BeginStep(env, row, call, o, busy))
  {
  }

  lemma PinnedOk(env: Env, row: Row, log: seq<Event>, snap: Row, pin: Pin)
    requires RowOk(env, row, log) && OpOk(env, row, log, Pinned(snap, pin))
    requires AtOrPastGate(row.status) ==> VerifiedCode(env, row)
    ensures var out := PinStep(env, row, snap, pin);
      && DriverOk(env, out.row, out.op)
      && (AtOrPastGate(out.row.status) ==> VerifiedCode(env, out.row))
  {
  }

  lemma GoalCommitOk(env: Env, row: Row, who: Driver, goal: Goal)
    requires row.id == env.id && row.status != Cancelled && Tied(row.status, who)
    requires GoalPhase(env, row, goal) && (IsPushGoal(goal) <==> who == Pusher)
    requires who in {Resolver, Retrier} ==> row.approval.Some?
    requires AtOrPastGate(row.status) ==> VerifiedCode(env, row)
    ensures var next := Apply(row, GoalWrite(env, goal));
      && DriverOk(env, next, AfterGoal(who, goal, next))
      && (AtOrPastGate(next.status) ==> VerifiedCode(env, next))
  {
    match goal {
      case SaveCode(_) =>
      case ParkAtCritic(_) =>
      case SaveDocs(_) =>
      case SaveToken(_, _, _) =>
      case OpenPushGate(_, _, _) =>
      case ParkVerifyFailed(_) =>
      case ParkPushFailed(_, _) =>
      case FinishPush(_) =>
    }
  }

  lemma TryWriteOk(env: Env, row: Row, log: seq<Event>, op: Op)
    requires op.TryWrite?
    requires RowOk(env, row, log) && OpOk(env, row, log, op) && DriverOk(env, row, op)
    requires AtOrPastGate(row.status) ==> VerifiedCode(env, row)
    ensures var out := WriteStep(env, row, op.who, op.goal, op.attempt, op.first, op.snap);
      && DriverOk(env, out.row, out.op)
      && (AtOrPastGate(out.row.status) ==> VerifiedCode(env, out.row))
  {
    if op.snap.version == row.version {
      GoalCommitOk(env, row, op.who, op.goal);
    }
  }

  lemma ProduceOk(env: Env, row: Row, op: Op, o: Oracle)
    requires op.Produce? && DriverOk(env, row, op)
    ensures DriverOk(env, row, ProduceStep(env, op.kicked, op.session, op.base, op.attempt, row, o))
  {
  }

  /** The steps of a driver, or into one, that do not write the row. */
  lemma SilentActorOk(env: Env, row: Row, op: Op, o: Oracle)
    requires op.Reread? || op.Docs? || op.Verify? || op.Deliver? || op.Destination? || op.Pushing?
    requires row.id == env.id && DriverOk(env, row, op)
    ensures var out := OpStep(env, row, op, o, false);
      out.row == row && DriverOk(env, row, out.op)
  {
    match op {
      case Reread(who, goal, attempt, first) => RereadOk(env, row, who, goal, attempt, first);
      case Docs(who, session, files) => DocsOk(env, row, who, session, files, o);
      case Verify(who, session, files) => VerifyOk(env, row, who, session, files, o);
      case Deliver(who, session, token, evidence) =>
        DeliverOk(env, row, who, session, token, evidence, o);
      case Destination(cur) => DestinationOk(env, row, cur, o);
      case Pushing(_, _) => PushingOk(env, row, op, o);
    }
  }

  lemma DeliverOk(env: Env, row: Row, who: Driver, session: Row, token: VerifyToken, evidence: Option<Evidence>, o: Oracle)
    requires DriverOk(env, row, Deliver(who, session, token, evidence))
    ensures DriverOk(env, row, Reread(who, OpenPushGate(token, evidence, ResolveDelivery(session, o)), 0, row.version))
  {
  }

  lemma DestinationOk(env: Env, row: Row, cur: Row, o: Oracle)
    requires DriverOk(env, row, Destination(cur))
    ensures DriverOk(env, row, DestinationStep(cur, row, o))
  {
  }

  lemma PushingOk(env: Env, row: Row, op: Op, o: Oracle)
    requires op.Pushing? && DriverOk(env, row, op)
    ensures var out := PushStep(op.cur, op.delivery, row, o);
      out.row == row && DriverOk(env, row, out.op)
  {
  }

  lemma DocsOk(env: Env, row: Row, who: Driver, session: Row, files: Files, o: Oracle)
    requires DriverOk(env, row, Docs(who, session, files))
    ensures DriverOk(env, row, DocsStep(who, session, files, row, o))
  {
  }

  lemma VerifyOk(env: Env, row: Row, who: Driver, session: Row, files: Files, o: Oracle)
    requires row.id == env.id && DriverOk(env, row, Verify(who, session, files))
    ensures var out := VerifyStep(env, who, session, files, row, o);
      out.row == row && DriverOk(env, row, out.op)
  {
  }

  lemma RereadOk(env: Env, row: Row, who: Driver, goal: Goal, attempt: nat, first: nat)
    requires DriverOk(env, row, Reread(who, goal, attempt, first))
    ensures DriverOk(env, row, RereadStep(row, who, goal, attempt, first))
  {
  }

  /** The acting operation itself ends its step in order. */
  lemma ActorStaysOk(env: Env, row: Row, log: seq<Event>, op: Op, o: Oracle, busy: bool)
    requires RowOk(env, row, log) && OpOk(env, row, log, op) && DriverOk(env, row, op)
    requires AtOrPastGate(row.status) ==> VerifiedCode(env, row)
    ensures var out := OpStep(env, row, op, o, busy);
      && DriverOk(env, out.row, out.op)
      && (AtOrPastGate(out.row.status) ==> VerifiedCode(env, out.row))
  {
    match op {
      case Begin(call) => BeginOk(env, row, log, call, o, busy);
      case Pinned(snap, pin) => PinnedOk(env, row, log, snap, pin);
      case TryWrite(_, _, _, _, _) => TryWriteOk(env, row, log, op);
      case Produce(_, _, _, _) => ProduceOk(env, row, op, o);
      case _ => ReaderOk(env, row, op, o, busy);
    }
  }

  lemma ReaderOk(env: Env, row: Row, op: Op, o: Oracle, busy: bool)
    requires row.id == env.id && DriverOk(env, row, op)
    requires !op.Begin? && !op.Pinned? && !op.TryWrite? && !op.Produce?
    requires AtOrPastGate(row.status) ==> VerifiedCode(env, row)
    ensures var out := OpStep(env, row, op, o, busy);
      && DriverOk(env, out.row, out.op)
      && (AtOrPastGate(out.row.status) ==> VerifiedCode(env, out.row))
  {
    if op.RunRead? || op.CatchRun? || op.Draft? || op.Finished? {
      OnlyWritesChangeTheRow(env, row, op, o, busy);
    } else {
      SilentActorOk(env, row, op, o);
    }
  }

  /** What a step by anything but a verifying driver can do to the columns the gate looks at. */
  lemma BystanderUndisturbed(env: Env, row: Row, log: seq<Event>, actor: Op, o: Oracle, busy: bool, op: Op)
    requires OpOk(env, row, log, actor) && DriverOk(env, row, actor) && DriverOk(env, row, op)
    requires DriverOf(actor).None? || DriverOf(actor) == Some(Pusher) || OpStep(env, row, actor, o, busy).row == row
    ensures DriverOk(env, OpStep(env, row, actor, o, busy).row, op)
  {
    if actor.Pinned? {
      BystanderOfPin(env, row, log, actor.snap, actor.pin, op);
    } else if actor.TryWrite? {
      BystanderOfPush(env, row, log, actor, op);
    } else {
      OnlyWritesChangeTheRow(env, row, actor, o, busy);
    }
  }

  lemma OnlyWritesChangeTheRow(env: Env, row: Row, actor: Op, o: Oracle, busy: bool)
    requires !actor.Pinned? && !actor.TryWrite?
    ensures OpStep(env, row, actor, o, busy).row == row
  {
  }

  lemma BystanderOfPin(env: Env, row: Row, log: seq<Event>, snap: Row, pin: Pin, op: Op)
    requires OpOk(env, row, log, Pinned(snap, pin)) && DriverOk(env, row, op)
    ensures DriverOk(env, PinStep(env, row, snap, pin).row, op)
  {
    if pin.AppendChat? || pin.PutLedger? || pin.PutPublish? {
      BystanderOfSidePin(env, row, log, snap, pin, op);
    } else {
      BystanderOfStatusPin(env, row, log, snap, pin, op);
    }
  }

  /** These leave the columns the gate looks at alone. */
  lemma BystanderOfSidePin(env: Env, row: Row, log: seq<Event>, snap: Row, pin: Pin, op: Op)
    requires pin.AppendChat? || pin.PutLedger? || pin.PutPublish?
    requires OpOk(env, row, log, Pinned(snap, pin)) && DriverOk(env, row, op)
    ensures DriverOk(env, PinStep(env, row, snap, pin).row, op)
  {
  }

  /** These may set the status, the spec or the approval. */
  lemma BystanderOfStatusPin(env: Env, row: Row, log: seq<Event>, snap: Row, pin: Pin, op: Op)
    requires !pin.AppendChat? && !pin.PutLedger? && !pin.PutPublish?
    requires OpOk(env, row, log, Pinned(snap, pin)) && DriverOk(env, row, op)
    ensures DriverOk(env, PinStep(env, row, snap, pin).row, op)
  {
  }

  lemma BystanderOfPush(env: Env, row: Row, log: seq<Event>, actor: Op, op: Op)
    requires actor.TryWrite? && OpOk(env, row, log, actor) && DriverOk(env, row, actor) && DriverOk(env, row, op)
    requires var row' := WriteStep(env, row, actor.who, actor.goal, actor.attempt, actor.first, actor.snap).row;
      actor.who == Pusher || row' == row
    ensures DriverOk(env, WriteStep(env, row, actor.who, actor.goal, actor.attempt, actor.first, actor.snap).row, op)
  {
  }

  lemma RunnerKept(env: Env, s: State, c: Choice)
    requires OneRunner(s)
    ensures OneRunner(Next(env, s, c))
  {
  }

  /** The claim of a run is always given back. */
  ghost predicate ClaimHeld(s: State) {
    s.runner.Some? ==> s.runner.value < |s.ops| && InFlightRun(s.ops[s.runner.value])
  }

  lemma ClaimKept(env: Env, s: State, c: Choice)
    requires ClaimHeld(s)
    ensures ClaimHeld(Next(env, s, c))
  {
  }

  /** Over every run, the session counts as running exactly while the run that claimed it is in flight, and it is the only one. */
  lemma {:induction false} RunnerIsInFlight(env: Env, s: State, cs: seq<Choice>)
    requires OneRunner(s) && ClaimHeld(s)
    ensures OneRunner(Run(env, s, cs)) && ClaimHeld(Run(env, s, cs))
    decreases |cs|
  {
    if |cs| > 0 {
      RunnerKept(env, s, cs[0]);
      ClaimKept(env, s, cs[0]);
      RunnerIsInFlight(env, Next(env, s, cs[0]), cs[1..]);
    }
  }

  lemma GateNext(env: Env, s: State, c: Choice)
    requires Inv(env, s) && GateInv(env, s) && NonOverlapping(s)
    ensures GateInv(env, Next(env, s, c))
  {
    var s' := Next(env, s, c);
    RunnerKept(env, s, c);
    if c.Act? && c.i < |s.ops| {
      var i, busy := c.i, s.runner.Some?;
      var actor := s.ops[i];
      var out := OpStep(env, s.row, actor, c.o, busy);
      assert OpOk(env, s.row, s.log, actor);
      ActorStaysOk(env, s.row, s.log, actor, c.o, busy);
      forall j | 0 <= j < |s'.ops| ensures DriverOk(env, s'.row, s'.ops[j]) {
        if j != i {
          if DriverOf(actor).None? || DriverOf(actor) == Some(Pusher) || out.row == s.row {
            BystanderUndisturbed(env, s.row, s.log, actor, c.o, busy, s.ops[j]);
          } else {
            assert s.row.status != Cancelled;
            if DriverOf(s.ops[j]).Some? {
              DriversExclude(env, s, i, j);
            }
          }
        }
      }
    }
  }

  lemma {:induction false} GateRun(env: Env, s: State, cs: seq<Choice>)
    requires Inv(env, s) && GateInv(env, s) && NonOverlappingRun(env, s, cs)
    ensures GateInv(env, Run(env, s, cs))
    decreases |cs|
  {
    if |cs| > 0 {
      NextKeeps(env, s, cs[0]);
      GateNext(env, s, cs[0]);
      GateRun(env, Next(env, s, cs[0]), cs[1..]);
    }
  }

  // ----- main results

  /**
   If recoveries never overlap, every reachable row at `awaiting_push_confirm`, `push_failed` or `done` has a
   VerifyToken for exactly the stored code, README included.
   */
  lemma GateHoldsVerifiedCode(env: Env, spec: Option<Spec>, base: Option<Files>, delivery: Option<Delivery>, cs: seq<Choice>)
    requires |env.seed| <= CHAT_TURNS_MAX
    requires NonOverlappingRun(env, Start(env, spec, base, delivery), cs)
    ensures var row := Run(env, Start(env, spec, base, delivery), cs).row;
      AtOrPastGate(row.status) ==> VerifiedCode(env, row)
  {
    StartOk(env, spec, base, delivery);
    GateRun(env, Start(env, spec, base, delivery), cs);
  }

  /** So a confirm at the gate is never refused as not verified or mismatched: it goes on to the push. */
  lemma ConfirmIsNeverRefused(env: Env, spec: Option<Spec>, base: Option<Files>, delivery: Option<Delivery>, cs: seq<Choice>, o: Oracle, busy: bool)
    requires |env.seed| <= CHAT_TURNS_MAX
    requires NonOverlappingRun(env, Start(env, spec, base, delivery), cs)
    ensures var row := Run(env, Start(env, spec, base, delivery), cs).row;
      row.status in {AwaitingPushConfirm, PushFailed} ==> BeginStep(env, row, CallConfirm, o, busy) == Destination(row)
  {
    GateHoldsVerifiedCode(env, spec, base, delivery, cs);
  }

  // ----- why the recoveries must not overlap

  lemma Advance(env: Env, s0: State, cs: seq<Choice>, s: State, c: Choice) returns (cs': seq<Choice>, s': State)
    requires s == Run(env, s0, cs)
    ensures s' == Next(env, s, c) && s' == Run(env, s0, cs')
  {
    cs', s' := cs + [c], Next(env, s, c);
    RunSplits(env, s0, cs, [c]);
    assert Run(env, s, [c]) == s';
  }

  /** A seeded build whose first verification finds no passing test. */
  const NO_TESTS := Oracle(None, true, false, false, [], None, 0, false, None, "", None, false, false, false, [])

  /** The same answers, but Scribe writes this README and the tests pass. */
  function Passing(docs: RepoFile): Oracle {
    NO_TESTS.(docs := Some(docs), testsRun := 1, passed := true)
  }

  /** An undisturbed resilient write: one re-read and one commit. */
  lemma SoloWrite(env: Env, s0: State, cs0: seq<Choice>, t: State, i: nat, o: Oracle) returns (cs: seq<Choice>, s: State)
    requires t == Run(env, s0, cs0) && i < |t.ops| && t.ops[i].Reread? && t.row.status != Cancelled
    requires InFlightRun(t.ops[i]) <==> t.runner == Some(i)
    ensures s == Run(env, s0, cs)
    ensures s.row == Apply(t.row, GoalWrite(env, t.ops[i].goal))
    ensures s.ops == t.ops[i := AfterGoal(t.ops[i].who, t.ops[i].goal, s.row)]
    ensures s.runner == if t.runner == Some(i) && s.ops[i].Finished? then None else t.runner
  {
    cs, s := Advance(env, s0, cs0, t, Act(i, o));
    cs, s := Advance(env, s0, cs, s, Act(i, o));
  }

  lemma ReachBuildable(env: Env, spec: Spec) returns (cs: seq<Choice>, s: State)
    ensures s == Run(env, Start(env, Some(spec), None, None), cs)
    ensures |s.ops| == 1 && s.ops[0] == Pinned(s.row, OpenBuild(true)) && s.runner == None
    ensures s.row.status == AwaitingSpecApproval && SpecApproved(env, s.row) && s.row.id == env.id && s.row.base == None
  {
    var s0 := Start(env, Some(spec), None, None);
    cs, s := [], s0;
    cs, s := Advance(env, s0, cs, s, Act(0, NO_TESTS));   // the chat spec is stored
    cs, s := Advance(env, s0, cs, s, Act(0, NO_TESTS));   // its approval is recorded
  }

  lemma ReachProduce(env: Env, spec: Spec) returns (cs: seq<Choice>, s: State)
    ensures s == Run(env, Start(env, Some(spec), None, None), cs)
    ensures s.row.status == Building && s.ops == [Produce(true, s.row, [], 0)] && s.runner == Some(0)
    ensures SpecApproved(env, s.row) && s.row.id == env.id
  {
    var s0 := Start(env, Some(spec), None, None);
    cs, s := ReachBuildable(env, spec);
    cs, s := Advance(env, s0, cs, s, Act(0, NO_TESTS));   // the build opens
    cs, s := Advance(env, s0, cs, s, Act(0, NO_TESTS));   // the run is kicked
    cs, s := Advance(env, s0, cs, s, Act(0, NO_TESTS));   // it reads the row
  }

  lemma ReachCodeSaved(env: Env, spec: Spec) returns (cs: seq<Choice>, s: State)
    ensures s == Run(env, Start(env, Some(spec), None, None), cs)
    ensures s.row.status == Building && s.ops == [Docs(Runner(true), s.row, [])] && s.runner == Some(0)
    ensures SpecApproved(env, s.row) && s.row.code == Some([]) && s.row.id == env.id
  {
    var s0 := Start(env, Some(spec), None, None);
    cs, s := ReachProduce(env, spec);
    cs, s := Advance(env, s0, cs, s, Act(0, NO_TESTS));   // the critic approves
    cs, s := SoloWrite(env, s0, cs, s, 0, NO_TESTS);
  }

  lemma ReachVerifyFailed(env: Env, spec: Spec) returns (cs: seq<Choice>, s: State)
    ensures s == Run(env, Start(env, Some(spec), None, None), cs)
    ensures s.row.status == VerifyFailed && s.ops == [Finished(Returned)] && s.runner == None
    ensures SpecApproved(env, s.row) && s.row.code == Some([]) && s.row.id == env.id
  {
    var s0 := Start(env, Some(spec), None, None);
    cs, s := ReachCodeSaved(env, spec);
    var r := s.row;
    cs, s := Advance(env, s0, cs, s, Act(0, NO_TESTS));   // no README
    assert s.ops == [Verify(Runner(true), r, [])];
    cs, s := Advance(env, s0, cs, s, Act(0, NO_TESTS));   // no test passed
    assert s.ops == [Reread(Runner(true), ParkVerifyFailed(None), 0, r.version)];
    cs, s := SoloWrite(env, s0, cs, s, 0, NO_TESTS);      // parked
  }

  /** A retry that is about to ask for a README runs to its save of the code. */
  lemma SaveReadme(env: Env, s0: State, cs0: seq<Choice>, t: State, i: nat, docs: RepoFile) returns (cs: seq<Choice>, s: State)
    requires t == Run(env, s0, cs0) && i < |t.ops| && t.ops[i].Docs? && t.ops[i].who == Retrier && t.ops[i].files == []
    requires t.ops[i].session.spec.Some? && t.row.status != Cancelled && t.runner == None
    ensures s == Run(env, s0, cs)
    ensures s.row == t.row.(code := Some([docs]), version := t.row.version + 1)
    ensures s.ops == t.ops[i := Verify(Retrier, s.row, [docs])] && s.runner == None
  {
    cs, s := Advance(env, s0, cs0, t, Act(i, Passing(docs)));
    cs, s := SoloWrite(env, s0, cs, s, i, Passing(docs));
  }

  /** From there a passing run takes the retry to the push gate. */
  lemma VerifyAndOpen(env: Env, s0: State, cs0: seq<Choice>, t: State, i: nat, docs: RepoFile) returns (cs: seq<Choice>, s: State)
    requires t == Run(env, s0, cs0) && i < |t.ops| && t.ops[i].Verify? && t.ops[i].who == Retrier && t.ops[i].files == [docs]
    requires t.row.status != Cancelled && t.runner == None
    ensures s == Run(env, s0, cs)
    ensures s.row.status == AwaitingPushConfirm && s.row.id == t.row.id && s.runner == None && s.ops == t.ops[i := Finished(Returned)]
    ensures s.row.verifyToken == Some(VerifyToken(env.id, 1, env.digestFiles([docs]), ""))
  {
    cs, s := VerifyAndSave(env, s0, cs0, t, i, docs);
    cs, s := Advance(env, s0, cs, s, Act(i, Passing(docs)));    // delivery
    cs, s := SoloWrite(env, s0, cs, s, i, Passing(docs));       // the gate opens
  }

  lemma VerifyAndSave(env: Env, s0: State, cs0: seq<Choice>, t: State, i: nat, docs: RepoFile) returns (cs: seq<Choice>, s: State)
    requires t == Run(env, s0, cs0) && i < |t.ops| && t.ops[i].Verify? && t.ops[i].who == Retrier && t.ops[i].files == [docs]
    requires t.row.status != Cancelled && t.runner == None
    ensures s == Run(env, s0, cs)
    ensures var token := VerifyToken(env.id, 1, env.digestFiles([docs]), "");
      && s.ops == t.ops[i := Deliver(Retrier, t.ops[i].session, token, None)]
      && s.row.verifyToken == Some(token) && s.row.status == t.row.status && s.row.id == t.row.id && s.runner == None
  {
    var token := VerifyToken(env.id, 1, env.digestFiles([docs]), "");
    cs, s := Advance(env, s0, cs0, t, Act(i, Passing(docs)));   // Trace
    assert s.ops[i] == Reread(Retrier, SaveToken(t.ops[i].session, token, None), 0, t.row.version);
    cs, s := SoloWrite(env, s0, cs, s, i, Passing(docs));       // the token is recorded
  }

  /**
   With two overlapping retries the guarantee fails: the second one saves its own README after the first
   opened the push gate, and a confirm is refused with a code mismatch.
   */
  lemma OverlappingRetriesBreakTheGate(env: Env, spec: Spec, a: RepoFile, b: RepoFile) returns (cs: seq<Choice>)
    requires env.digestFiles([a]) != env.digestFiles([b])
    ensures var row := Run(env, Start(env, Some(spec), None, None), cs).row;
      && row.status == AwaitingPushConfirm && !VerifiedCode(env, row)
      && BeginStep(env, row, CallConfirm, NO_TESTS, false) == Finished(Threw(CodeMismatch))
  {
    var s0 := Start(env, Some(spec), None, None);
    var s;
    cs, s := ReachVerifyFailed(env, spec);
    cs, s := Advance(env, s0, cs, s, Spawn(CallRetry));
    cs, s := Advance(env, s0, cs, s, Spawn(CallRetry));
    cs, s := Advance(env, s0, cs, s, Act(1, NO_TESTS));
    cs, s := Advance(env, s0, cs, s, Act(2, NO_TESTS));
    assert s.ops == [Finished(Returned), Docs(Retrier, s.row, []), Docs(Retrier, s.row, [])];
    cs, s := SaveReadme(env, s0, cs, s, 1, a);
    cs, s := VerifyAndOpen(env, s0, cs, s, 1, a);
    cs, s := SaveReadme(env, s0, cs, s, 2, b);
  }
}
