/**
 The gated build pipeline as a step machine over one session row.

 Every operation of the orchestrator, every chat turn, ledger write and publish is an `Op`, cut at its store
 calls: between two steps of one operation any other operation may run. Agents, the verifier's test runner,
 GitHub and users are the `Oracle`. A schedule is a sequence of choices, so a statement about all schedules
 is a statement about every interleaving.
 */
module Pipeline {
  import opened Wrappers
  import opened Session
  import opened MergeFiles

  /** What is fixed for a run; the digests are arbitrary functions. */
  datatype Env = Env(
    id: string,
    seed: seq<ChatTurn>,
    digestFiles: Files -> string,
    digestSpec: Spec -> string,
    iterateBudget: nat,
    requireResolution: bool,
    signsPassport: bool)

  /** What happened, in order: the history the safety theorems speak about. */
  datatype Event =
    | Approved(approval: Approval)                              // an ApprovalToken was persisted
    | TraceRan(files: Files, minted: Option<VerifyToken>)       // Trace ran these files
    | TokenRecorded(token: VerifyToken)                         // a VerifyToken was persisted
    | Pushed(files: Files)                                      // these files went to the push adapter
    | ChatAppended(turns: seq<ChatTurn>)                        // a chat append committed
    | ConflictSurfaced(firstRead: nat, lastSeen: nat)           // updateResilient gave up

  datatype Error =
    | WrongStatus | NoSpec | SpecNotApproved | CriticFailed | AgentFailed | RunCancelled | VersionConflict
    | NotVerified | CodeMismatch | AlreadyPushed | NoDestination | PushRejected

  datatype Outcome = Returned | Threw(error: Error)

  /** Whose pipeline step this is; a kicked run is the fire-and-forget one of a seeded start. */
  datatype Driver = Runner(kicked: bool) | Resolver | Retrier | Pusher

  /** A write that locks on the version its operation read at the start. */
  datatype Pin =
    | SeedSpec(spec: Spec)
    | GrantApproval(kick: bool)
    | OpenBuild(kick: bool)
    | Clarify
    | DraftSpec(spec: Spec, approved: bool)
    | CancelRow
    | AbandonRow
    | ReopenSpecGate
    | FailRun
    | AppendChat(turns: seq<ChatTurn>, attempt: nat)
    | PutLedger(writes: seq<WriteRecord>)
    | PutPublish(record: Publish)

  /** A write of the version-resilient loop, which re-reads the row on every attempt. */
  datatype Goal =
    | SaveCode(files: Files)
    | ParkAtCritic(files: Files)
    | SaveDocs(files: Files)
    | SaveToken(session: Row, token: VerifyToken, evidence: Option<Evidence>)
    | OpenPushGate(token: VerifyToken, evidence: Option<Evidence>, delivery: Option<Delivery>)
    | ParkVerifyFailed(evidence: Option<Evidence>)
    | ParkPushFailed(delivery: Option<Delivery>, error: Error)
    | FinishPush(delivery: Option<Delivery>)

  datatype Call =
    | CallCancel | CallApprove | CallRun(kicked: bool) | CallResolve(proceed: bool) | CallRetry | CallConfirm
    | CallChat(turns: seq<ChatTurn>, attempt: nat) | CallLedger | CallPublish(record: Publish)

  /** The program counter and locals of one operation. */
  datatype Op =
    | Finished(outcome: Outcome)
    | Begin(call: Call)                                                      // before its first store read
    | Draft(snap: Row)                                                       // start(): Scribe and the spec critic
    | Pinned(snap: Row, pin: Pin)                                            // before a version-locked write
    | RunRead(kicked: bool)                                                  // in flight, before runPipeline's read
    | CatchRun                                                               // kickRun's catch, before its read
    | Produce(kicked: bool, session: Row, base: Files, attempt: nat)         // the iterate loop
    | Reread(who: Driver, goal: Goal, attempt: nat, first: nat)              // updateResilient, before store.get
    | TryWrite(who: Driver, goal: Goal, attempt: nat, first: nat, snap: Row) // updateResilient, before store.update
    | Docs(who: Driver, session: Row, files: Files)                          // Scribe writes the README
    | Verify(who: Driver, session: Row, files: Files)                        // Trace
    | Deliver(who: Driver, session: Row, token: VerifyToken, evidence: Option<Evidence>)
    | Destination(cur: Row)                                                  // confirmPush: where to push
    | Pushing(cur: Row, delivery: Option<Delivery>)                          // confirmPush: the push itself

  /** Everything the environment can answer; a step looks only at the fields it needs. */
  datatype Oracle = Oracle(
    drafted: Option<Spec>, approved: bool, critical: bool, throws: bool,
    files: Files, docs: Option<RepoFile>,
    testsRun: int, passed: bool, evidence: Option<Evidence>, evidenceDigest: string,
    delivery: Option<Delivery>, refused: bool, repoFails: bool, pushFails: bool,
    ledger: seq<WriteRecord>)

  datatype Out = Out(row: Row, op: Op, log: seq<Event>)

  function Stay(row: Row, op: Op): Out {
    Out(row, op, [])
  }

  /** An exception leaving a driver; only a kicked run has a catch, and it is silent about a cancel. */
  function Raise(who: Driver, e: Error): Op {
    if who == Runner(true) && e != RunCancelled then CatchRun else Finished(Threw(e))
  }

  // ----- gates

  function BrandApproval(env: Env, spec: Spec): Approval {
    Approval(spec, env.digestSpec(spec))
  }

  /** Gate 1, `mintApprovedSpec`. */
  predicate SpecApproved(env: Env, s: Row) {
    && s.approval.Some?
    && s.approval.value.specDigest == env.digestSpec(s.approval.value.spec)
    && s.spec.Some?
    && env.digestSpec(s.approval.value.spec) == env.digestSpec(s.spec.value)
  }

  /** Gates 2 and 3, the verifier's `mint`: a token only for a genuine pass of at least one test. */
  function MintVerifyToken(env: Env, files: Files, testsRun: int, passed: bool, evidenceDigest: string): Option<VerifyToken> {
    if testsRun >= 1 && passed then Some(VerifyToken(env.id, testsRun, env.digestFiles(files), evidenceDigest)) else None
  }

  /** Gate 4, `mintApprovedPush`; `None` means the push may go ahead. */
  function PushRefusal(env: Env, s: Row, files: Files): Option<Error> {
    if !IsVerified(s) then Some(NotVerified)
    else if s.verifyToken.value.codeDigest != env.digestFiles(files) then Some(CodeMismatch)
    else None
  }

  // ----- the writes

  function ToStatus(st: Status): Patch {
    NO_PATCH.(status := Some(st))
  }

  function PinWrite(env: Env, snap: Row, pin: Pin): Session.Write {
    match pin
    case SeedSpec(spec) => Generic(ToStatus(AwaitingSpecApproval).(spec := Some(spec)))
    case GrantApproval(_) => RecordApproval(BrandApproval(env, snap.spec.GetOr(Spec("", ""))))
    case OpenBuild(_) => Generic(ToStatus(Building))
    case Clarify => Generic(ToStatus(Composing))
    case DraftSpec(spec, approved) =>
      Generic(ToStatus(if approved then AwaitingSpecApproval else AwaitingCriticResolution).(spec := Some(spec)))
    case CancelRow => Generic(ToStatus(Cancelled))
    case AbandonRow => Generic(ToStatus(Cancelled))
    case ReopenSpecGate => Generic(ToStatus(AwaitingSpecApproval))
    case FailRun => Generic(ToStatus(Failed))
    case AppendChat(turns, _) => Generic(NO_PATCH.(chat := Some(LastN(snap.chat + turns, CHAT_TURNS_MAX))))
    case PutLedger(ws) => Generic(NO_PATCH.(externalWrites := Some(ws)))
    case PutPublish(p) => Generic(NO_PATCH.(publish := Some(p)))
  }

  function GoalWrite(env: Env, goal: Goal): Session.Write {
    match goal
    case SaveCode(files) => Generic(NO_PATCH.(code := Some(files)))
    case ParkAtCritic(files) => Generic(ToStatus(AwaitingCriticResolution).(code := Some(files)))
    case SaveDocs(files) => Generic(NO_PATCH.(code := Some(files)))
    case SaveToken(_, token, _) => RecordVerification(token)
    case OpenPushGate(t, evidence, delivery) =>
      Generic(ToStatus(AwaitingPushConfirm).(
              testEvidence := evidence,
              passport := if env.signsPassport then Some(Passport(t.sessionId, t.testsRun, t.codeDigest, t.evidenceDigest)) else None,
              delivery := delivery))
    case ParkVerifyFailed(evidence) => Generic(ToStatus(VerifyFailed).(testEvidence := evidence))
    case ParkPushFailed(delivery, _) => Generic(ToStatus(PushFailed).(delivery := delivery))
    case FinishPush(delivery) => Generic(ToStatus(Done).(delivery := delivery))
  }

  // ----- the steps

  /** The first store read of an operation and the checks on it. `busy`: a run of this session is in flight. */
  function BeginStep(env: Env, row: Row, call: Call, o: Oracle, busy: bool): Op {
    match call
    case CallCancel =>
      if IsCancelImmune(row.status) then Finished(Threw(WrongStatus)) else Pinned(row, CancelRow)
    case CallApprove =>
      if row.status != AwaitingSpecApproval then Finished(Threw(WrongStatus))
      else if row.spec.None? then Finished(Threw(NoSpec))
      else Pinned(row, GrantApproval(false))
    case CallRun(kicked) =>
      if busy then Raise(Runner(kicked), WrongStatus) else RunRead(kicked)
    case CallResolve(proceed) =>
      if row.status != AwaitingCriticResolution then Finished(Threw(WrongStatus))
      else if !proceed then Pinned(row, AbandonRow)
      else if row.approval.None? then Pinned(row, ReopenSpecGate)
      else Docs(Resolver, row, CodeFiles(row))
    case CallRetry =>
      if row.status != VerifyFailed then Finished(Threw(WrongStatus))
      else if !SpecApproved(env, row) then Finished(Threw(SpecNotApproved))
      else Docs(Retrier, row, CodeFiles(row))
    case CallConfirm =>
      if row.status == Done then Finished(Threw(AlreadyPushed))
      else if row.status != AwaitingPushConfirm && row.status != PushFailed then Finished(Threw(WrongStatus))
      else
        (match PushRefusal(env, row, CodeFiles(row))
         case Some(e) => Finished(Threw(e))
         case None => Destination(row))
    case CallChat(turns, attempt) => Pinned(row, AppendChat(turns, attempt))
    case CallLedger => Pinned(row, PutLedger(o.ledger))
    case CallPublish(p) => if row.status != Done then Finished(Threw(WrongStatus)) else Pinned(row, PutPublish(p))
  }

  function DraftStep(snap: Row, o: Oracle): Op {
    if o.throws then Finished(Threw(CriticFailed))
    else
      match o.drafted
      case None => Pinned(snap, Clarify)
      case Some(spec) => Pinned(snap, DraftSpec(spec, o.approved))
  }

  /** Where an operation goes after its locked write committed, leaving the row as `next`. */
  function AfterPin(pin: Pin, next: Row): Op {
    match pin
    case SeedSpec(_) => Pinned(next, GrantApproval(true))
    case GrantApproval(kick) => Pinned(next, OpenBuild(kick))
    case OpenBuild(kick) => if kick then Begin(CallRun(true)) else Finished(Returned)
    case _ => Finished(Returned)
  }

  function PinEvents(env: Env, snap: Row, pin: Pin): seq<Event> {
    match pin
    case GrantApproval(_) => [Approved(BrandApproval(env, snap.spec.GetOr(Spec("", ""))))]
    case AppendChat(turns, _) => [ChatAppended(turns)]
    case _ => []
  }

  function PinStep(env: Env, row: Row, snap: Row, pin: Pin): Out {
    match Commit(row, PinWrite(env, snap, pin), snap.version)
    case Some(next) => Out(next, AfterPin(pin, next), PinEvents(env, snap, pin))
    case None =>
      if pin.AppendChat? && pin.attempt == 0 then Stay(row, Begin(CallChat(pin.turns, 1)))
      else if pin.AppendChat? then Stay(row, Finished(Returned))   // a lost chat turn is dropped silently
      else Stay(row, Finished(Threw(VersionConflict)))
  }

  /** One round of the iterate loop: Proto, merge, validator and critic. */
  function ProduceStep(env: Env, kicked: bool, session: Row, base: Files, attempt: nat, row: Row, o: Oracle): Op {
    var candidate := Merge(base, o.files);
    if o.throws then Raise(Runner(kicked), AgentFailed)
    else if o.approved then Reread(Runner(kicked), SaveCode(candidate), 0, row.version)
    else if o.critical || env.requireResolution || attempt >= env.iterateBudget then
      Reread(Runner(kicked), ParkAtCritic(candidate), 0, row.version)
    else Produce(kicked, session, if |base| > 0 then candidate else base, attempt + 1)
  }

  function DocsStep(who: Driver, session: Row, files: Files, row: Row, o: Oracle): Op {
    if session.spec.Some? && o.docs.Some? then Reread(who, SaveDocs(Merge(files, [o.docs.value])), 0, row.version)
    else Verify(who, session, files)
  }

  function VerifyStep(env: Env, who: Driver, session: Row, files: Files, row: Row, o: Oracle): Out {
    if o.throws then Stay(row, Raise(who, AgentFailed))
    else
      var token := MintVerifyToken(env, files, o.testsRun, o.passed, o.evidenceDigest);
      var goal := match token case Some(t) => SaveToken(session, t, o.evidence) case None => ParkVerifyFailed(o.evidence);
      Out(row, Reread(who, goal, 0, row.version), [TraceRan(files, token)])
  }

  /** `resolveDelivery`: a pinned destination wins, else whatever the resolver derives. */
  function ResolveDelivery(session: Row, o: Oracle): Option<Delivery> {
    session.delivery.OrElse(o.delivery)
  }

  function DestinationStep(cur: Row, row: Row, o: Oracle): Op {
    var derived := if cur.delivery.None? then o.delivery else None;
    if o.refused then Reread(Pusher, ParkPushFailed(derived, NoDestination), 0, row.version)
    else Pushing(cur, derived)
  }

  function PushStep(cur: Row, delivery: Option<Delivery>, row: Row, o: Oracle): Out {
    var park := Reread(Pusher, ParkPushFailed(delivery, PushRejected), 0, row.version);
    if o.repoFails then Stay(row, park)
    else
      Out(row, if o.pushFails then park else Reread(Pusher, FinishPush(delivery), 0, row.version), [Pushed(CodeFiles(cur))])
  }

  /** Where a driver goes after its resilient write committed, leaving the row as `next`. */
  function AfterGoal(who: Driver, goal: Goal, next: Row): Op {
    match goal
    case SaveCode(files) => Docs(who, next, files)
    case SaveDocs(files) => Verify(who, next, files)
    case SaveToken(session, token, evidence) => Deliver(who, session, token, evidence)
    case ParkPushFailed(_, e) => Finished(Threw(e))
    case _ => Finished(Returned)
  }

  function GoalEvents(goal: Goal): seq<Event> {
    match goal
    case SaveToken(_, token, _) => [TokenRecorded(token)]
    case _ => []
  }

  /** An exception inside the resilient loop; parking a failed push must not mask the push's own error. */
  function GoalFails(who: Driver, goal: Goal, e: Error): Op {
    if goal.ParkPushFailed? && goal.error == PushRejected then Finished(Threw(PushRejected)) else Raise(who, e)
  }

  function RereadStep(row: Row, who: Driver, goal: Goal, attempt: nat, first: nat): Op {
    if row.status == Cancelled then GoalFails(who, goal, RunCancelled)
    else TryWrite(who, goal, attempt, if attempt == 0 then row.version else first, row)
  }

  function WriteStep(env: Env, row: Row, who: Driver, goal: Goal, attempt: nat, first: nat, snap: Row): Out {
    match Commit(row, GoalWrite(env, goal), snap.version)
    case Some(next) => Out(next, AfterGoal(who, goal, next), GoalEvents(goal))
    case None =>
      if attempt >= MAX_RESILIENT_WRITE_RETRY then
        Out(row, GoalFails(who, goal, VersionConflict), [ConflictSurfaced(first, row.version)])
      else Stay(row, Reread(who, goal, attempt + 1, first))
  }

  /** One step of one operation. */
  function OpStep(env: Env, row: Row, op: Op, o: Oracle, busy: bool): Out {
    match op
    case Finished(_) => Stay(row, op)
    case Begin(call) => Stay(row, BeginStep(env, row, call, o, busy))
    case Draft(snap) => Stay(row, DraftStep(snap, o))
    case Pinned(snap, pin) => PinStep(env, row, snap, pin)
    case RunRead(kicked) =>
      Stay(row,
           if row.status != Building then Raise(Runner(kicked), WrongStatus)
           else if !SpecApproved(env, row) then Raise(Runner(kicked), SpecNotApproved)
           else Produce(kicked, row, row.base.GetOr([]), 0))
    case CatchRun => Stay(row, if row.status == Building then Pinned(row, FailRun) else Finished(Returned))
    case Produce(kicked, session, base, attempt) => Stay(row, ProduceStep(env, kicked, session, base, attempt, row, o))
    case Reread(who, goal, attempt, first) => Stay(row, RereadStep(row, who, goal, attempt, first))
    case TryWrite(who, goal, attempt, first, snap) => WriteStep(env, row, who, goal, attempt, first, snap)
    case Docs(who, session, files) => Stay(row, DocsStep(who, session, files, row, o))
    case Verify(who, session, files) => VerifyStep(env, who, session, files, row, o)
    case Deliver(who, session, token, evidence) =>
      Stay(row, Reread(who, OpenPushGate(token, evidence, ResolveDelivery(session, o)), 0, row.version))
    case Destination(cur) => Stay(row, DestinationStep(cur, row, o))
    case Pushing(cur, delivery) => PushStep(cur, delivery, row, o)
  }

  // ----- the whole system

  /** `runner` is the operation that put the session into `inFlightRuns`. */
  datatype State = State(row: Row, ops: seq<Op>, runner: Option<nat>, log: seq<Event>)

  datatype Choice = Spawn(call: Call) | Act(i: nat, o: Oracle)

  /** Between the check-and-set of `runToVerification` and its `finally`. */
  predicate InFlightRun(op: Op) {
    match op
    case RunRead(_) => true
    case Produce(_, _, _, _) => true
    case Reread(who, _, _, _) => who.Runner?
    case TryWrite(who, _, _, _, _) => who.Runner?
    case Docs(who, _, _) => who.Runner?
    case Verify(who, _, _) => who.Runner?
    case Deliver(who, _, _, _) => who.Runner?
    case _ => false
  }

  function Next(env: Env, s: State, c: Choice): State {
    match c
    case Spawn(call) => s.(ops := s.ops + [Begin(call)])
    case Act(i, o) =>
      if i >= |s.ops| then s
      else
        var out := OpStep(env, s.row, s.ops[i], o, s.runner.Some?);
        var runner :=
          if InFlightRun(out.op) && s.runner.None? then Some(i)
          else if s.runner == Some(i) && !InFlightRun(out.op) then None
          else s.runner;
        State(out.row, s.ops[i := out.op], runner, s.log + out.log)
  }

  function Run(env: Env, s: State, cs: seq<Choice>): State
    decreases |cs|
  {
    if |cs| == 0 then s else Run(env, Next(env, s, cs[0]), cs[1..])
  }

  /** Right after `store.create`: `start` goes on with the approved chat spec, or drafts one. */
  function Start(env: Env, spec: Option<Spec>, base: Option<Files>, delivery: Option<Delivery>): State {
    var row := InitialSession(env.id, base, delivery, env.seed);
    State(row, [match spec case Some(sp) => Pinned(row, SeedSpec(sp)) case None => Draft(row)], None, [])
  }
}
