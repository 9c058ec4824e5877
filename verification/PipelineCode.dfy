/**
 What a build stores and verifies, in every interleaving: the emissions of its own rounds over the base, then its own
 README; and how the verdicts of its rounds decide where it goes.
 */
module PipelineCode {
  import opened Wrappers
  import opened Session
  import opened MergeFiles
  import opened Pipeline
  import opened PipelineSafety

  // ----- what one operation was given so far

  /** The answers of its produce rounds, the README Scribe wrote for it, and the code it found when it was called. */
  datatype Past = Past(rounds: seq<Oracle>, readme: Option<RepoFile>, taken: Files)

  const NOTHING := Past([], None, [])

  function Extend(p: Past, row: Row, op: Op, o: Oracle): Past {
    match op
    case Begin(_) => p.(taken := CodeFiles(row))
    case Produce(_, _, _, _) => if o.throws then p else p.(rounds := p.rounds + [o])
    case Docs(_, _, _) => p.(readme := o.docs)
    case _ => p
  }

  /** The past of operation i after a run. */
  function PastOf(env: Env, s0: State, cs: seq<Choice>, i: nat): Past {
    if |cs| == 0 then NOTHING
    else
      var init, c := cs[..|cs| - 1], cs[|cs| - 1];
      var p, s := PastOf(env, s0, init, i), Run(env, s0, init);
      if c.Act? && c.i == i && i < |s.ops| then Extend(p, s.row, s.ops[i], c.o) else p
  }

  // ----- what its file set must be

  function Emissions(rounds: seq<Oracle>): nat -> Files {
    (k: nat) => if k < |rounds| then rounds[k].files else []
  }

  /** Before the README: the rounds over the base, or without a base the last round alone; with no rounds what it found. */
  function Origin(base: Files, p: Past, path: string): Option<string> {
    if |p.rounds| == 0 then Lookup(p.taken, path)
    else if |base| == 0 then Lookup(p.rounds[|p.rounds| - 1].files, path)
    else LatestEmission(Emissions(p.rounds), |p.rounds|, path).OrElse(Lookup(base, path))
  }

  function Planned(base: Files, p: Past, path: string): Option<string> {
    if p.readme.Some? && p.readme.value.filePath == path then Some(p.readme.value.content) else Origin(base, p, path)
  }

  ghost predicate Holds(base: Files, p: Past, files: Files) {
    forall path :: Lookup(files, path) == Planned(base, p, path)
  }

  /** What Proto edits next. */
  ghost predicate EditBase(base: Files, rounds: seq<Oracle>, b: Files) {
    if |base| == 0 then b == []
    else
      && |b| > 0
      && forall path :: Lookup(b, path) == LatestEmission(Emissions(rounds), |rounds|, path).OrElse(Lookup(base, path))
  }

  // ----- the verdicts

  /** A round that sends Proto back to work. */
  predicate Rejected(env: Env, o: Oracle) {
    !o.approved && !o.critical && !env.requireResolution
  }

  predicate AllRejected(env: Env, rounds: seq<Oracle>) {
    forall k :: 0 <= k < |rounds| ==> Rejected(env, rounds[k])
  }

  /** The last round was approved, after at most the budget of rejected ones. */
  predicate EndedApproved(env: Env, rounds: seq<Oracle>) {
    && 1 <= |rounds| <= env.iterateBudget + 1
    && AllRejected(env, rounds[..|rounds| - 1]) && rounds[|rounds| - 1].approved
  }

  /** The last round was not, and it was critical, or had to be resolved by a human, or was the last of the budget. */
  predicate EndedParked(env: Env, rounds: seq<Oracle>) {
    && 1 <= |rounds| <= env.iterateBudget + 1
    && AllRejected(env, rounds[..|rounds| - 1])
    && var last := rounds[|rounds| - 1];
       !last.approved && (last.critical || env.requireResolution || |rounds| == env.iterateBudget + 1)
  }

  // ----- the invariant

  predicate Fresh(p: Past) {
    p.rounds == [] && p.readme.None?
  }

  ghost predicate GoalCode(env: Env, base: Files, p: Past, who: Driver, g: Goal) {
    match g
    case SaveCode(files) => who.Runner? && p.readme.None? && Holds(base, p, files) && EndedApproved(env, p.rounds)
    case ParkAtCritic(files) => who.Runner? && p.readme.None? && Holds(base, p, files) && EndedParked(env, p.rounds)
    case SaveDocs(files) => Holds(base, p, files) && (who.Runner? ==> EndedApproved(env, p.rounds))
    case _ => who.Runner? ==> EndedApproved(env, p.rounds)
  }

  ghost predicate OpCode(env: Env, base: Files, p: Past, op: Op) {
    match op
    case Begin(_) => Fresh(p)
    case Draft(_) => Fresh(p)
    case RunRead(_) => Fresh(p)
    case Pinned(_, pin) => pin == FailRun || Fresh(p)
    case Produce(_, _, b, attempt) =>
      p.readme.None? && |p.rounds| == attempt <= env.iterateBudget && AllRejected(env, p.rounds) && EditBase(base, p.rounds, b)
    case Reread(who, g, _, _) => GoalCode(env, base, p, who, g)
    case TryWrite(who, g, _, _, _) => GoalCode(env, base, p, who, g)
    case Docs(who, session, files) =>
      && p.readme.None? && Holds(base, p, files) && session.spec.Some?
      && (who.Runner? ==> EndedApproved(env, p.rounds))
    case Verify(who, _, files) => Holds(base, p, files) && (who.Runner? ==> EndedApproved(env, p.rounds))
    case Deliver(who, _, _, _) => who.Runner? ==> EndedApproved(env, p.rounds)
    case _ => true
  }

  // ----- the steps

  lemma {:induction false} LatestAgrees(a: nat -> Files, b: nat -> Files, n: nat, path: string)
    requires forall k: nat :: k < n ==> a(k) == b(k)
    ensures LatestEmission(a, n, path) == LatestEmission(b, n, path)
  {
    if n > 0 {
      LatestAgrees(a, b, n - 1, path);
    }
  }

  lemma OneMoreRound(rounds: seq<Oracle>, o: Oracle, path: string)
    ensures var more := rounds + [o];
      LatestEmission(Emissions(more), |more|, path) ==
      Lookup(o.files, path).OrElse(LatestEmission(Emissions(rounds), |rounds|, path))
  {
    LatestAgrees(Emissions(rounds + [o]), Emissions(rounds), |rounds|, path);
  }

  /** The merged candidate is what the rounds so far, this one included, make of the base. */
  lemma CandidateHolds(base: Files, p: Past, b: Files, o: Oracle)
    requires p.readme.None? && EditBase(base, p.rounds, b)
    ensures var p' := p.(rounds := p.rounds + [o]);
      Holds(base, p', Merge(b, o.files)) && (|base| > 0 ==> EditBase(base, p'.rounds, Merge(b, o.files)))
  {
    var p' := p.(rounds := p.rounds + [o]);
    forall path ensures Lookup(Merge(b, o.files), path) == Planned(base, p', path) {
      if |base| > 0 {
        MergeIsOverride(b, o.files, path);
        OneMoreRound(p.rounds, o, path);
      }
    }
  }

  lemma ProduceCode(env: Env, base: Files, p: Past, row: Row, op: Op, o: Oracle)
    requires op.Produce? && OpCode(env, base, p, op)
    ensures OpCode(env, base, Extend(p, row, op, o), ProduceStep(env, op.kicked, op.session, op.base, op.attempt, row, o))
  {
    if !o.throws {
      var rounds := p.rounds + [o];
      CandidateHolds(base, p, op.base, o);
      assert rounds[..|rounds| - 1] == p.rounds && rounds[|rounds| - 1] == o;
    }
  }

  /** The README lands over whatever was there, under its own path. */
  lemma ReadmeHolds(base: Files, p: Past, files: Files, docs: RepoFile)
    requires p.readme.None? && Holds(base, p, files)
    ensures Holds(base, p.(readme := Some(docs)), Merge(files, [docs]))
  {
    forall path ensures Lookup(Merge(files, [docs]), path) == Planned(base, p.(readme := Some(docs)), path) {
      ReadmeMerge(files, docs, path);
    }
  }

  lemma DocsCode(env: Env, base: Files, p: Past, row: Row, op: Op, o: Oracle)
    requires op.Docs? && OpCode(env, base, p, op)
    ensures OpCode(env, base, Extend(p, row, op, o), DocsStep(op.who, op.session, op.files, row, o))
  {
    if o.docs.Some? {
      ReadmeHolds(base, p, op.files, o.docs.value);
    } else {
      assert p.(readme := None) == p;
    }
  }

  /** An approval on record means a spec in the row. */
  lemma ApprovedHasSpec(env: Env, row: Row, log: seq<Event>)
    requires RowOk(env, row, log) && ApprovedIn(log)
    ensures row.spec.Some?
  {
  }

  lemma BeginCode(env: Env, base: Files, p: Past, row: Row, log: seq<Event>, call: Call, o: Oracle, busy: bool)
    requires RowOk(env, row, log) && Fresh(p)
    ensures OpCode(env, base, Extend(p, row, Begin(call), o), BeginStep(env, row, call, o, busy))
  {
    if row.approval.Some? {
      ApprovedHasSpec(env, row, log);
    }
  }

  lemma PinCode(env: Env, base: Files, p: Past, row: Row, snap: Row, pin: Pin)
    requires OpCode(env, base, p, Pinned(snap, pin))
    ensures OpCode(env, base, p, PinStep(env, row, snap, pin).op)
  {
  }

  lemma WriteCode(env: Env, base: Files, p: Past, row: Row, log: seq<Event>, op: Op)
    requires op.TryWrite? && OpCode(env, base, p, op) && RowOk(env, row, log) && OpOk(env, row, log, op)
    ensures OpCode(env, base, p, WriteStep(env, row, op.who, op.goal, op.attempt, op.first, op.snap).op)
  {
    if op.goal.SaveCode? {
      ApprovedHasSpec(env, row, log);
    }
  }

  lemma RunReadCode(env: Env, base: Files, p: Past, row: Row, op: Op, o: Oracle, busy: bool)
    requires op.RunRead? && Fresh(p) && row.base.GetOr([]) == base
    ensures OpCode(env, base, p, OpStep(env, row, op, o, busy).op)
  {
  }

  lemma OtherCode(env: Env, base: Files, p: Past, row: Row, op: Op, o: Oracle, busy: bool)
    requires OpCode(env, base, p, op)
    requires op.Finished? || op.Draft? || op.CatchRun? || op.Reread? || op.Verify? || op.Deliver? || op.Destination? || op.Pushing?
    ensures OpCode(env, base, p, OpStep(env, row, op, o, busy).op)
  {
  }

  lemma StepCode(env: Env, base: Files, p: Past, row: Row, log: seq<Event>, op: Op, o: Oracle, busy: bool)
    requires RowOk(env, row, log) && OpOk(env, row, log, op) && OpCode(env, base, p, op) && row.base.GetOr([]) == base
    ensures OpCode(env, base, Extend(p, row, op, o), OpStep(env, row, op, o, busy).op)
  {
    match op {
      case Begin(call) => BeginCode(env, base, p, row, log, call, o, busy);
      case Pinned(snap, pin) => PinCode(env, base, p, row, snap, pin);
      case RunRead(_) => RunReadCode(env, base, p, row, op, o, busy);
      case Produce(_, _, _, _) => ProduceCode(env, base, p, row, op, o);
      case TryWrite(_, _, _, _, _) => WriteCode(env, base, p, row, log, op);
      case Docs(_, _, _) => DocsCode(env, base, p, row, op, o);
      case _ => OtherCode(env, base, p, row, op, o, busy);
    }
  }

  // ----- every run

  ghost predicate CodeInv(env: Env, s0: State, cs: seq<Choice>) {
    var s := Run(env, s0, cs);
    && s.row.base == s0.row.base
    && forall i :: 0 <= i < |s.ops| ==> OpCode(env, s0.row.base.GetOr([]), PastOf(env, s0, cs, i), s.ops[i])
  }

  /** An operation that does not exist yet has no past. */
  lemma {:induction false} NoPastYet(env: Env, s0: State, cs: seq<Choice>, i: nat)
    requires i >= |Run(env, s0, cs).ops|
    ensures PastOf(env, s0, cs, i) == NOTHING
  {
    if |cs| > 0 {
      var init := cs[..|cs| - 1];
      RunSnoc(env, s0, init, cs[|cs| - 1]);
      assert init + [cs[|cs| - 1]] == cs;
      NoPastYet(env, s0, init, i);
    }
  }

  lemma RunSnoc(env: Env, s0: State, cs: seq<Choice>, c: Choice)
    ensures Run(env, s0, cs + [c]) == Next(env, Run(env, s0, cs), c)
  {
    RunSplits(env, s0, cs, [c]);
    assert Run(env, Run(env, s0, cs), [c]) == Next(env, Run(env, s0, cs), c);
  }

  lemma PastSnoc(env: Env, s0: State, cs: seq<Choice>, c: Choice, i: nat)
    ensures var s, p := Run(env, s0, cs), PastOf(env, s0, cs, i);
      PastOf(env, s0, cs + [c], i) == if c.Act? && c.i == i && i < |s.ops| then Extend(p, s.row, s.ops[i], c.o) else p
  {
    assert (cs + [c])[..|cs|] == cs;
  }

  lemma NextCode(env: Env, s0: State, cs: seq<Choice>, c: Choice)
    requires Inv(env, Run(env, s0, cs)) && CodeInv(env, s0, cs)
    ensures CodeInv(env, s0, cs + [c])
  {
    var s, s' := Run(env, s0, cs), Run(env, s0, cs + [c]);
    var base := s0.row.base.GetOr([]);
    RunSnoc(env, s0, cs, c);
    forall i | 0 <= i < |s'.ops| ensures OpCode(env, base, PastOf(env, s0, cs + [c], i), s'.ops[i]) {
      PastSnoc(env, s0, cs, c, i);
      if i >= |s.ops| {
        NoPastYet(env, s0, cs, i);
      } else if c.Act? && c.i == i {
        assert OpOk(env, s.row, s.log, s.ops[i]);
        StepCode(env, base, PastOf(env, s0, cs, i), s.row, s.log, s.ops[i], c.o, s.runner.Some?);
      }
    }
    NextBase(env, s, c);
  }

  lemma NextBase(env: Env, s: State, c: Choice)
    ensures Next(env, s, c).row.base == s.row.base
  {
  }

  lemma {:induction false} RunCode(env: Env, spec: Option<Spec>, base: Option<Files>, delivery: Option<Delivery>, cs: seq<Choice>)
    requires |env.seed| <= CHAT_TURNS_MAX
    ensures var s0 := Start(env, spec, base, delivery); Inv(env, Run(env, s0, cs)) && CodeInv(env, s0, cs)
  {
    var s0 := Start(env, spec, base, delivery);
    StartOk(env, spec, base, delivery);
    if |cs| > 0 {
      var init, c := cs[..|cs| - 1], cs[|cs| - 1];
      assert init + [c] == cs;
      RunCode(env, spec, base, delivery, init);
      NextKeeps(env, Run(env, s0, init), c);
      RunSnoc(env, s0, init, c);
      NextCode(env, s0, init, c);
    }
  }

  // ----- main results

  lemma CommitHolds(env: Env, base: Files, p: Past, row: Row, op: Op, o: Oracle, busy: bool)
    requires OpCode(env, base, p, op) && OpStep(env, row, op, o, busy).row.code != row.code
    ensures var code := OpStep(env, row, op, o, busy).row.code; code.Some? && Holds(base, p, code.value)
  {
  }

  /**
   In every interleaving: whatever changes the stored code is one operation's save, and for every path it holds what that
   operation was given. A path of its README holds the README; any other path the latest emission of its own rounds, else
   the base content, or without a base the last round alone. A recovery starts from the code it found.
   */
  lemma StoredCodeIsAsEmitted(env: Env, spec: Option<Spec>, base: Option<Files>, delivery: Option<Delivery>, cs: seq<Choice>, c: Choice)
    requires |env.seed| <= CHAT_TURNS_MAX
    requires var s := Run(env, Start(env, spec, base, delivery), cs); Next(env, s, c).row.code != s.row.code
    ensures var s0 := Start(env, spec, base, delivery); var s := Run(env, s0, cs);
      && c.Act? && c.i < |s.ops| && Next(env, s, c).row.code.Some?
      && Holds(base.GetOr([]), PastOf(env, s0, cs, c.i), Next(env, s, c).row.code.value)
  {
    var s0 := Start(env, spec, base, delivery);
    var s := Run(env, s0, cs);
    RunCode(env, spec, base, delivery, cs);
    assert OpCode(env, base.GetOr([]), PastOf(env, s0, cs, c.i), s.ops[c.i]);
    CommitHolds(env, base.GetOr([]), PastOf(env, s0, cs, c.i), s.row, s.ops[c.i], c.o, s.runner.Some?);
  }

  /** What Trace is about to test is that very file set, the operation's README included. */
  lemma TestedFilesAreAsEmitted(env: Env, spec: Option<Spec>, base: Option<Files>, delivery: Option<Delivery>, cs: seq<Choice>, i: nat)
    requires |env.seed| <= CHAT_TURNS_MAX
    requires var s := Run(env, Start(env, spec, base, delivery), cs); i < |s.ops| && s.ops[i].Verify?
    ensures var s0 := Start(env, spec, base, delivery); var s, p := Run(env, s0, cs), PastOf(env, s0, cs, i);
      && Holds(base.GetOr([]), p, s.ops[i].files)
      && (p.readme.Some? ==> Lookup(s.ops[i].files, p.readme.value.filePath) == Some(p.readme.value.content))
  {
    RunCode(env, spec, base, delivery, cs);
  }

  /** Whose step it is, while a driver is between its rounds and its end. */
  function DriverAt(op: Op): Option<Driver> {
    match op
    case Reread(who, _, _, _) => Some(who)
    case TryWrite(who, _, _, _, _) => Some(who)
    case Docs(who, _, _) => Some(who)
    case Verify(who, _, _) => Some(who)
    case Deliver(who, _, _, _) => Some(who)
    case _ => None
  }

  predicate IsParking(op: Op) {
    (op.Reread? || op.TryWrite?) && op.goal.ParkAtCritic?
  }

  /**
   In every interleaving: a build calls Proto again only after rejected rounds within the budget, is parked for a human
   exactly when its last round was not approved and was critical, had to be resolved or was the last of the budget, and
   goes on to the README and to Trace only after an approved round.
   */
  lemma RoundsDecide(env: Env, spec: Option<Spec>, base: Option<Files>, delivery: Option<Delivery>, cs: seq<Choice>, i: nat)
    requires |env.seed| <= CHAT_TURNS_MAX && i < |Run(env, Start(env, spec, base, delivery), cs).ops|
    ensures var s0 := Start(env, spec, base, delivery);
      var op, rounds := Run(env, s0, cs).ops[i], PastOf(env, s0, cs, i).rounds;
      && (op.Produce? ==> |rounds| <= env.iterateBudget && AllRejected(env, rounds))
      && (DriverAt(op).Some? && DriverAt(op).value.Runner? ==>
            if IsParking(op) then EndedParked(env, rounds) else EndedApproved(env, rounds))
  {
    RunCode(env, spec, base, delivery, cs);
  }
}
