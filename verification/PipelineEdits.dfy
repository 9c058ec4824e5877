/** Edit mode in every interleaving: what the stored and the pushed code keep of the base application. */
module PipelineEdits {
  import opened Wrappers
  import opened Session
  import opened MergeFiles
  import opened Pipeline
  import opened PipelineSafety

  /** A base file: its path and content, and whether nobody emits that path during the run. */
  datatype BaseFile = BaseFile(path: string, content: string, untouched: bool)

  ghost predicate Kept(b: BaseFile, files: Files) {
    Lookup(files, b.path).Some? && (b.untouched ==> Lookup(files, b.path) == Some(b.content))
  }

  /** Neither Proto nor the README writer emits the path. */
  predicate EmitsNot(o: Oracle, path: string) {
    Lookup(o.files, path).None? && (o.docs.Some? ==> o.docs.value.filePath != path)
  }

  predicate Spares(c: Choice, path: string) {
    c.Act? ==> EmitsNot(c.o, path)
  }

  lemma MergeKeeps(b: BaseFile, files: Files, emitted: Files)
    requires Kept(b, files) && (b.untouched ==> Lookup(emitted, b.path).None?)
    ensures Kept(b, Merge(files, emitted)) && |files| > 0
  {
    MergeIsOverride(files, emitted, b.path);
  }

  /** In these statuses a code has been stored. */
  predicate HasCodeStatus(row: Row) {
    || row.status in {VerifyFailed, AwaitingPushConfirm, PushFailed, Status.Done}
    || (row.status == AwaitingCriticResolution && row.approval.Some?)
  }

  ghost predicate RowEdits(b: BaseFile, row: Row) {
    && Kept(b, row.base.GetOr([]))
    && (row.code.Some? ==> Kept(b, row.code.value))
    && (HasCodeStatus(row) ==> row.code.Some?)
  }

  ghost predicate GoalEdits(b: BaseFile, row: Row, g: Goal) {
    match g
    case SaveCode(files) => Kept(b, files)
    case ParkAtCritic(files) => Kept(b, files)
    case SaveDocs(files) => Kept(b, files)
    case _ => row.code.Some?
  }

  ghost predicate OpEdits(b: BaseFile, row: Row, op: Op) {
    match op
    case Produce(_, _, base, _) => Kept(b, base)
    case Reread(_, g, _, _) => GoalEdits(b, row, g)
    case TryWrite(_, g, _, _, _) => GoalEdits(b, row, g)
    case Docs(_, _, files) => row.code.Some? && Kept(b, files)
    case Verify(_, _, _) => row.code.Some?
    case Deliver(_, _, _, _) => row.code.Some?
    case Destination(cur) => row.code.Some? && Kept(b, CodeFiles(cur))
    case Pushing(cur, _) => row.code.Some? && Kept(b, CodeFiles(cur))
    case _ => true
  }

  ghost predicate PushedKeep(b: BaseFile, log: seq<Event>) {
    forall k :: 0 <= k < |log| && log[k].Pushed? ==> Kept(b, log[k].files)
  }

  ghost predicate EditInv(b: BaseFile, s: State) {
    RowEdits(b, s.row) && PushedKeep(b, s.log) && forall i :: 0 <= i < |s.ops| ==> OpEdits(b, s.row, s.ops[i])
  }

  lemma CommitEdits(b: BaseFile, row: Row, w: Session.Write)
    requires RowEdits(b, row)
    requires w.Generic? ==> (w.patch.code.Some? ==> Kept(b, w.patch.code.value))
    requires HasCodeStatus(Apply(row, w)) ==> Apply(row, w).code.Some?
    ensures RowEdits(b, Apply(row, w)) && (row.code.Some? ==> Apply(row, w).code.Some?)
  {
  }

  lemma PinEdits(env: Env, b: BaseFile, row: Row, log: seq<Event>, snap: Row, pin: Pin)
    requires RowEdits(b, row) && OpOk(env, row, log, Pinned(snap, pin))
    ensures var out := PinStep(env, row, snap, pin);
      RowEdits(b, out.row) && OpEdits(b, out.row, out.op) && PushedKeep(b, out.log) && (row.code.Some? ==> out.row.code.Some?)
  {
    if snap.version == row.version {
      CommitEdits(b, row, PinWrite(env, snap, pin));
    }
  }

  lemma WriteEdits(env: Env, b: BaseFile, row: Row, op: Op)
    requires RowEdits(b, row) && op.TryWrite? && OpEdits(b, row, op)
    ensures var out := WriteStep(env, row, op.who, op.goal, op.attempt, op.first, op.snap);
      RowEdits(b, out.row) && OpEdits(b, out.row, out.op) && PushedKeep(b, out.log) && (row.code.Some? ==> out.row.code.Some?)
  {
    if op.snap.version == row.version {
      CommitEdits(b, row, GoalWrite(env, op.goal));
    }
  }

  lemma BeginEdits(env: Env, b: BaseFile, row: Row, call: Call, o: Oracle, busy: bool)
    requires RowEdits(b, row)
    ensures OpEdits(b, row, BeginStep(env, row, call, o, busy))
  {
  }

  lemma ProduceEdits(env: Env, b: BaseFile, row: Row, op: Op, o: Oracle)
    requires op.Produce? && OpEdits(b, row, op) && (b.untouched ==> EmitsNot(o, b.path))
    ensures OpEdits(b, row, ProduceStep(env, op.kicked, op.session, op.base, op.attempt, row, o))
  {
    MergeKeeps(b, op.base, o.files);
  }

  lemma DocsEdits(b: BaseFile, row: Row, op: Op, o: Oracle)
    requires op.Docs? && OpEdits(b, row, op) && (b.untouched ==> EmitsNot(o, b.path))
    ensures OpEdits(b, row, DocsStep(op.who, op.session, op.files, row, o))
  {
    if o.docs.Some? {
      assert [o.docs.value][..0] == [];
      MergeKeeps(b, op.files, [o.docs.value]);
    }
  }

  lemma StepEdits(env: Env, b: BaseFile, row: Row, log: seq<Event>, op: Op, o: Oracle, busy: bool)
    requires RowEdits(b, row) && OpOk(env, row, log, op) && OpEdits(b, row, op)
    requires b.untouched ==> EmitsNot(o, b.path)
    ensures var out := OpStep(env, row, op, o, busy);
      RowEdits(b, out.row) && OpEdits(b, out.row, out.op) && PushedKeep(b, out.log) && (row.code.Some? ==> out.row.code.Some?)
  {
    match op {
      case Begin(call) => BeginEdits(env, b, row, call, o, busy);
      case Pinned(snap, pin) => PinEdits(env, b, row, log, snap, pin);
      case Produce(_, _, _, _) => ProduceEdits(env, b, row, op, o);
      case TryWrite(_, _, _, _, _) => WriteEdits(env, b, row, op);
      case Docs(_, _, _) => DocsEdits(b, row, op, o);
      case _ =>
    }
  }

  lemma NextEdits(env: Env, b: BaseFile, s: State, c: Choice)
    requires Inv(env, s) && EditInv(b, s) && (b.untouched ==> Spares(c, b.path))
    ensures EditInv(b, Next(env, s, c))
  {
    if c.Act? && c.i < |s.ops| {
      var s', out := Next(env, s, c), OpStep(env, s.row, s.ops[c.i], c.o, s.runner.Some?);
      assert OpOk(env, s.row, s.log, s.ops[c.i]) && OpEdits(b, s.row, s.ops[c.i]);
      StepEdits(env, b, s.row, s.log, s.ops[c.i], c.o, s.runner.Some?);
      forall j | 0 <= j < |s'.ops| ensures OpEdits(b, s'.row, s'.ops[j]) {
        assert j != c.i ==> OpEdits(b, s.row, s.ops[j]);
      }
      forall k | 0 <= k < |s'.log| && s'.log[k].Pushed? ensures Kept(b, s'.log[k].files) {
        assert k >= |s.log| ==> s'.log[k] == out.log[k - |s.log|];
      }
    }
  }

  lemma {:induction false} RunEdits(env: Env, b: BaseFile, s: State, cs: seq<Choice>)
    requires Inv(env, s) && EditInv(b, s)
    requires b.untouched ==> forall i :: 0 <= i < |cs| ==> Spares(cs[i], b.path)
    ensures EditInv(b, Run(env, s, cs))
    decreases |cs|
  {
    if |cs| > 0 {
      NextKeeps(env, s, cs[0]);
      NextEdits(env, b, s, cs[0]);
      RunEdits(env, b, Next(env, s, cs[0]), cs[1..]);
    }
  }

  /**
   In every interleaving of drivers, chat, ledger and cancels, over any number of edit rounds and README merges: the
   stored code and every pushed file set keep each path of the base, and a base file whose path nobody emits keeps its
   content.
   */
  lemma EditsKeepTheBase(env: Env, spec: Option<Spec>, base: Files, delivery: Option<Delivery>, cs: seq<Choice>, path: string)
    requires |env.seed| <= CHAT_TURNS_MAX && HasPath(base, path)
    ensures var s := Run(env, Start(env, spec, Some(base), delivery), cs);
      && (s.row.code.Some? ==> HasPath(s.row.code.value, path))
      && (forall k :: 0 <= k < |s.log| && s.log[k].Pushed? ==> HasPath(s.log[k].files, path))
      && ((forall i :: 0 <= i < |cs| ==> Spares(cs[i], path)) ==>
            && (s.row.code.Some? ==> Lookup(s.row.code.value, path) == Lookup(base, path))
            && forall k :: 0 <= k < |s.log| && s.log[k].Pushed? ==> Lookup(s.log[k].files, path) == Lookup(base, path))
  {
    LookupHasPath(base, path);
    var untouched := forall i :: 0 <= i < |cs| ==> Spares(cs[i], path);
    var b := BaseFile(path, Lookup(base, path).value, untouched);
    var s0 := Start(env, spec, Some(base), delivery);
    StartOk(env, spec, Some(base), delivery);
    RunEdits(env, b, s0, cs);
    var s := Run(env, s0, cs);
    if s.row.code.Some? {
      LookupHasPath(s.row.code.value, path);
    }
    forall k | 0 <= k < |s.log| && s.log[k].Pushed? ensures HasPath(s.log[k].files, path) {
      LookupHasPath(s.log[k].files, path);
    }
  }
}
