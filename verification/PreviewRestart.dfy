/** What one restart after a `done` achieves: when it leaves a fresh preview, and how dones during a job coalesce. */
module PreviewRestart {
  import opened Wrappers
  import opened Session
  import P = PreviewRegistry
  import opened PreviewCap
  import opened PreviewLeak
  import opened PreviewCoordinator
  import opened PreviewFresh

  lemma RunSnoc(env: Env, cs: seq<Choice>, c: Choice)
    ensures RunFrom(env, cs + [c]) == Next(env, RunFrom(env, cs), c)
  {
    assert (cs + [c])[..|cs|] == cs;
  }

  lemma RunLast(env: Env, pre: seq<Choice>, seg: seq<Choice>)
    requires |seg| > 0
    ensures RunFrom(env, pre + seg) == Next(env, RunFrom(env, pre + seg[..|seg| - 1]), seg[|seg| - 1])
  {
    assert pre + seg == pre + seg[..|seg| - 1] + [seg[|seg| - 1]];
    RunSnoc(env, pre + seg[..|seg| - 1], seg[|seg| - 1]);
  }

  // ----- dones during a job

  lemma StepKeepsJob(env: Env, s: Sys, x: SessionId, ok: bool, id: SessionId)
    requires id in s.jobs && x in s.jobs
    ensures id in JobStep(env, s, x, ok).jobs && JobStep(env, s, x, ok).pending == s.pending
  {
    match s.jobs[x]
    case Materializing(_, _, _) =>
      if ok {
        BootKeepsJob(env, s, x, id);
      }
    case _ =>
  }

  lemma BootKeepsJob(env: Env, s: Sys, x: SessionId, id: SessionId)
    requires id in s.jobs && x in s.jobs && s.jobs[x].Materializing?
    ensures id in JobStep(env, s, x, true).jobs && JobStep(env, s, x, true).pending == s.pending
  {
    var s' := JobStep(env, s, x, true);
    assert s'.jobs == s.jobs[x := Booting(|s.reg.launches|)];
  }

  /** A restart only sets its own session's job. */
  lemma RestartEffect(s: Sys, x: SessionId)
    ensures var s' := Restart(s, x);
      x in s'.jobs && s' == s.(jobs := s.jobs[x := s'.jobs[x]])
  {
  }

  lemma FinishKeepsJob(s: Sys, x: SessionId, id: SessionId)
    requires id in s.jobs && x in s.jobs && x != id
    ensures id in Finish(s, x).jobs && (id in Finish(s, x).pending <==> id in s.pending)
  {
    RestartEffect(s.(jobs := s.jobs - {x}, pending := s.pending - {x}), x);
  }

  lemma DoneKeepsJob(env: Env, s: Sys, x: SessionId, id: SessionId)
    requires id in s.jobs
    ensures id in OnDone(env, s, x).jobs && (id in OnDone(env, s, x).pending <==> id in s.pending || x == id)
  {
  }

  /** Until its own `finally` runs, a session keeps its job, and only its own `done` makes it owe a restart. */
  lemma NextKeepsJob(env: Env, s: Sys, ch: Choice, id: SessionId)
    requires id in s.jobs && ch != Settle(id)
    ensures var s' := Next(env, s, ch); id in s'.jobs && (id in s'.pending <==> id in s.pending || ch == DoneTap(id))
  {
    match ch
    case StoreCode(_, _) =>
    case Start(_) =>
    case DoneTap(x) => DoneKeepsJob(env, s, x, id);
    case Step(x, ok) => if x in s.jobs { StepKeepsJob(env, s, x, ok, id); }
    case Settle(x) => if x in s.jobs && s.jobs[x] == Settled { FinishKeepsJob(s, x, id); }
    case Stop(_) =>
    case Resume(_, _) =>
    case Exit(_) =>
    case BootVerify(_, _) =>
  }

  lemma {:induction false} PendingIffDone(env: Env, pre: seq<Choice>, seg: seq<Choice>, id: SessionId)
    requires id in RunFrom(env, pre).jobs && Settle(id) !in seg
    ensures var s := RunFrom(env, pre + seg);
      id in s.jobs && (id in s.pending <==> id in RunFrom(env, pre).pending || DoneTap(id) in seg)
  {
    if |seg| == 0 {
      assert pre + seg == pre;
    } else {
      var init, last := seg[..|seg| - 1], seg[|seg| - 1];
      assert seg == init + [last];
      PendingIffDone(env, pre, init, id);
      RunLast(env, pre, seg);
      NextKeepsJob(env, RunFrom(env, pre + init), last, id);
    }
  }

  /**
   Any stretch of a run during which a session's job is in flight, with whatever steps of any session in between: the
   `finally` of the job starts exactly one restart if at least one `done` of the session landed in the stretch, however
   many did, and none if none landed. Either way nothing stays owed.
   */
  lemma DonesCoalesce(env: Env, pre: seq<Choice>, seg: seq<Choice>, id: SessionId)
    requires id in RunFrom(env, pre).jobs && id !in RunFrom(env, pre).pending && Settle(id) !in seg
    requires id in RunFrom(env, pre + seg).jobs && RunFrom(env, pre + seg).jobs[id] == Settled
    ensures var s, s' := RunFrom(env, pre + seg), RunFrom(env, pre + seg + [Settle(id)]);
      var freed := s.(jobs := s.jobs - {id}, pending := s.pending - {id});
      && s' == (if DoneTap(id) in seg then Restart(freed, id) else freed)
      && id !in s'.pending && (id in s'.jobs <==> DoneTap(id) in seg)
  {
    PendingIffDone(env, pre, seg, id);
    RunSnoc(env, pre + seg, Settle(id));
    var s := RunFrom(env, pre + seg);
    RestartEffect(s.(jobs := s.jobs - {id}, pending := s.pending - {id}), id);
  }

  // ----- the exact condition for one restart

  /** The awaited call of the session's job fails, or finds no code. */
  predicate Fails(env: Env, s: Sys, ch: Choice, id: SessionId) {
    ch.Step? && ch.id == id && id in s.jobs
    && match s.jobs[id]
       case Reading(_) => !ch.ok || Current(s, id) == []
       case Comparing(_) => !ch.ok
       case Materializing(_, _, _) => !ch.ok
       case _ => false
  }

  predicate FailsDuring(env: Env, pre: seq<Choice>, seg: seq<Choice>, id: SessionId) {
    |seg| > 0
    && (var init, last := seg[..|seg| - 1], seg[|seg| - 1];
        FailsDuring(env, pre, init, id) || Fails(env, RunFrom(env, pre + init), last, id))
  }

  /** Some store version current at or after the last `done` has this digest. */
  ghost predicate HadDigestSince(env: Env, s: Sys, id: SessionId, d: string) {
    exists v: nat :: HasDigest(env, s, id, v, d)
  }

  ghost predicate HasDigest(env: Env, s: Sys, id: SessionId, v: nat, d: string) {
    DoneAt(s, id) <= v && 1 <= v <= |Versions(s, id)| && env.digestFiles(Versions(s, id)[v - 1]) == d
  }

  ghost predicate StillOld(s: Sys, id: SessionId, d: string) {
    IsReady(s.reg, id) ==> s.reg.entries[id].digest == Some(d)
  }

  /** A restart under way from an entry with digest `d`; once a call failed it only waits for its `finally`. */
  ghost predicate Restarting(s: Sys, id: SessionId, d: string, failed: bool) {
    && id in s.jobs && id !in s.pending
    && (failed ==> s.jobs[id] == Settled)
    && (if !failed && (s.jobs[id].Booting? || s.jobs[id].Settled?) then id !in s.missed else StillOld(s, id, d))
  }

  lemma ElsewhereRestarting(s: Sys, s': Sys, id: SessionId, d: string, failed: bool)
    requires Restarting(s, id, d, failed) && SameSession(s, s', id) && ReadyKept(s.reg, s'.reg, id)
    ensures Restarting(s', id, d, failed)
  {
  }

  lemma OwnStepRestarting(env: Env, s: Sys, ok: bool, id: SessionId, d: string, failed: bool)
    requires Restarting(s, id, d, failed)
    ensures Restarting(JobStep(env, s, id, ok), id, d, failed || Fails(env, s, Step(id, ok), id))
  {
  }

  lemma StepRestarting(env: Env, s: Sys, x: SessionId, ok: bool, id: SessionId, d: string, failed: bool)
    requires FreshInv(env, s) && Restarting(s, id, d, failed) && x in s.jobs
    ensures Restarting(JobStep(env, s, x, ok), id, d, failed || Fails(env, s, Step(x, ok), id))
  {
    if x == id {
      OwnStepRestarting(env, s, ok, id, d, failed);
    } else if s.jobs[x].Materializing? && ok {
      BootElsewhere(env, s, x, id);
      ElsewhereRestarting(s, JobStep(env, s, x, ok), id, d, failed);
    } else {
      JobStepFrame(env, s, x, ok, id);
      ElsewhereRestarting(s, JobStep(env, s, x, ok), id, d, failed);
    }
  }

  lemma ResumeRestarting(env: Env, s: Sys, l: nat, w: P.Outcome, id: SessionId, d: string, failed: bool)
    requires FreshInv(env, s) && !P.IsVerify(id) && Restarting(s, id, d, failed)
    ensures Restarting(Next(env, s, Resume(l, w)), id, d, failed)
  {
    if l < |s.reg.launches| {
      ResumeReady(env.max, s.reg, l, w, id);
      assert LaunchHasJob(s, l);
    }
  }

  lemma DoneElsewhereRestarting(env: Env, s: Sys, x: SessionId, id: SessionId, d: string, failed: bool)
    requires Restarting(s, id, d, failed) && x != id
    ensures Restarting(OnDone(env, s, x), id, d, failed)
  {
    OnDoneFrame(env, s, x, id);
    ElsewhereRestarting(s, OnDone(env, s, x), id, d, failed);
  }

  lemma FinishElsewhereRestarting(s: Sys, x: SessionId, id: SessionId, d: string, failed: bool)
    requires Restarting(s, id, d, failed) && x != id && x in s.jobs
    ensures Restarting(Finish(s, x), id, d, failed)
  {
    FinishFrame(s, x, id);
    ElsewhereRestarting(s, Finish(s, x), id, d, failed);
  }

  lemma StoreRestarting(env: Env, s: Sys, x: SessionId, files: Files, id: SessionId, d: string, failed: bool)
    requires Restarting(s, id, d, failed)
    ensures Restarting(Next(env, s, StoreCode(x, files)), id, d, failed)
  {
  }

  lemma StartRestarting(env: Env, s: Sys, x: SessionId, id: SessionId, d: string, failed: bool)
    requires Restarting(s, id, d, failed)
    ensures Restarting(Next(env, s, Start(x)), id, d, failed)
  {
  }

  lemma NextRestarting(env: Env, s: Sys, ch: Choice, id: SessionId, d: string, failed: bool)
    requires FreshInv(env, s) && !P.IsVerify(id) && Restarting(s, id, d, failed)
    requires ch != DoneTap(id) && ch != Settle(id)
    ensures Restarting(Next(env, s, ch), id, d, failed || Fails(env, s, ch, id))
  {
    match ch
    case StoreCode(x, files) => StoreRestarting(env, s, x, files, id, d, failed);
    case Start(x) => StartRestarting(env, s, x, id, d, failed);
    case DoneTap(x) => DoneElsewhereRestarting(env, s, x, id, d, failed);
    case Step(x, ok) => if x in s.jobs { StepRestarting(env, s, x, ok, id, d, failed); }
    case Settle(x) => if x in s.jobs && s.jobs[x] == Settled { FinishElsewhereRestarting(s, x, id, d, failed); }
    case Stop(x) => StopReady(s.reg, x, id);
    case Resume(l, w) => ResumeRestarting(env, s, l, w, id, d, failed);
    case Exit(l) => if l < |s.reg.launches| { ExitReady(s.reg, l, id); }
    case BootVerify(x, _) => StopReady(s.reg, x, id);
  }

  lemma {:induction false} SegmentRestarting(env: Env, pre: seq<Choice>, seg: seq<Choice>, id: SessionId, d: string)
    requires !P.IsVerify(id) && Restarting(RunFrom(env, pre), id, d, false)
    requires DoneTap(id) !in seg && Settle(id) !in seg
    ensures Restarting(RunFrom(env, pre + seg), id, d, FailsDuring(env, pre, seg, id))
  {
    if |seg| == 0 {
      assert pre + seg == pre;
    } else {
      var init, last := seg[..|seg| - 1], seg[|seg| - 1];
      assert seg == init + [last];
      SegmentRestarting(env, pre, init, id, d);
      RunFresh(env, pre + init);
      RunLast(env, pre, seg);
      NextRestarting(env, RunFrom(env, pre + init), last, id, d, FailsDuring(env, pre, init, id));
    }
  }

  /**
   How restarts begin: a `done` for an idle, ready session starts the digest comparison at once; one that landed during
   a job starts it when that job settles. Nothing is pending then.
   */
  lemma DoneBeginsRestart(env: Env, cs: seq<Choice>, id: SessionId)
    requires !P.IsVerify(id) && IsReady(RunFrom(env, cs).reg, id)
    requires var s := RunFrom(env, cs); id !in s.jobs || (s.jobs[id] == Settled && id in s.pending)
    ensures var s := RunFrom(env, cs);
      var s' := RunFrom(env, cs + [if id in s.jobs then Settle(id) else DoneTap(id)]);
      && s.reg.entries[id].digest.Some? && s'.reg == s.reg
      && id in s'.jobs && s'.jobs[id] == Comparing(s.reg.entries[id].digest.value) && id !in s'.pending
  {
    var s := RunFrom(env, cs);
    RunFresh(env, cs);
    assert FreshOk(env, s, id);
    RunSnoc(env, cs, if id in s.jobs then Settle(id) else DoneTap(id));
  }

  /** A settled restart: fresh if nothing failed; after a failure the old entry is all there is to judge by. */
  lemma SettledFreshIff(env: Env, s: Sys, id: SessionId, d: string, failed: bool)
    requires FreshOk(env, s, id) && Restarting(s, id, d, failed) && s.jobs[id] == Settled && IsReady(s.reg, id)
    ensures Fresh(env, s, id) <==> !failed || HadDigestSince(env, s, id, d)
  {
    if failed {
      if v: nat :| HasDigest(env, s, id, v, d) {
        assert ServesVersion(env, s, id, v);
      }
      if v: nat :| ServesVersion(env, s, id, v) {
        assert HasDigest(env, s, id, v, d);
      }
    } else {
      TimelyIsFresh(env, s, id);
    }
  }

  lemma SameFreshness(env: Env, s: Sys, s': Sys, id: SessionId, d: string)
    requires s'.reg == s.reg && s'.codes == s.codes && s'.dones == s.dones
    ensures Fresh(env, s', id) <==> Fresh(env, s, id)
    ensures HadDigestSince(env, s', id, d) <==> HadDigestSince(env, s, id, d)
  {
    assert forall v: nat :: ServesVersion(env, s', id, v) <==> ServesVersion(env, s, id, v);
    assert forall v: nat :: HasDigest(env, s', id, v, d) <==> HasDigest(env, s, id, v, d);
  }

  /**
   A restart that compares against the live entry's digest `d` with nothing pending, and any steps of any session until
   it has settled, no further `done` of this one among them: the session, if still `ready`, ends fresh exactly when every
   read and materialization of the restart succeeded with code to serve, or some store version since the last `done` has
   digest `d`.
   */
  lemma RestartEndsFreshIff(env: Env, pre: seq<Choice>, seg: seq<Choice>, id: SessionId, d: string)
    requires var s := RunFrom(env, pre);
      !P.IsVerify(id) && id in s.jobs && s.jobs[id] == Comparing(d) && id !in s.pending
    requires DoneTap(id) !in seg && Settle(id) !in seg
    requires var s := RunFrom(env, pre + seg);
      id in s.jobs && s.jobs[id] == Settled && IsReady(s.reg, id)
    ensures var s := RunFrom(env, pre + seg + [Settle(id)]);
      && id !in s.jobs && IsReady(s.reg, id)
      && (Fresh(env, s, id) <==> !FailsDuring(env, pre, seg, id) || HadDigestSince(env, s, id, d))
  {
    var s := RunFrom(env, pre + seg);
    RunFresh(env, pre);
    assert FreshOk(env, RunFrom(env, pre), id);
    SegmentRestarting(env, pre, seg, id, d);
    RunFresh(env, pre + seg);
    assert FreshOk(env, s, id);
    SettledFreshIff(env, s, id, d, FailsDuring(env, pre, seg, id));
    RunSnoc(env, pre + seg, Settle(id));
    SameFreshness(env, s, Next(env, s, Settle(id)), id, d);
  }

  // ----- reachable stale previews

  lemma RunTwo(env: Env, cs: seq<Choice>, a: Choice, b: Choice)
    ensures RunFrom(env, cs + [a, b]) == Next(env, Next(env, RunFrom(env, cs), a), b)
  {
    RunSnoc(env, cs, a);
    RunSnoc(env, cs + [a], b);
    assert cs + [a, b] == cs + [a] + [b];
  }

  /** The registry with one static preview, ready with this digest. */
  function StaticReady(d: string): P.Reg {
    P.Reg(map["x" := P.Entry(P.Ready, Some(P.StaticApp), None, Some(d), 0)], ["x"], map[], map["x" := 2], 2,
          [P.Launch("x", P.StaticApp, true, Some(d), Some(2), P.Finished, None, false, P.NotLaunched, false, false)])
  }

  function StaticBegun(d: string): P.Reg {
    P.Reg(map[], [], map[], map["x" := 1], 1,
          [P.Launch("x", P.StaticApp, true, Some(d), None, P.Stopping, None, false, P.NotLaunched, false, false)])
  }

  /** A user starts the preview of a static app and it becomes ready. */
  function ReadyRun(f: Files): seq<Choice> {
    [StoreCode("x", f), Start("x")] + [Step("x", true), Step("x", true)] + [Resume(0, P.Rejected), Step("x", true)] + [Settle("x")]
  }

  lemma StaticBoots(max: nat, d: string)
    ensures P.Begin(P.EMPTY, "x", P.StaticApp, true, Some(d)) == StaticBegun(d)
    ensures P.Next(max, StaticBegun(d), P.DoResume(0, P.Rejected)) == StaticReady(d)
  {
  }

  function Stored(f: Files): Sys {
    INITIAL.(codes := map["x" := [f]])
  }

  function Booted(env: Env, f: Files): Sys {
    Stored(f).(reg := StaticBegun(env.digestFiles(f)), jobs := map["x" := Job.Booting(0)], confirmed := map["x" := 1],
               served := map[0 := f])
  }

  function Readied(env: Env, f: Files): Sys {
    Stored(f).(reg := StaticReady(env.digestFiles(f)), confirmed := map["x" := 1], served := map[0 := f])
  }

  lemma StoresAndStarts(env: Env, f: Files)
    ensures Next(env, Next(env, INITIAL, StoreCode("x", f)), Start("x")) == WithJob(Stored(f), "x", Reading(true))
  {
    assert [] + [f] == [f];
  }

  lemma ReadsAndBoots(env: Env, f: Files)
    requires f != [] && env.detect(f) == P.StaticApp
    ensures var s := WithJob(Stored(f), "x", Reading(true));
      Next(env, Next(env, s, Step("x", true)), Step("x", true)) == Booted(env, f)
  {
    var s := WithJob(Stored(f), "x", Reading(true));
    assert Next(env, s, Step("x", true)) == WithJob(Stored(f), "x", Materializing(f, 1, true));
    StaticBoots(env.max, env.digestFiles(f));
  }

  lemma BootsAndSettles(env: Env, f: Files)
    ensures var s := Booted(env, f);
      Next(env, Next(env, s, Resume(0, P.Rejected)), Step("x", true)) == WithJob(Readied(env, f), "x", Settled)
  {
    StaticBoots(env.max, env.digestFiles(f));
  }

  lemma ReadyRunEnds(env: Env, f: Files)
    requires f != [] && env.detect(f) == P.StaticApp
    ensures RunFrom(env, ReadyRun(f)) == Readied(env, f)
  {
    var c2 := [StoreCode("x", f), Start("x")];
    var c4 := c2 + [Step("x", true), Step("x", true)];
    var c6 := c4 + [Resume(0, P.Rejected), Step("x", true)];
    assert [] + c2 == c2;
    RunTwo(env, [], StoreCode("x", f), Start("x"));
    StoresAndStarts(env, f);
    RunTwo(env, c2, Step("x", true), Step("x", true));
    ReadsAndBoots(env, f);
    RunTwo(env, c4, Resume(0, P.Rejected), Step("x", true));
    BootsAndSettles(env, f);
    RunSnoc(env, c6, Settle("x"));
    SettlesToIdle(env, Readied(env, f), {});
  }

  lemma SettlesToIdle(env: Env, s: Sys, missed: set<SessionId>)
    requires s.jobs == map[] && s.pending == {}
    ensures Next(env, WithJob(s, "x", Settled).(missed := missed), Settle("x")) == s.(missed := missed)
  {
  }

  /** A `done` for new code whose read fails, and one for code that has become empty. */
  function FailedReadRun(f: Files, g: Files): seq<Choice> {
    ReadyRun(f) + [StoreCode("x", g), DoneTap("x")] + [Step("x", false), Settle("x")]
  }

  function EmptyCodeRun(f: Files): seq<Choice> {
    ReadyRun(f) + [StoreCode("x", []), DoneTap("x")] + [Step("x", true), Step("x", true)] + [Settle("x")]
  }

  /** The state after the `done` for the second version. */
  function DoneState(env: Env, f: Files, g: Files): Sys {
    Readied(env, f).(codes := map["x" := [f, g]], dones := map["x" := 2])
  }

  lemma DoneForNewCode(env: Env, f: Files, g: Files)
    requires f != [] && env.detect(f) == P.StaticApp
    ensures RunFrom(env, ReadyRun(f) + [StoreCode("x", g), DoneTap("x")]) ==
            WithJob(DoneState(env, f, g), "x", Comparing(env.digestFiles(f)))
  {
    ReadyRunEnds(env, f);
    RunTwo(env, ReadyRun(f), StoreCode("x", g), DoneTap("x"));
    StoresAndTaps(env, f, g);
  }

  lemma StoresAndTaps(env: Env, f: Files, g: Files)
    ensures Next(env, Next(env, Readied(env, f), StoreCode("x", g)), DoneTap("x")) ==
            WithJob(DoneState(env, f, g), "x", Comparing(env.digestFiles(f)))
  {
    assert [f] + [g] == [f, g];
  }

  lemma OnlyTheSecondVersionCounts(env: Env, f: Files, g: Files, s: Sys)
    requires env.digestFiles(f) != env.digestFiles(g)
    requires s == DoneState(env, f, g).(missed := {"x"})
    ensures IsReady(s.reg, "x") && "x" !in s.jobs && !Fresh(env, s, "x")
  {
    forall v: nat ensures !ServesVersion(env, s, "x", v) {
      assert v == 2 ==> Versions(s, "x")[v - 1] == g;
    }
  }

  /** After one failed read the session is idle and `ready`, and no version since the `done` has the entry's digest. */
  lemma FailedReadLeavesStalePreview(env: Env, f: Files, g: Files)
    requires f != [] && env.detect(f) == P.StaticApp && env.digestFiles(f) != env.digestFiles(g)
    ensures var s := RunFrom(env, FailedReadRun(f, g)); IsReady(s.reg, "x") && "x" !in s.jobs && !Fresh(env, s, "x")
  {
    var c, s := ReadyRun(f) + [StoreCode("x", g), DoneTap("x")], DoneState(env, f, g);
    DoneForNewCode(env, f, g);
    RunTwo(env, c, Step("x", false), Settle("x"));
    SettlesToIdle(env, s, {"x"});
    OnlyTheSecondVersionCounts(env, f, g, s.(missed := {"x"}));
  }

  lemma FindsNoCode(env: Env, f: Files)
    requires env.digestFiles(f) != env.digestFiles([])
    ensures var s := WithJob(DoneState(env, f, []), "x", Comparing(env.digestFiles(f)));
      Next(env, Next(env, s, Step("x", true)), Step("x", true)) == WithJob(DoneState(env, f, []), "x", Settled).(missed := {"x"})
  {
    var s := WithJob(DoneState(env, f, []), "x", Comparing(env.digestFiles(f)));
    assert Next(env, s, Step("x", true)) == WithJob(DoneState(env, f, []), "x", Reading(false));
  }

  /** Nothing need fail: a `done` for code that has become empty leaves the old preview `ready` as well. */
  lemma RestartWithoutCodeKeepsStaleEntry(env: Env, f: Files)
    requires f != [] && env.detect(f) == P.StaticApp && env.digestFiles(f) != env.digestFiles([])
    ensures var s := RunFrom(env, EmptyCodeRun(f)); IsReady(s.reg, "x") && "x" !in s.jobs && !Fresh(env, s, "x")
  {
    var c, s := ReadyRun(f) + [StoreCode("x", []), DoneTap("x")], DoneState(env, f, []);
    DoneForNewCode(env, f, []);
    RunTwo(env, c, Step("x", true), Step("x", true));
    FindsNoCode(env, f);
    RunSnoc(env, c + [Step("x", true), Step("x", true)], Settle("x"));
    SettlesToIdle(env, s, {"x"});
    OnlyTheSecondVersionCounts(env, f, [], s.(missed := {"x"}));
  }
}
