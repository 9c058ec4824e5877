/** What the coordinator achieves when nobody interferes, and whom a `done` may never disturb. */
module PreviewServe {
  import opened Wrappers
  import opened Session
  import P = PreviewRegistry
  import opened PreviewCap
  import opened PreviewLeak
  import opened PreviewPolicy
  import opened PreviewBoot
  import opened PreviewCoordinator
  import opened PreviewFresh

  // ----- a session that no user starts never evicts

  lemma BeginPolicy(r: P.Reg, id: SessionId, typ: P.AppType, mayEvict: bool, digest: Option<string>)
    requires PolicyInv(r)
    ensures PolicyInv(P.Begin(r, id, typ, mayEvict, digest))
  {
    StopSpares(r, id);
  }

  lemma NextKeepsPolicy(env: Env, s: Sys, ch: Choice)
    requires PolicyInv(s.reg)
    ensures PolicyInv(Next(env, s, ch).reg)
  {
    match ch
    case Step(id, ok) => if id in s.jobs { StepKeepsPolicy(env, s, id, ok); }
    case Stop(id) => StopSpares(s.reg, id);
    case Resume(l, w) => NextPolicy(env.max, s.reg, P.DoResume(l, w));
    case Exit(l) => NextPolicy(env.max, s.reg, P.DoExit(l));
    case BootVerify(id, typ) => BeginPolicy(s.reg, id, typ, true, None);
    case _ => QuietKeepsPolicy(env, s, ch);
  }

  lemma StepKeepsPolicy(env: Env, s: Sys, id: SessionId, ok: bool)
    requires PolicyInv(s.reg) && id in s.jobs
    ensures PolicyInv(JobStep(env, s, id, ok).reg)
  {
    if s.jobs[id].Materializing? && ok {
      var j := s.jobs[id];
      BeginPolicy(s.reg, id, env.detect(j.files), j.mayEvict, Some(env.digestFiles(j.files)));
    }
  }

  lemma QuietKeepsPolicy(env: Env, s: Sys, ch: Choice)
    requires ch.StoreCode? || ch.Start? || ch.DoneTap? || ch.Settle?
    ensures Next(env, s, ch).reg == s.reg
  {
  }

  lemma {:induction false} RunKeepsPolicy(env: Env, cs: seq<Choice>)
    ensures PolicyInv(RunFrom(env, cs).reg)
  {
    if |cs| > 0 {
      RunKeepsPolicy(env, cs[..|cs| - 1]);
      NextKeepsPolicy(env, RunFrom(env, cs[..|cs| - 1]), cs[|cs| - 1]);
    }
  }

  /** Neither the job nor any launch of the session may evict. */
  ghost predicate Background(s: Sys, id: SessionId) {
    && (id in s.jobs && (s.jobs[id].Reading? || s.jobs[id].Materializing?) ==> !s.jobs[id].mayEvict)
    && forall l :: 0 <= l < |s.reg.launches| && s.reg.launches[l].sid == id ==> !s.reg.launches[l].mayEvict
  }

  /** Launches keep their sessions and policies. */
  ghost predicate SamePolicies(r: P.Reg, r': P.Reg) {
    && |r'.launches| == |r.launches|
    && forall l :: 0 <= l < |r.launches| ==>
         r'.launches[l].sid == r.launches[l].sid && r'.launches[l].mayEvict == r.launches[l].mayEvict
  }

  lemma StopPolicies(r: P.Reg, id: SessionId)
    ensures SamePolicies(r, P.Stop(r, id))
  {
    StopEffect(r, id);
    forall l | 0 <= l < |r.launches| ensures SameCore(r.launches[l], P.Stop(r, id).launches[l]) {
      assert StoppedLaunch(r, id, l, P.Stop(r, id).launches[l]);
    }
  }

  lemma ExitPolicies(r: P.Reg, l: nat)
    requires l < |r.launches|
    ensures SamePolicies(r, P.Exit(r, l))
  {
  }

  lemma ResumePolicies(max: nat, r: P.Reg, l: nat, w: P.Outcome)
    requires l < |r.launches|
    ensures SamePolicies(r, P.Resume(max, r, l, w))
  {
    if !Evicts(max, r, l) {
      ResumeIsOwn(max, r, l, w);
    } else if r.launches[l].pc == P.Stopping {
      assert P.Mint(r, l).entries == r.entries;
      EvictPolicies(max, P.Mint(r, l), l);
    } else {
      EvictPolicies(max, r, l);
    }
  }

  lemma EvictPolicies(max: nat, r: P.Reg, l: nat)
    requires l < |r.launches|
    ensures SamePolicies(r, P.EvictTop(max, r, l))
  {
    if P.Oldest(r.order, r.entries).Some? {
      StopPolicies(r, P.Oldest(r.order, r.entries).value);
    }
  }

  lemma SameBackground(s: Sys, r': P.Reg, id: SessionId)
    requires Background(s, id) && SamePolicies(s.reg, r')
    ensures Background(s.(reg := r'), id)
  {
  }

  lemma BootBackground(env: Env, s: Sys, x: SessionId, id: SessionId)
    requires Background(s, id) && x in s.jobs && s.jobs[x].Materializing?
    ensures Background(JobStep(env, s, x, true), id)
  {
    StopPolicies(s.reg, x);
  }

  lemma JobStaysBackground(env: Env, s: Sys, id: SessionId, ok: bool)
    requires Background(s, id) && id in s.jobs && !(s.jobs[id].Materializing? && ok)
    ensures var s' := JobStep(env, s, id, ok);
      && s'.reg == s.reg
      && (id in s'.jobs && (s'.jobs[id].Reading? || s'.jobs[id].Materializing?) ==> !s'.jobs[id].mayEvict)
  {
    match s.jobs[id]
    case Reading(_) =>
    case Comparing(_) =>
    case _ =>
  }

  lemma QuietBackground(s: Sys, s': Sys, id: SessionId)
    requires Background(s, id) && s'.reg == s.reg
    requires id in s'.jobs && (s'.jobs[id].Reading? || s'.jobs[id].Materializing?) ==> !s'.jobs[id].mayEvict
    ensures Background(s', id)
  {
  }

  lemma StepBackground(env: Env, s: Sys, x: SessionId, ok: bool, id: SessionId)
    requires Background(s, id) && x in s.jobs
    ensures Background(JobStep(env, s, x, ok), id)
  {
    if s.jobs[x].Materializing? && ok {
      BootBackground(env, s, x, id);
    } else {
      if x == id {
        JobStaysBackground(env, s, id, ok);
      } else {
        JobStepFrame(env, s, x, ok, id);
      }
      QuietBackground(s, JobStep(env, s, x, ok), id);
    }
  }

  lemma NextBackground(env: Env, s: Sys, ch: Choice, id: SessionId)
    requires !P.IsVerify(id) && Background(s, id) && ch != Start(id)
    ensures Background(Next(env, s, ch), id)
  {
    match ch
    case StoreCode(_, _) =>
    case Start(x) => OtherStartBackground(env, s, x, id);
    case DoneTap(x) => DoneBackground(env, s, x, id);
    case Step(x, ok) => if x in s.jobs { StepBackground(env, s, x, ok, id); }
    case Settle(x) => if x in s.jobs && s.jobs[x] == Settled { FinishBackground(s, x, id); }
    case _ => RegistryBackground(env, s, ch, id);
  }

  lemma OtherStartBackground(env: Env, s: Sys, x: SessionId, id: SessionId)
    requires Background(s, id) && x != id
    ensures Background(UserStart(s, x), id)
  {
  }

  lemma DoneBackground(env: Env, s: Sys, x: SessionId, id: SessionId)
    requires Background(s, id)
    ensures Background(OnDone(env, s, x), id)
  {
  }

  lemma FinishBackground(s: Sys, x: SessionId, id: SessionId)
    requires Background(s, id) && x in s.jobs
    ensures Background(Finish(s, x), id)
  {
  }

  lemma RegistryBackground(env: Env, s: Sys, ch: Choice, id: SessionId)
    requires !P.IsVerify(id) && Background(s, id) && (ch.Stop? || ch.Resume? || ch.Exit? || ch.BootVerify?)
    ensures Background(Next(env, s, ch), id)
  {
    match ch
    case Stop(x) =>
      StopPolicies(s.reg, x);
      SameBackground(s, P.Stop(s.reg, x), id);
    case Resume(l, w) =>
      if l < |s.reg.launches| {
        ResumePolicies(env.max, s.reg, l, w);
        SameBackground(s, P.Resume(env.max, s.reg, l, w), id);
      }
    case Exit(l) =>
      if l < |s.reg.launches| {
        ExitPolicies(s.reg, l);
        SameBackground(s, P.Exit(s.reg, l), id);
      }
    case BootVerify(x, _) => StopPolicies(s.reg, x);
  }

  lemma {:induction false} RunBackground(env: Env, cs: seq<Choice>, id: SessionId)
    requires !P.IsVerify(id) && Start(id) !in cs
    ensures Background(RunFrom(env, cs), id)
  {
    if |cs| > 0 {
      RunBackground(env, cs[..|cs| - 1], id);
      NextBackground(env, RunFrom(env, cs[..|cs| - 1]), cs[|cs| - 1], id);
    }
  }

  /**
   A session that only `done` taps ever started, in any run of the whole system: none of its launches, at any step,
   changes another session's entry, tracked process or token, or touches another session's launch, released ports aside.
   */
  lemma DonesNeverDisturbOthers(env: Env, cs: seq<Choice>, id: SessionId, l: nat, w: P.Outcome)
    requires !P.IsVerify(id) && Start(id) !in cs
    requires l < |RunFrom(env, cs).reg.launches| && RunFrom(env, cs).reg.launches[l].sid == id
    ensures SparesOthers(RunFrom(env, cs).reg, P.Resume(env.max, RunFrom(env, cs).reg, l, w), id)
  {
    var r := RunFrom(env, cs).reg;
    RunBackground(env, cs, id);
    RunKeepsPolicy(env, cs);
    assert !Evicts(env.max, r, l);
    ResumeIsOwn(env.max, r, l, w);
    if P.Resume(env.max, r, l, w) != r {
      OwnStepSpares(r, P.Resume(env.max, r, l, w), l);
    }
  }

  // ----- what a `done` decides

  /** Of an idle session: nothing while an untracked boot runs, or without a live preview at capacity. */
  lemma DoneIsDropped(env: Env, s: Sys, id: SessionId)
    requires id !in s.jobs && !IsReady(s.reg, id)
    requires (id in s.reg.entries && s.reg.entries[id].status == P.Starting) || P.AtCapacity(env.max, s.reg)
    ensures Next(env, s, DoneTap(id)) == s.(dones := s.dones[id := |Versions(s, id)|])
  {
  }

  /** Code with the digest the preview already serves is left running: nothing is stopped, started or written. */
  lemma UnchangedCodeIsLeftRunning(env: Env, s: Sys, id: SessionId)
    requires id !in s.jobs && id !in s.pending && IsReady(s.reg, id) && Current(s, id) != []
    requires s.reg.entries[id].digest == Some(env.digestFiles(Current(s, id)))
    ensures var s1 := Next(env, s, DoneTap(id)); var s3 := Next(env, Next(env, s1, Step(id, true)), Settle(id));
      s3.reg == s.reg && s3.jobs == s.jobs && s3.pending == s.pending
  {
    var s1 := Next(env, s, DoneTap(id));
    assert s1.jobs[id] == Comparing(env.digestFiles(Current(s, id))) && s1.reg == s.reg;
    assert Versions(s1, id) == Versions(s, id);
    assert Next(env, s1, Step(id, true)).jobs[id] == Settled;
    assert s.jobs[id := Settled] - {id} == s.jobs;
  }

  // ----- a start that nobody interferes with

  /** The job of the session has materialized its code and called the registry. */
  lemma StartsBooting(env: Env, s: Sys, id: SessionId, mayEvict: bool)
    requires id in s.jobs && s.jobs[id] == Reading(mayEvict) && Current(s, id) != []
    ensures var files, l := Current(s, id), |s.reg.launches|;
      var s' := Next(env, Next(env, s, Step(id, true)), Step(id, true));
      && s'.reg == P.Begin(s.reg, id, env.detect(files), mayEvict, Some(env.digestFiles(files)))
      && s'.jobs == s.jobs[id := Job.Booting(l)] && s'.served == s.served[l := files] && s'.pending == s.pending
      && s'.codes == s.codes && s'.dones == s.dones
  {
    var s1 := Next(env, s, Step(id, true));
    assert s1 == WithJob(s, id, Materializing(Current(s, id), |Versions(s, id)|, mayEvict));
  }

  lemma StopMakesRoom(max: nat, r: P.Reg, id: SessionId)
    requires !P.AtCapacity(max, r)
    ensures !P.AtCapacity(max, P.Stop(r, id))
  {
    StopEffect(r, id);
    HeavySubset(P.Heavy(P.Stop(r, id).entries), P.Heavy(r.entries));
  }

  /** The launch at the end of the list boots through: claim, preflight, install, port, probe. */
  function BootThrough(max: nat, r: P.Reg, l: nat, port: nat): P.Reg
    requires l < |r.launches|
  {
    var o := P.Okay(port);
    var r2 := P.Resume(max, P.Resume(max, P.Resume(max, r, l, o), l, o), l, o);
    P.Resume(max, P.Resume(max, r2, l, o), l, o)
  }

  lemma BeginBoots(max: nat, r: P.Reg, id: SessionId, mayEvict: bool, digest: string, port: nat)
    requires !P.AtCapacity(max, P.Stop(r, id))
    ensures var b, l := P.Begin(r, id, P.ServedApp, mayEvict, Some(digest)), |r.launches|;
      var r' := BootThrough(max, b, l, port);
      && |r'.launches| == l + 1 && r'.launches[l].pc == P.Finished && r'.launches[l].proc == P.Running
      && id in r'.procs && r'.procs[id] == l
      && id in r'.entries && r'.entries[id] == P.Entry(P.Ready, None, Some(port), Some(digest), l)
  {
    var b, l := P.Begin(r, id, P.ServedApp, mayEvict, Some(digest)), |r.launches|;
    assert P.Heavy(b.entries) == P.Heavy(P.Stop(r, id).entries);
    ClaimsBelowTheCap(max, b, l, P.Okay(port));
    ClaimedIsFresh(max, b, l, P.Okay(port));
    BootSucceeds(max, P.Resume(max, b, l, P.Okay(port)), l, port, port);
  }

  lemma ClaimedIsFresh(max: nat, b: P.Reg, l: nat, w: P.Outcome)
    requires l < |b.launches| && b.launches[l].pc == P.Stopping && b.launches[l].typ == P.ServedApp && !P.AtCapacity(max, b)
    ensures var r := P.Resume(max, b, l, w);
      r.launches[l] == b.launches[l].(pc := P.Preflight, token := Some(b.launchSeq + 1)) && |r.launches| == |b.launches|
  {
    assert P.Mint(b, l).entries == b.entries;
  }

  /** A finished launch settles its job, and the settled job leaves. */
  lemma BootEnds(env: Env, s: Sys, id: SessionId, l: nat)
    requires id in s.jobs && s.jobs[id] == Job.Booting(l) && id !in s.pending
    requires l < |s.reg.launches| && s.reg.launches[l].pc == P.Finished
    ensures var s' := Next(env, Next(env, s, Step(id, true)), Settle(id));
      s'.reg == s.reg && s'.jobs == s.jobs - {id} && s'.served == s.served && s'.pending == s.pending
  {
    assert Next(env, s, Step(id, true)) == WithJob(s, id, Settled);
    assert s.jobs[id := Settled] - {id} == s.jobs - {id};
  }

  /** The whole way from the first read: two steps of the job, five of the launch, two of the job again. */
  function ServeThrough(env: Env, s: Sys, id: SessionId, port: nat): Sys {
    var s1 := Next(env, Next(env, s, Step(id, true)), Step(id, true));
    var l, o := |s.reg.launches|, P.Okay(port);
    var s2 := Next(env, Next(env, Next(env, s1, Resume(l, o)), Resume(l, o)), Resume(l, o));
    var s3 := Next(env, Next(env, s2, Resume(l, o)), Resume(l, o));
    Next(env, Next(env, s3, Step(id, true)), Settle(id))
  }

  lemma ResumeInReg(env: Env, s: Sys, r: P.Reg, l: nat, w: P.Outcome)
    requires l < |r.launches|
    ensures Next(env, s.(reg := r), Resume(l, w)) == s.(reg := P.Resume(env.max, r, l, w))
  {
  }

  lemma ResumesInReg(env: Env, s: Sys, l: nat, port: nat)
    requires l < |s.reg.launches|
    ensures var o := P.Okay(port);
      var s2 := Next(env, Next(env, Next(env, s, Resume(l, o)), Resume(l, o)), Resume(l, o));
      Next(env, Next(env, s2, Resume(l, o)), Resume(l, o)) == s.(reg := BootThrough(env.max, s.reg, l, port))
  {
    var max, o, r := env.max, P.Okay(port), s.reg;
    var r1 := P.Resume(max, r, l, o);
    var r2 := P.Resume(max, r1, l, o);
    var r3 := P.Resume(max, r2, l, o);
    var r4 := P.Resume(max, r3, l, o);
    ResumeInReg(env, s, r, l, o);
    ResumeInReg(env, s, r1, l, o);
    ResumeInReg(env, s, r2, l, o);
    ResumeInReg(env, s, r3, l, o);
    ResumeInReg(env, s, r4, l, o);
  }

  /** The session is served: idle, `ready` with a running process, on files with the digest of its current code. */
  ghost predicate Served(env: Env, s: Sys, id: SessionId, files: Files, port: nat) {
    && id !in s.jobs && id in s.reg.entries
    && var e := s.reg.entries[id];
       && e.status == P.Ready && e.port == Some(port) && e.digest == Some(env.digestFiles(files))
       && e.writer < |s.reg.launches| && s.reg.launches[e.writer].proc == P.Running
       && id in s.reg.procs && s.reg.procs[id] == e.writer
       && e.writer in s.served && s.served[e.writer] == files
  }

  /** From a job that is about to read, with room for it once its own preview is stopped, and with every answer good: the current code is served. */
  lemma ReadingIsServed(env: Env, s: Sys, id: SessionId, mayEvict: bool, port: nat)
    requires id in s.jobs && s.jobs[id] == Reading(mayEvict) && id !in s.pending
    requires Current(s, id) != [] && env.detect(Current(s, id)) == P.ServedApp && !P.AtCapacity(env.max, P.Stop(s.reg, id))
    ensures Served(env, ServeThrough(env, s, id, port), id, Current(s, id), port)
  {
    var files, l := Current(s, id), |s.reg.launches|;
    var s1 := Next(env, Next(env, s, Step(id, true)), Step(id, true));
    StartsBooting(env, s, id, mayEvict);
    BeginBoots(env.max, s.reg, id, mayEvict, env.digestFiles(files), port);
    ResumesInReg(env, s1, l, port);
    BootEnds(env, s1.(reg := BootThrough(env.max, s1.reg, l, port)), id, l);
  }

  /** A user's start may evict: the launch it leads to is an explicit one, even at capacity. */
  lemma UserStartMayEvict(env: Env, s: Sys, id: SessionId)
    requires id !in s.jobs && Current(s, id) != []
    ensures var s' := Next(env, Next(env, Next(env, s, Start(id)), Step(id, true)), Step(id, true));
      var l := |s.reg.launches|;
      && |s'.reg.launches| == l + 1 && s'.reg.launches[l].sid == id && s'.reg.launches[l].mayEvict
      && s'.reg.launches[l].typ == env.detect(Current(s, id)) && s'.reg.launches[l].pc == P.Stopping
  {
    StartsBooting(env, Next(env, s, Start(id)), id, true);
  }

  /** A user's start of an idle session serves its current code, if nobody interferes and every answer is good. */
  lemma UndisturbedStartServes(env: Env, s: Sys, id: SessionId, port: nat)
    requires id !in s.jobs && id !in s.pending && !P.AtCapacity(env.max, s.reg)
    requires Current(s, id) != [] && env.detect(Current(s, id)) == P.ServedApp
    ensures Served(env, ServeThrough(env, Next(env, s, Start(id)), id, port), id, Current(s, id), port)
  {
    StopMakesRoom(env.max, s.reg, id);
    ReadingIsServed(env, Next(env, s, Start(id)), id, true, port);
  }

  /** So does a `done` of an idle session without a live preview: its new code is warmed up. */
  lemma UndisturbedDoneServes(env: Env, s: Sys, id: SessionId, port: nat)
    requires id !in s.jobs && id !in s.pending && !P.AtCapacity(env.max, s.reg)
    requires id in s.reg.entries ==> s.reg.entries[id].status !in {P.Ready, P.Starting}
    requires Current(s, id) != [] && env.detect(Current(s, id)) == P.ServedApp
    ensures Served(env, ServeThrough(env, Next(env, s, DoneTap(id)), id, port), id, Current(s, id), port)
  {
    StopMakesRoom(env.max, s.reg, id);
    ReadingIsServed(env, Next(env, s, DoneTap(id)), id, false, port);
  }

  lemma OwnSlotIsFreed(max: nat, r: P.Reg, id: SessionId)
    requires max >= 1 && |P.Heavy(r.entries)| <= max && id in P.Heavy(r.entries)
    ensures !P.AtCapacity(max, P.Stop(r, id))
  {
    StopEffect(r, id);
    HeavySubset(P.Heavy(P.Stop(r, id).entries), P.Heavy(r.entries) - {id});
  }

  /**
   And a `done` of a session with a live heavy preview whose code has another digest, in any state within the cap: the
   restart takes the session's own slot, so it serves the new code even at capacity.
   */
  lemma UndisturbedRestartServes(env: Env, s: Sys, id: SessionId, port: nat)
    requires id !in s.jobs && id !in s.pending && IsReady(s.reg, id) && id in P.Heavy(s.reg.entries)
    requires env.max >= 1 && |P.Heavy(s.reg.entries)| <= env.max
    requires s.reg.entries[id].digest.Some? && s.reg.entries[id].digest != Some(env.digestFiles(Current(s, id)))
    requires Current(s, id) != [] && env.detect(Current(s, id)) == P.ServedApp
    ensures Served(env, ServeThrough(env, Next(env, Next(env, s, DoneTap(id)), Step(id, true)), id, port), id, Current(s, id), port)
  {
    OwnSlotIsFreed(env.max, s.reg, id);
    ComparesAndReads(env, s, id);
    ReadingIsServed(env, Next(env, Next(env, s, DoneTap(id)), Step(id, true)), id, false, port);
  }

  lemma ComparesAndReads(env: Env, s: Sys, id: SessionId)
    requires id !in s.jobs && id !in s.pending && IsReady(s.reg, id)
    requires s.reg.entries[id].digest.Some? && s.reg.entries[id].digest != Some(env.digestFiles(Current(s, id)))
    ensures var s2 := Next(env, Next(env, s, DoneTap(id)), Step(id, true));
      && id in s2.jobs && s2.jobs[id] == Reading(false) && s2.reg == s.reg && s2.pending == s.pending
      && Versions(s2, id) == Versions(s, id)
  {
    var s1 := Next(env, s, DoneTap(id));
    assert s1.jobs[id] == Comparing(s.reg.entries[id].digest.value) && Versions(s1, id) == Versions(s, id);
  }
}
