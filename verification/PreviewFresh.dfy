/** No stale bytes and no lost `done`: what a `ready` preview serves once its session is idle. */
module PreviewFresh {
  import opened Wrappers
  import opened Session
  import P = PreviewRegistry
  import opened PreviewCap
  import opened PreviewLeak
  import opened PreviewCoordinator

  // ----- only the launch in flight makes an entry ready

  ghost predicate ReadyKept(r: P.Reg, r': P.Reg, id: SessionId) {
    IsReady(r', id) ==> id in r.entries && r.entries[id] == r'.entries[id]
  }

  ghost predicate ReadyBy(r: P.Reg, r': P.Reg, id: SessionId, l: nat)
    requires l < |r.launches|
  {
    ReadyKept(r, r', id)
    || (r.launches[l].sid == id && InFlight(r, l) && r'.entries[id].writer == l && r'.entries[id].digest == r.launches[l].digest)
  }

  lemma StopReady(r: P.Reg, x: SessionId, id: SessionId)
    ensures ReadyKept(r, P.Stop(r, x), id)
  {
    StopEffect(r, x);
  }

  lemma EvictTopReady(max: nat, r: P.Reg, l: nat, id: SessionId)
    requires l < |r.launches|
    ensures ReadyKept(r, P.EvictTop(max, r, l), id)
  {
    if P.AtCapacity(max, r) && P.Oldest(r.order, r.entries).Some? {
      StopReady(r, P.Oldest(r.order, r.entries).value, id);
    }
  }

  lemma AfterStopReady(max: nat, r: P.Reg, l: nat, id: SessionId)
    requires l < |r.launches| && InFlight(r, l)
    ensures ReadyBy(r, P.AfterStop(max, r, l), id, l)
  {
    EvictTopReady(max, P.Mint(r, l), l, id);
  }

  lemma LaunchedReady(r: P.Reg, l: nat, port: nat, id: SessionId)
    requires l < |r.launches|
    ensures ReadyKept(r, P.Launched(r, l, port), id)
  {
    var r1 := r.(launches := r.launches[l := r.launches[l].(port := Some(port), released := false)]);
    GiveBackEffect(r1, l, P.StandDown);
  }

  lemma ProbedReady(r: P.Reg, l: nat, answered: bool, timeUp: bool, id: SessionId)
    requires l < |r.launches| && InFlight(r, l)
    ensures ReadyBy(r, P.Probed(r, l, answered, timeUp), id, l)
  {
    GiveBackEffect(r, l, P.StandDown);
    GiveBackEffect(r, l, P.TimeoutTeardown);
  }

  lemma ResumeReady(max: nat, r: P.Reg, l: nat, w: P.Outcome, id: SessionId)
    requires l < |r.launches|
    ensures ReadyBy(r, P.Resume(max, r, l, w), id, l)
  {
    match r.launches[l].pc
    case Stopping => AfterStopReady(max, r, l, id);
    case Evicting => EvictTopReady(max, r, l, id);
    case Allocating => if w.Okay? { LaunchedReady(r, l, w.port, id); }
    case Probing => ProbedReady(r, l, w.Okay?, w.NotOkay? && w.timeUp, id);
    case Sleeping => LoopTopReady(r, l, id);
    case _ => NotReadyWritten(max, r, l, w, id);
  }

  lemma LoopTopReady(r: P.Reg, l: nat, id: SessionId)
    requires l < |r.launches|
    ensures ReadyKept(r, P.LoopTop(r, l), id)
  {
    GiveBackEffect(r, l, P.StandDown);
  }

  /** The other steps write no entry, or one that is not ready. */
  lemma NotReadyWritten(max: nat, r: P.Reg, l: nat, w: P.Outcome, id: SessionId)
    requires l < |r.launches| && r.launches[l].pc !in {P.Stopping, P.Evicting, P.Allocating, P.Probing, P.Sleeping}
    ensures ReadyKept(r, P.Resume(max, r, l, w), id)
  {
  }

  lemma ExitReady(r: P.Reg, l: nat, id: SessionId)
    requires l < |r.launches|
    ensures ReadyKept(r, P.Exit(r, l), id)
  {
  }

  // ----- the invariant

  /** A ready entry carries the digest of the files its launch serves. */
  ghost predicate Labeled(env: Env, s: Sys, id: SessionId) {
    IsReady(s.reg, id) ==>
      var e := s.reg.entries[id];
      e.digest.Some? && e.writer in s.served && env.digestFiles(s.served[e.writer]) == e.digest.value
  }

  /** The version of the last good read is in the store's history and had this digest. */
  ghost predicate ReadAs(env: Env, s: Sys, id: SessionId, d: string) {
    && id in s.confirmed && 1 <= s.confirmed[id] <= |Versions(s, id)|
    && env.digestFiles(Versions(s, id)[s.confirmed[id] - 1]) == d
  }

  ghost predicate Timely(s: Sys, id: SessionId) {
    id in s.confirmed && DoneAt(s, id) <= s.confirmed[id]
  }

  ghost predicate EntryOk(env: Env, s: Sys, id: SessionId) {
    IsReady(s.reg, id) && id !in s.missed ==>
      && s.reg.entries[id].digest.Some? && ReadAs(env, s, id, s.reg.entries[id].digest.value)
      && (id !in s.jobs || (s.jobs[id] == Settled && id !in s.pending) ==> Timely(s, id))
  }

  ghost predicate PhaseOk(env: Env, s: Sys, id: SessionId) {
    id in s.jobs ==>
      match s.jobs[id]
      case Comparing(d) => IsReady(s.reg, id) ==> s.reg.entries[id].digest == Some(d)
      case Materializing(_, v, _) => id !in s.pending ==> DoneAt(s, id) <= v
      case Booting(l) =>
        && l in s.served && l < |s.reg.launches| && s.reg.launches[l].digest == Some(env.digestFiles(s.served[l]))
        && ReadAs(env, s, id, env.digestFiles(s.served[l])) && (id !in s.pending ==> Timely(s, id))
      case _ => true
  }

  ghost predicate FreshOk(env: Env, s: Sys, id: SessionId) {
    Labeled(env, s, id) && EntryOk(env, s, id) && PhaseOk(env, s, id) && DoneAt(s, id) <= |Versions(s, id)|
  }

  ghost predicate FreshInv(env: Env, s: Sys) {
    && Serialized(env, s)
    && (forall l :: l in s.served ==> l < |s.reg.launches|)
    && forall id :: !P.IsVerify(id) ==> FreshOk(env, s, id)
  }

  /** Everything about one session but its registry entry is the same. */
  ghost predicate SameSession(s: Sys, s': Sys, id: SessionId) {
    && (id in s'.jobs <==> id in s.jobs) && (id in s.jobs ==> s'.jobs[id] == s.jobs[id])
    && (id in s'.pending <==> id in s.pending) && (id in s'.missed <==> id in s.missed)
    && Versions(s', id) == Versions(s, id) && DoneAt(s', id) == DoneAt(s, id)
    && (id in s'.confirmed <==> id in s.confirmed) && (id in s.confirmed ==> s'.confirmed[id] == s.confirmed[id])
  }

  ghost predicate SameLaunches(s: Sys, s': Sys) {
    && |s.reg.launches| <= |s'.reg.launches|
    && (forall l :: 0 <= l < |s.reg.launches| ==> s'.reg.launches[l].digest == s.reg.launches[l].digest)
    && (forall l :: l in s.served ==> l in s'.served && s'.served[l] == s.served[l])
  }

  lemma ElsewhereFresh(env: Env, s: Sys, s': Sys, id: SessionId)
    requires FreshOk(env, s, id) && SameSession(s, s', id) && SameLaunches(s, s') && ReadyKept(s.reg, s'.reg, id)
    ensures FreshOk(env, s', id)
  {
  }

  lemma AdvanceDigests(r: P.Reg, r': P.Reg)
    requires TokensAdvance(r, r')
    ensures forall l :: 0 <= l < |r.launches| ==> r'.launches[l].digest == r.launches[l].digest
  {
    forall l | 0 <= l < |r.launches| ensures r'.launches[l].digest == r.launches[l].digest {
      assert KeepsIdentity(r.launches[l], r'.launches[l]);
    }
  }

  // ----- registry steps

  lemma QuietRegistryFresh(env: Env, s: Sys, r': P.Reg)
    requires FreshInv(env, s) && Serialized(env, s.(reg := r')) && TokensAdvance(s.reg, r')
    requires forall id :: ReadyKept(s.reg, r', id)
    ensures FreshInv(env, s.(reg := r'))
  {
    AdvanceDigests(s.reg, r');
    forall id | !P.IsVerify(id) ensures FreshOk(env, s.(reg := r'), id) {
      ElsewhereFresh(env, s, s.(reg := r'), id);
    }
  }

  lemma ResumedFresh(env: Env, s: Sys, r': P.Reg, l: nat, id: SessionId)
    requires FreshInv(env, s) && !P.IsVerify(id) && l < |s.reg.launches|
    requires SameLaunches(s, s.(reg := r')) && ReadyBy(s.reg, r', id, l)
    ensures FreshOk(env, s.(reg := r'), id)
  {
    assert FreshOk(env, s, id) && LaunchHasJob(s, l);
    if ReadyKept(s.reg, r', id) {
      ElsewhereFresh(env, s, s.(reg := r'), id);
    } else {
      BecomesReady(env, s, r', l, id);
    }
  }

  lemma ResumeFresh(env: Env, s: Sys, l: nat, w: P.Outcome)
    requires FreshInv(env, s)
    ensures FreshInv(env, Next(env, s, Resume(l, w)))
  {
    ResumeSerialized(env, s, l, w);
    if l < |s.reg.launches| {
      var r' := P.Resume(env.max, s.reg, l, w);
      ResumeKeeps(env.max, s.reg, l, w);
      AdvanceDigests(s.reg, r');
      forall id | !P.IsVerify(id) ensures FreshOk(env, s.(reg := r'), id) {
        ResumeReady(env.max, s.reg, l, w, id);
        ResumedFresh(env, s, r', l, id);
      }
    }
  }

  /** The launch of the session's own job made the entry ready: it serves what that job read. */
  lemma BecomesReady(env: Env, s: Sys, r': P.Reg, l: nat, id: SessionId)
    requires FreshOk(env, s, id) && id in s.jobs && s.jobs[id] == Booting(l)
    requires |r'.launches| >= |s.reg.launches| && (l < |s.reg.launches| ==> r'.launches[l].digest == s.reg.launches[l].digest)
    requires l < |s.reg.launches| && id in r'.entries
    requires r'.entries[id].writer == l && r'.entries[id].digest == s.reg.launches[l].digest
    ensures FreshOk(env, s.(reg := r'), id)
  {
  }

  lemma ExitReadyAll(r: P.Reg, l: nat)
    requires l < |r.launches|
    ensures forall id :: ReadyKept(r, P.Exit(r, l), id)
  {
    forall id ensures ReadyKept(r, P.Exit(r, l), id) {
      ExitReady(r, l, id);
    }
  }

  lemma ExitFresh(env: Env, s: Sys, l: nat)
    requires FreshInv(env, s)
    ensures FreshInv(env, Next(env, s, Exit(l)))
  {
    ExitSerialized(env, s, l);
    if l < |s.reg.launches| {
      ExitKeeps(env.max, s.reg, l);
      ExitReadyAll(s.reg, l);
      var r' := P.Exit(s.reg, l);
      assert Next(env, s, Exit(l)) == s.(reg := r');
      QuietRegistryFresh(env, s, r');
    }
  }

  lemma StopReadyAll(r: P.Reg, x: SessionId)
    ensures forall id :: ReadyKept(r, P.Stop(r, x), id)
  {
    forall id ensures ReadyKept(r, P.Stop(r, x), id) {
      StopReady(r, x, id);
    }
  }

  lemma StopFresh(env: Env, s: Sys, x: SessionId)
    requires FreshInv(env, s)
    ensures FreshInv(env, Next(env, s, Stop(x)))
  {
    StopSerialized(env, s, x);
    StopKeeps(env.max, s.reg, x);
    StopReadyAll(s.reg, x);
    var r' := P.Stop(s.reg, x);
    assert Next(env, s, Stop(x)) == s.(reg := r');
    QuietRegistryFresh(env, s, r');
  }

  lemma BootVerifyFresh(env: Env, s: Sys, x: SessionId, typ: P.AppType)
    requires FreshInv(env, s)
    ensures FreshInv(env, Next(env, s, BootVerify(x, typ)))
  {
    BootVerifySerialized(env, s, x, typ);
    if P.IsVerify(x) && Unused(s.reg, x) {
      var s' := Next(env, s, BootVerify(x, typ));
      BeginShape(s.reg, x, typ, true, None);
      forall id | !P.IsVerify(id) ensures FreshOk(env, s', id) {
        StopReady(s.reg, x, id);
        BeginDigests(s.reg, x, typ, true, None);
        ElsewhereFresh(env, s, s', id);
      }
    }
  }

  lemma BeginDigests(r: P.Reg, id: SessionId, typ: P.AppType, mayEvict: bool, digest: Option<string>)
    ensures var r' := P.Begin(r, id, typ, mayEvict, digest);
      forall l :: 0 <= l < |r.launches| ==> r'.launches[l].digest == r.launches[l].digest
  {
    BeginShape(r, id, typ, mayEvict, digest);
    forall l | 0 <= l < |r.launches|
      ensures P.Begin(r, id, typ, mayEvict, digest).launches[l].digest == r.launches[l].digest
    {
      assert KeepsIdentity(r.launches[l], P.Begin(r, id, typ, mayEvict, digest).launches[l]);
    }
  }

  // ----- coordinator steps: only the session they are about changes

  // Writes to the coordinator's maps at `x`, seen from another session.

  ghost predicate OnlyAt(s: Sys, s': Sys, x: SessionId, id: SessionId) {
    s'.reg == s.reg && s'.served == s.served && (id != x ==> SameSession(s, s', id))
  }

  lemma WithJobFrame(s: Sys, x: SessionId, j: Job, id: SessionId)
    ensures OnlyAt(s, WithJob(s, x, j), x, id)
  {
  }

  lemma RestartFrame(s: Sys, x: SessionId, id: SessionId)
    ensures OnlyAt(s, Restart(s, x), x, id)
  {
    WithJobFrame(s, x, Settled, id);
    WithJobFrame(s, x, Reading(false), id);
    if IsReady(s.reg, x) && s.reg.entries[x].digest.Some? {
      WithJobFrame(s, x, Comparing(s.reg.entries[x].digest.value), id);
    }
  }

  lemma OneSessionFresh(env: Env, s: Sys, s': Sys, x: SessionId)
    requires FreshInv(env, s) && Serialized(env, s') && forall id :: OnlyAt(s, s', x, id)
    requires !P.IsVerify(x) ==> FreshOk(env, s', x)
    ensures FreshInv(env, s')
  {
    assert OnlyAt(s, s', x, x);
    forall id | !P.IsVerify(id) ensures FreshOk(env, s', id) {
      assert OnlyAt(s, s', x, id);
      if id != x {
        ElsewhereFresh(env, s, s', id);
      }
    }
  }

  lemma StoredFreshAt(env: Env, s: Sys, x: SessionId, files: Files)
    requires FreshOk(env, s, x)
    ensures FreshOk(env, s.(codes := s.codes[x := Versions(s, x) + [files]]), x)
  {
  }

  lemma StoreFresh(env: Env, s: Sys, x: SessionId, files: Files)
    requires FreshInv(env, s)
    ensures FreshInv(env, Next(env, s, StoreCode(x, files)))
  {
    var s' := Next(env, s, StoreCode(x, files));
    StoreSerialized(env, s, x, files);
    if !P.IsVerify(x) {
      assert FreshOk(env, s, x);
      StoredFreshAt(env, s, x, files);
      forall id ensures OnlyAt(s, s', x, id) {
      }
      OneSessionFresh(env, s, s', x);
    }
  }

  lemma StartFresh(env: Env, s: Sys, x: SessionId)
    requires FreshInv(env, s)
    ensures FreshInv(env, UserStart(s, x))
  {
    StartSerialized(env, s, x);
    assert !P.IsVerify(x) ==> FreshOk(env, s, x);
    forall id ensures OnlyAt(s, UserStart(s, x), x, id) {
      WithJobFrame(s, x, Reading(true), id);
    }
    OneSessionFresh(env, s, UserStart(s, x), x);
  }

  /** A restart takes nothing for granted about past dones. */
  lemma RestartFresh(env: Env, s: Sys, x: SessionId)
    requires !P.IsVerify(x) && x !in s.jobs && x !in s.pending && Labeled(env, s, x) && DoneAt(s, x) <= |Versions(s, x)|
    requires IsReady(s.reg, x) && x !in s.missed ==> ReadAs(env, s, x, s.reg.entries[x].digest.value)
    ensures FreshOk(env, Restart(s, x), x)
  {
  }

  lemma DoneFreshAt(env: Env, s: Sys, x: SessionId)
    requires !P.IsVerify(x) && FreshOk(env, s, x) && (x in s.pending ==> x in s.jobs)
    ensures FreshOk(env, OnDone(env, s, x), x)
  {
    var s1 := s.(dones := s.dones[x := |Versions(s, x)|]);
    if x in s.jobs {
      PendingFreshAt(env, s, s1.(pending := s1.pending + {x}), x);
    } else if IsReady(s.reg, x) {
      RestartFresh(env, s1, x);
    }
  }

  /** A done that lands during a job is only noted: nothing is owed until the job is settled. */
  lemma PendingFreshAt(env: Env, s: Sys, s': Sys, x: SessionId)
    requires FreshOk(env, s, x) && x in s.jobs
    requires s' == s.(dones := s.dones[x := |Versions(s, x)|], pending := s.pending + {x})
    ensures FreshOk(env, s', x)
  {
  }

  lemma OnDoneFrame(env: Env, s: Sys, x: SessionId, id: SessionId)
    ensures OnlyAt(s, OnDone(env, s, x), x, id)
  {
    var s1 := s.(dones := s.dones[x := |Versions(s, x)|]);
    assert OnlyAt(s, s1, x, id);
    if x in s.jobs {
      assert OnlyAt(s1, s1.(pending := s1.pending + {x}), x, id);
    } else if IsReady(s.reg, x) {
      RestartFrame(s1, x, id);
    } else {
      WithJobFrame(s1, x, Reading(false), id);
    }
  }

  lemma DoneFresh(env: Env, s: Sys, x: SessionId)
    requires FreshInv(env, s)
    ensures FreshInv(env, OnDone(env, s, x))
  {
    DoneSerialized(env, s, x);
    forall id ensures OnlyAt(s, OnDone(env, s, x), x, id) {
      OnDoneFrame(env, s, x, id);
    }
    if !P.IsVerify(x) {
      assert FreshOk(env, s, x);
      DoneFreshAt(env, s, x);
    }
    OneSessionFresh(env, s, OnDone(env, s, x), x);
  }

  lemma FinishFreshAt(env: Env, s: Sys, x: SessionId)
    requires !P.IsVerify(x) && FreshOk(env, s, x) && x in s.jobs && s.jobs[x] == Settled
    ensures FreshOk(env, Finish(s, x), x)
  {
    if x in s.pending {
      RestartFresh(env, s.(jobs := s.jobs - {x}, pending := s.pending - {x}), x);
    }
  }

  lemma FinishFrame(s: Sys, x: SessionId, id: SessionId)
    requires x in s.jobs
    ensures OnlyAt(s, Finish(s, x), x, id)
  {
    var s1 := s.(jobs := s.jobs - {x}, pending := s.pending - {x});
    assert OnlyAt(s, s1, x, id);
    RestartFrame(s1, x, id);
  }

  lemma FinishFresh(env: Env, s: Sys, x: SessionId)
    requires FreshInv(env, s) && x in s.jobs && s.jobs[x] == Settled
    ensures FreshInv(env, Finish(s, x))
  {
    FinishSerialized(env, s, x);
    forall id ensures OnlyAt(s, Finish(s, x), x, id) {
      FinishFrame(s, x, id);
    }
    if !P.IsVerify(x) {
      assert FreshOk(env, s, x);
      FinishFreshAt(env, s, x);
    }
    OneSessionFresh(env, s, Finish(s, x), x);
  }

  /** A boot begins with a stop, so the entry is not ready; the job knows what it read and when. */
  lemma BootFreshAt(env: Env, s: Sys, x: SessionId)
    requires FreshOk(env, s, x) && JobOk(s, x) && x in s.jobs && s.jobs[x].Materializing?
    ensures FreshOk(env, JobStep(env, s, x, true), x)
  {
    var j := s.jobs[x];
    BeginShape(s.reg, x, env.detect(j.files), j.mayEvict, Some(env.digestFiles(j.files)));
    StopEffect(s.reg, x);
    assert !IsReady(JobStep(env, s, x, true).reg, x);
  }

  lemma BootElsewhere(env: Env, s: Sys, x: SessionId, id: SessionId)
    requires x in s.jobs && s.jobs[x].Materializing? && x != id
    requires forall l :: l in s.served ==> l < |s.reg.launches|
    ensures var s' := JobStep(env, s, x, true);
      SameSession(s, s', id) && SameLaunches(s, s') && ReadyKept(s.reg, s'.reg, id)
  {
    var j := s.jobs[x];
    StopReady(s.reg, x, id);
    BeginShape(s.reg, x, env.detect(j.files), j.mayEvict, Some(env.digestFiles(j.files)));
    BeginDigests(s.reg, x, env.detect(j.files), j.mayEvict, Some(env.digestFiles(j.files)));
  }

  lemma BootFresh(env: Env, s: Sys, x: SessionId)
    requires FreshInv(env, s) && x in s.jobs && s.jobs[x].Materializing?
    ensures FreshInv(env, JobStep(env, s, x, true))
  {
    var s', j := JobStep(env, s, x, true), s.jobs[x];
    BootSerialized(env, s, x);
    BeginShape(s.reg, x, env.detect(j.files), j.mayEvict, Some(env.digestFiles(j.files)));
    assert JobOk(s, x);
    forall id | !P.IsVerify(id) ensures FreshOk(env, s', id) {
      assert FreshOk(env, s, id);
      if id == x {
        BootFreshAt(env, s, x);
      } else {
        BootElsewhere(env, s, x, id);
        ElsewhereFresh(env, s, s', id);
      }
    }
  }

  lemma MissFreshAt(env: Env, s: Sys, x: SessionId)
    requires FreshOk(env, s, x)
    ensures FreshOk(env, Miss(s, x), x)
  {
  }

  /** The comparison read the current version and found the digest of the live entry. */
  lemma ConfirmFreshAt(env: Env, s: Sys, x: SessionId, s': Sys)
    requires FreshOk(env, s, x) && x in s.jobs && s.jobs[x].Comparing?
    requires Current(s, x) != [] && env.digestFiles(Current(s, x)) == s.jobs[x].digest
    requires s' == WithJob(s, x, Settled).(confirmed := s.confirmed[x := |Versions(s, x)|], missed := s.missed - {x})
    ensures FreshOk(env, s', x)
  {
  }

  lemma ReadFreshAt(env: Env, s: Sys, x: SessionId, mayEvict: bool)
    requires FreshOk(env, s, x) && x in s.jobs && s.jobs[x].Reading?
    ensures FreshOk(env, WithJob(s, x, Materializing(Current(s, x), |Versions(s, x)|, mayEvict)), x)
  {
  }

  lemma BootedFreshAt(env: Env, s: Sys, x: SessionId)
    requires FreshOk(env, s, x) && x in s.jobs && s.jobs[x].Booting?
    ensures FreshOk(env, WithJob(s, x, Settled), x)
  {
  }

  lemma RereadFreshAt(env: Env, s: Sys, x: SessionId)
    requires FreshOk(env, s, x) && x in s.jobs && s.jobs[x].Comparing?
    ensures FreshOk(env, WithJob(s, x, Reading(false)), x)
  {
  }

  lemma JobStepFreshAt(env: Env, s: Sys, x: SessionId, ok: bool)
    requires FreshOk(env, s, x) && x in s.jobs && !(s.jobs[x].Materializing? && ok)
    ensures FreshOk(env, JobStep(env, s, x, ok), x)
  {
    MissFreshAt(env, s, x);
    match s.jobs[x]
    case Reading(mayEvict) => ReadFreshAt(env, s, x, mayEvict);
    case Comparing(d) =>
      if ok && Current(s, x) != [] && env.digestFiles(Current(s, x)) == d {
        ConfirmFreshAt(env, s, x, JobStep(env, s, x, ok));
      } else {
        RereadFreshAt(env, s, x);
      }
    case Materializing(_, _, _) =>
    case Booting(_) => BootedFreshAt(env, s, x);
    case Settled =>
  }

  lemma MissFrame(s: Sys, x: SessionId, id: SessionId)
    ensures OnlyAt(s, Miss(s, x), x, id)
  {
    WithJobFrame(s, x, Settled, id);
  }

  lemma ConfirmFrame(s: Sys, x: SessionId, v: nat, id: SessionId)
    ensures OnlyAt(s, WithJob(s, x, Settled).(confirmed := s.confirmed[x := v], missed := s.missed - {x}), x, id)
  {
    WithJobFrame(s, x, Settled, id);
  }

  lemma JobStepFrame(env: Env, s: Sys, x: SessionId, ok: bool, id: SessionId)
    requires x in s.jobs && !(s.jobs[x].Materializing? && ok)
    ensures OnlyAt(s, JobStep(env, s, x, ok), x, id)
  {
    MissFrame(s, x, id);
    match s.jobs[x]
    case Reading(mayEvict) => WithJobFrame(s, x, Materializing(Current(s, x), |Versions(s, x)|, mayEvict), id);
    case Comparing(d) =>
      ConfirmFrame(s, x, |Versions(s, x)|, id);
      WithJobFrame(s, x, Reading(false), id);
    case Materializing(_, _, _) =>
    case Booting(_) => WithJobFrame(s, x, Settled, id);
    case Settled =>
  }

  lemma JobStepFresh(env: Env, s: Sys, x: SessionId, ok: bool)
    requires FreshInv(env, s) && x in s.jobs
    ensures FreshInv(env, JobStep(env, s, x, ok))
  {
    JobStepSerialized(env, s, x, ok);
    if s.jobs[x].Materializing? && ok {
      BootFresh(env, s, x);
    } else {
      forall id ensures OnlyAt(s, JobStep(env, s, x, ok), x, id) {
        JobStepFrame(env, s, x, ok, id);
      }
      if !P.IsVerify(x) {
        assert FreshOk(env, s, x);
        JobStepFreshAt(env, s, x, ok);
      }
      OneSessionFresh(env, s, JobStep(env, s, x, ok), x);
    }
  }

  lemma NextFresh(env: Env, s: Sys, ch: Choice)
    requires FreshInv(env, s)
    ensures FreshInv(env, Next(env, s, ch))
  {
    match ch
    case StoreCode(id, files) => StoreFresh(env, s, id, files);
    case Start(id) => StartFresh(env, s, id);
    case DoneTap(id) => DoneFresh(env, s, id);
    case Step(id, ok) => if id in s.jobs { JobStepFresh(env, s, id, ok); }
    case Settle(id) => if id in s.jobs && s.jobs[id] == Settled { FinishFresh(env, s, id); }
    case Stop(id) => StopFresh(env, s, id);
    case Resume(l, w) => ResumeFresh(env, s, l, w);
    case Exit(l) => ExitFresh(env, s, l);
    case BootVerify(id, typ) => BootVerifyFresh(env, s, id, typ);
  }

  lemma {:induction false} RunFresh(env: Env, cs: seq<Choice>)
    ensures FreshInv(env, RunFrom(env, cs))
  {
    if |cs| > 0 {
      RunFresh(env, cs[..|cs| - 1]);
      NextFresh(env, RunFrom(env, cs[..|cs| - 1]), cs[|cs| - 1]);
    }
  }

  // ----- the flag is not needed when reads succeed and code is never empty

  /** No call of the session's jobs fails and no empty code is stored for it. */
  predicate Good(ch: Choice, id: SessionId) {
    match ch
    case StoreCode(x, files) => x == id ==> files != []
    case Step(x, ok) => x == id ==> ok
    case _ => true
  }

  /** A session can only have missed before its first code; it has no preview yet. */
  ghost predicate NoMiss(s: Sys, id: SessionId) {
    && (forall v :: 0 <= v < |Versions(s, id)| ==> Versions(s, id)[v] != [])
    && (id in s.missed ==> !IsReady(s.reg, id) && (id in s.jobs ==> !s.jobs[id].Booting?))
  }

  lemma ElsewhereNoMiss(s: Sys, s': Sys, id: SessionId)
    requires NoMiss(s, id) && SameSession(s, s', id) && ReadyKept(s.reg, s'.reg, id)
    ensures NoMiss(s', id)
  {
  }

  lemma ReadyHasCode(env: Env, s: Sys, id: SessionId)
    requires FreshOk(env, s, id) && NoMiss(s, id) && IsReady(s.reg, id)
    ensures |Versions(s, id)| >= 1 && Current(s, id) != []
  {
  }

  lemma JobStepNoMiss(env: Env, s: Sys, id: SessionId)
    requires FreshOk(env, s, id) && NoMiss(s, id) && id in s.jobs && JobOk(s, id)
    ensures NoMiss(JobStep(env, s, id, true), id)
  {
    if IsReady(s.reg, id) {
      ReadyHasCode(env, s, id);
    }
    if s.jobs[id].Materializing? {
      StopReady(s.reg, id, id);
    }
  }

  lemma StepNoMiss(env: Env, s: Sys, x: SessionId, ok: bool, id: SessionId)
    requires FreshInv(env, s) && !P.IsVerify(id) && NoMiss(s, id) && x in s.jobs && (x == id ==> ok)
    ensures NoMiss(JobStep(env, s, x, ok), id)
  {
    if x == id {
      assert FreshOk(env, s, id) && JobOk(s, id);
      JobStepNoMiss(env, s, id);
    } else if s.jobs[x].Materializing? && ok {
      BootElsewhere(env, s, x, id);
      ElsewhereNoMiss(s, JobStep(env, s, x, ok), id);
    } else {
      JobStepFrame(env, s, x, ok, id);
      ElsewhereNoMiss(s, JobStep(env, s, x, ok), id);
    }
  }

  lemma ResumeNoMiss(env: Env, s: Sys, l: nat, w: P.Outcome, id: SessionId)
    requires FreshInv(env, s) && !P.IsVerify(id) && NoMiss(s, id)
    ensures NoMiss(Next(env, s, Resume(l, w)), id)
  {
    if l < |s.reg.launches| {
      ResumeReady(env.max, s.reg, l, w, id);
      assert LaunchHasJob(s, l);
    }
  }

  lemma NextNoMiss(env: Env, s: Sys, ch: Choice, id: SessionId)
    requires FreshInv(env, s) && !P.IsVerify(id) && NoMiss(s, id) && Good(ch, id)
    ensures NoMiss(Next(env, s, ch), id)
  {
    match ch
    case StoreCode(_, _) =>
    case Start(_) =>
    case DoneTap(x) => DoneNoMiss(env, s, x, id);
    case Step(x, ok) => if x in s.jobs { StepNoMiss(env, s, x, ok, id); }
    case Settle(x) => if x in s.jobs && s.jobs[x] == Settled { FinishNoMiss(s, x, id); }
    case Stop(x) => StopReady(s.reg, x, id);
    case Resume(l, w) => ResumeNoMiss(env, s, l, w, id);
    case Exit(l) => if l < |s.reg.launches| { ExitReady(s.reg, l, id); }
    case BootVerify(x, typ) => StopReady(s.reg, x, id);
  }

  lemma DoneNoMiss(env: Env, s: Sys, x: SessionId, id: SessionId)
    requires NoMiss(s, id)
    ensures NoMiss(OnDone(env, s, x), id)
  {
    if x != id {
      OnDoneFrame(env, s, x, id);
    }
  }

  lemma FinishNoMiss(s: Sys, x: SessionId, id: SessionId)
    requires NoMiss(s, id) && x in s.jobs
    ensures NoMiss(Finish(s, x), id)
  {
    assert Versions(Finish(s, x), id) == Versions(s, id);
    if x != id {
      FinishFrame(s, x, id);
    }
  }

  lemma {:induction false} RunNoMiss(env: Env, cs: seq<Choice>, id: SessionId)
    requires !P.IsVerify(id) && forall i :: 0 <= i < |cs| ==> Good(cs[i], id)
    ensures NoMiss(RunFrom(env, cs), id)
  {
    if |cs| > 0 {
      RunNoMiss(env, cs[..|cs| - 1], id);
      RunFresh(env, cs[..|cs| - 1]);
      NextNoMiss(env, RunFrom(env, cs[..|cs| - 1]), cs[|cs| - 1], id);
    }
  }

  // ----- main results

  /** The entry has the digest of this store version, which was current at or after the last `done`. */
  ghost predicate ServesVersion(env: Env, s: Sys, id: SessionId, v: nat) {
    && DoneAt(s, id) <= v && 1 <= v <= |Versions(s, id)|
    && id in s.reg.entries && s.reg.entries[id].digest == Some(env.digestFiles(Versions(s, id)[v - 1]))
  }

  ghost predicate Fresh(env: Env, s: Sys, id: SessionId) {
    exists v: nat :: ServesVersion(env, s, id, v)
  }

  /** The files behind a ready entry have the digest the entry records. */
  lemma ReadyEntryServesItsDigest(env: Env, cs: seq<Choice>, id: SessionId)
    requires !P.IsVerify(id) && IsReady(RunFrom(env, cs).reg, id)
    ensures Labeled(env, RunFrom(env, cs), id)
  {
    RunFresh(env, cs);
    assert FreshOk(env, RunFrom(env, cs), id);
  }

  lemma TimelyIsFresh(env: Env, s: Sys, id: SessionId)
    requires FreshOk(env, s, id) && IsReady(s.reg, id) && id !in s.missed
    requires id !in s.jobs || (s.jobs[id] == Settled && id !in s.pending)
    ensures Fresh(env, s, id)
  {
    assert ServesVersion(env, s, id, s.confirmed[id]);
  }

  /**
   Any interleaving in which the session's reads and materializations succeed and no empty code is stored for it: when
   the session is idle and its entry is `ready`, the launch behind it serves files with the digest of a store version
   that was current at or after the last `done`. Other sessions may fail as they like.
   */
  lemma IdleReadyPreviewIsFresh(env: Env, cs: seq<Choice>, id: SessionId)
    requires forall i :: 0 <= i < |cs| ==> Good(cs[i], id)
    requires !P.IsVerify(id) && id !in RunFrom(env, cs).jobs && IsReady(RunFrom(env, cs).reg, id)
    ensures Labeled(env, RunFrom(env, cs), id) && Fresh(env, RunFrom(env, cs), id)
  {
    RunFresh(env, cs);
    RunNoMiss(env, cs, id);
    assert FreshOk(env, RunFrom(env, cs), id);
    TimelyIsFresh(env, RunFrom(env, cs), id);
  }
}
