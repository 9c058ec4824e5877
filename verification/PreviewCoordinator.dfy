/**
 The per-session start coordinator over the preview registry: user starts, `done` taps, stops, process exits, verify
 boots and store writes in any interleaving.
 */
module PreviewCoordinator {
  import opened Wrappers
  import opened Session
  import P = PreviewRegistry
  import opened PreviewCap
  import opened PreviewLeak

  type SessionId = P.SessionId

  /** The cap, the file digest and the app detector. */
  datatype Env = Env(max: nat, digestFiles: Files -> string, detect: Files -> P.AppType)

  /** The one start or restart in flight for a session, by the await it is suspended at. */
  datatype Job =
    | Reading(mayEvict: bool)                                    // materializeAndStart: store.get
    | Comparing(digest: string)                                  // restart: store.get for the digest comparison
    | Materializing(files: Files, version: nat, mayEvict: bool)  // writing the files read at this store version
    | Booting(launch: nat)                                       // registry.start
    | Settled                                                    // the promise is settled, its `finally` not yet run

  /**
   `jobs` and `pending` are the coordinator's own maps. The rest is the world and its history: all code ever stored per
   session, the store version at the last `done`, the version of the last read that fed or confirmed the preview, the
   files of each launch, and the sessions whose last job could not read or materialize.
   */
  datatype Sys = Sys(reg: P.Reg, jobs: map<SessionId, Job>, pending: set<SessionId>, codes: map<SessionId, seq<Files>>,
                     dones: map<SessionId, nat>, confirmed: map<SessionId, nat>, served: map<nat, Files>, missed: set<SessionId>)

  const INITIAL := Sys(P.EMPTY, map[], {}, map[], map[], map[], map[], {})

  function Versions(s: Sys, id: SessionId): seq<Files> {
    if id in s.codes then s.codes[id] else []
  }

  /** `session?.code?.files ?? []`. */
  function Current(s: Sys, id: SessionId): Files {
    var v := Versions(s, id);
    if |v| == 0 then [] else v[|v| - 1]
  }

  function DoneAt(s: Sys, id: SessionId): nat {
    if id in s.dones then s.dones[id] else 0
  }

  predicate IsReady(r: P.Reg, id: SessionId) {
    id in r.entries && r.entries[id].status == P.Ready
  }

  function WithJob(s: Sys, id: SessionId, j: Job): Sys {
    s.(jobs := s.jobs[id := j])
  }

  /** `restart` up to its first await: liveness is re-checked inside the serialized section. */
  function Restart(s: Sys, id: SessionId): Sys {
    if !IsReady(s.reg, id) then WithJob(s, id, Settled)
    else match s.reg.entries[id].digest
      case Some(d) => WithJob(s, id, Comparing(d))
      case None => WithJob(s, id, Reading(false))
  }

  /** `start`: coalesces onto the job in flight. */
  function UserStart(s: Sys, id: SessionId): Sys {
    if id in s.jobs then s else WithJob(s, id, Reading(true))
  }

  function OnDone(env: Env, s0: Sys, id: SessionId): Sys {
    var s := s0.(dones := s0.dones[id := |Versions(s0, id)|]);
    if id in s.jobs then s.(pending := s.pending + {id})
    else if id in s.reg.entries && s.reg.entries[id].status == P.Starting then s
    else if IsReady(s.reg, id) then Restart(s, id)
    else if P.AtCapacity(env.max, s.reg) then s
    else WithJob(s, id, Reading(false))
  }

  function Miss(s: Sys, id: SessionId): Sys {
    WithJob(s, id, Settled).(missed := s.missed + {id})
  }

  /** A job runs from the await it is suspended at to its next one; `ok` is whether the awaited call succeeded. */
  function JobStep(env: Env, s: Sys, id: SessionId, ok: bool): Sys
    requires id in s.jobs
  {
    var files, version := Current(s, id), |Versions(s, id)|;
    match s.jobs[id]
    case Reading(mayEvict) =>
      if !ok || files == [] then Miss(s, id) else WithJob(s, id, Materializing(files, version, mayEvict))
    case Comparing(d) =>
      if !ok then Miss(s, id)
      else if files != [] && env.digestFiles(files) == d then
        WithJob(s, id, Settled).(confirmed := s.confirmed[id := version], missed := s.missed - {id})
      else WithJob(s, id, Reading(false))
    case Materializing(read, v, mayEvict) =>
      if !ok then Miss(s, id)
      else
        var l := |s.reg.launches|;
        WithJob(s, id, Booting(l)).(
          reg := P.Begin(s.reg, id, env.detect(read), mayEvict, Some(env.digestFiles(read))),
          served := s.served[l := read], confirmed := s.confirmed[id := v], missed := s.missed - {id})
    case Booting(l) =>
      if l < |s.reg.launches| && s.reg.launches[l].pc == P.Finished then WithJob(s, id, Settled) else s
    case Settled => s
  }

  /** The `finally` of a settled job: it leaves the in-flight map and drains one pending `done` into a restart. */
  function Finish(s: Sys, id: SessionId): Sys
    requires id in s.jobs
  {
    var s1 := s.(jobs := s.jobs - {id}, pending := s.pending - {id});
    if id in s.pending then Restart(s1, id) else s1
  }

  datatype Choice =
    | StoreCode(id: SessionId, files: Files)
    | Start(id: SessionId)
    | DoneTap(id: SessionId)
    | Step(id: SessionId, ok: bool)
    | Settle(id: SessionId)
    | Stop(id: SessionId)
    | Resume(launch: nat, w: P.Outcome)
    | Exit(launch: nat)
    | BootVerify(id: SessionId, typ: P.AppType)

  predicate Unused(r: P.Reg, id: SessionId) {
    forall l :: 0 <= l < |r.launches| ==> r.launches[l].sid != id
  }

  /** Session ids never contain the verify suffix; every verify boot has an id of its own. */
  function Next(env: Env, s: Sys, ch: Choice): Sys {
    match ch
    case StoreCode(id, files) => if P.IsVerify(id) then s else s.(codes := s.codes[id := Versions(s, id) + [files]])
    case Start(id) => UserStart(s, id)
    case DoneTap(id) => OnDone(env, s, id)
    case Step(id, ok) => if id in s.jobs then JobStep(env, s, id, ok) else s
    case Settle(id) => if id in s.jobs && s.jobs[id] == Settled then Finish(s, id) else s
    case Stop(id) => s.(reg := P.Stop(s.reg, id))
    case Resume(l, w) => s.(reg := P.Next(env.max, s.reg, P.DoResume(l, w)))
    case Exit(l) => s.(reg := P.Next(env.max, s.reg, P.DoExit(l)))
    case BootVerify(id, typ) =>
      if P.IsVerify(id) && Unused(s.reg, id) then s.(reg := P.Begin(s.reg, id, typ, true, None)) else s
  }

  function RunFrom(env: Env, cs: seq<Choice>): Sys {
    if |cs| == 0 then INITIAL else Next(env, RunFrom(env, cs[..|cs| - 1]), cs[|cs| - 1])
  }

  // ----- the coordinator serializes

  ghost predicate LaunchHasJob(s: Sys, l: nat)
    requires l < |s.reg.launches|
  {
    var id := s.reg.launches[l].sid;
    !P.IsVerify(id) && InFlight(s.reg, l) ==> id in s.jobs && s.jobs[id] == Booting(l)
  }

  ghost predicate JobOk(s: Sys, id: SessionId) {
    id in s.jobs ==>
      match s.jobs[id]
      case Materializing(files, v, _) =>
        !P.IsVerify(id) && 1 <= v <= |Versions(s, id)| && files == Versions(s, id)[v - 1] && files != []
      case Booting(l) => !P.IsVerify(id) && l < |s.reg.launches| && s.reg.launches[l].sid == id
      case _ => true
  }

  ghost predicate Serialized(env: Env, s: Sys) {
    && LeakInv(s.reg) && Inv(env.max, s.reg)
    && (forall l :: 0 <= l < |s.reg.launches| ==> LaunchHasJob(s, l))
    && (forall id :: JobOk(s, id))
    && (forall id :: id in s.pending ==> id in s.jobs)
    && (forall id :: id in s.codes ==> !P.IsVerify(id))
  }

  lemma NotBootingIsIdle(env: Env, s: Sys, id: SessionId)
    requires Serialized(env, s) && !P.IsVerify(id) && (id in s.jobs ==> !s.jobs[id].Booting?)
    ensures Idle(s.reg, id)
  {
    forall l | 0 <= l < |s.reg.launches| && s.reg.launches[l].sid == id ensures !InFlight(s.reg, l) {
      assert LaunchHasJob(s, l);
    }
  }

  /** The registry moved on without a new launch. */
  lemma RegistryStep(env: Env, s: Sys, r': P.Reg)
    requires Serialized(env, s) && LeakInv(r') && Inv(env.max, r') && TokensAdvance(s.reg, r') && |r'.launches| == |s.reg.launches|
    ensures Serialized(env, s.(reg := r'))
  {
    var s' := s.(reg := r');
    forall l | 0 <= l < |r'.launches| ensures LaunchHasJob(s', l) {
      assert KeepsIdentity(s.reg.launches[l], r'.launches[l]);
      assert LaunchHasJob(s, l);
    }
    forall id ensures JobOk(s', id) {
      assert JobOk(s, id);
      if id in s.jobs && s.jobs[id].Booting? {
        assert KeepsIdentity(s.reg.launches[s.jobs[id].launch], r'.launches[s.jobs[id].launch]);
      }
    }
  }

  lemma ResumeSerialized(env: Env, s: Sys, l: nat, w: P.Outcome)
    requires Serialized(env, s)
    ensures Serialized(env, Next(env, s, Resume(l, w)))
  {
    if l < |s.reg.launches| {
      ResumeKeepsLeakInv(env.max, s.reg, l, w);
      ResumeKeeps(env.max, s.reg, l, w);
      RegistryStep(env, s, P.Resume(env.max, s.reg, l, w));
    }
  }

  lemma ExitSerialized(env: Env, s: Sys, l: nat)
    requires Serialized(env, s)
    ensures Serialized(env, Next(env, s, Exit(l)))
  {
    if l < |s.reg.launches| {
      ExitKeepsLeakInv(s.reg, l);
      ExitKeeps(env.max, s.reg, l);
      RegistryStep(env, s, P.Exit(s.reg, l));
    }
  }

  lemma StopSerialized(env: Env, s: Sys, id: SessionId)
    requires Serialized(env, s)
    ensures Serialized(env, Next(env, s, Stop(id)))
  {
    StopKeepsLeakInv(s.reg, id);
    StopKeeps(env.max, s.reg, id);
    RegistryStep(env, s, P.Stop(s.reg, id));
  }

  lemma BeginShape(r: P.Reg, id: SessionId, typ: P.AppType, mayEvict: bool, digest: Option<string>)
    ensures var r' := P.Begin(r, id, typ, mayEvict, digest);
      && |r'.launches| == |r.launches| + 1
      && r'.launches[|r.launches|].sid == id && r'.launches[|r.launches|].digest == digest
      && forall i :: 0 <= i < |r.launches| ==> KeepsIdentity(r.launches[i], r'.launches[i])
  {
    StopEffect(r, id);
    forall i | 0 <= i < |r.launches| ensures KeepsIdentity(r.launches[i], P.Stop(r, id).launches[i]) {
      assert StoppedLaunch(r, id, i, P.Stop(r, id).launches[i]);
    }
  }

  lemma BootVerifySerialized(env: Env, s: Sys, id: SessionId, typ: P.AppType)
    requires Serialized(env, s)
    ensures Serialized(env, Next(env, s, BootVerify(id, typ)))
  {
    if P.IsVerify(id) && Unused(s.reg, id) {
      var s' := Next(env, s, BootVerify(id, typ));
      BeginKeepsLeakInv(s.reg, id, typ, true, None);
      BeginKeeps(env.max, s.reg, id, typ, true, None);
      BeginShape(s.reg, id, typ, true, None);
      forall l | 0 <= l < |s'.reg.launches| ensures LaunchHasJob(s', l) {
        if l < |s.reg.launches| {
          assert LaunchHasJob(s, l) && KeepsIdentity(s.reg.launches[l], s'.reg.launches[l]);
        }
      }
      forall x ensures JobOk(s', x) {
        assert JobOk(s, x);
        if x in s.jobs && s.jobs[x].Booting? {
          assert KeepsIdentity(s.reg.launches[s.jobs[x].launch], s'.reg.launches[s.jobs[x].launch]);
        }
      }
    }
  }

  /** A session without a launch in flight changes its job to one that boots nothing. */
  lemma JobChange(env: Env, s: Sys, s': Sys, id: SessionId)
    requires Serialized(env, s) && s'.reg == s.reg && s'.codes == s.codes
    requires forall k :: k != id ==> (k in s'.jobs <==> k in s.jobs) && (k in s.jobs ==> s'.jobs[k] == s.jobs[k])
    requires P.IsVerify(id) || Idle(s.reg, id)
    requires JobOk(s', id)
    requires forall k :: k in s'.pending ==> k in s'.jobs
    ensures Serialized(env, s')
  {
    forall l | 0 <= l < |s'.reg.launches| ensures LaunchHasJob(s', l) {
      assert LaunchHasJob(s, l);
    }
    forall k ensures JobOk(s', k) {
      assert JobOk(s, k);
    }
  }

  lemma BootSerialized(env: Env, s: Sys, id: SessionId)
    requires Serialized(env, s) && id in s.jobs && s.jobs[id].Materializing?
    ensures Serialized(env, JobStep(env, s, id, true))
  {
    var s', j := JobStep(env, s, id, true), s.jobs[id];
    assert JobOk(s, id);
    NotBootingIsIdle(env, s, id);
    BeginKeepsLeakInv(s.reg, id, env.detect(j.files), j.mayEvict, Some(env.digestFiles(j.files)));
    BeginKeeps(env.max, s.reg, id, env.detect(j.files), j.mayEvict, Some(env.digestFiles(j.files)));
    BeginShape(s.reg, id, env.detect(j.files), j.mayEvict, Some(env.digestFiles(j.files)));
    forall l | 0 <= l < |s'.reg.launches| ensures LaunchHasJob(s', l) {
      if l < |s.reg.launches| {
        assert LaunchHasJob(s, l) && KeepsIdentity(s.reg.launches[l], s'.reg.launches[l]);
      }
    }
    forall x ensures JobOk(s', x) {
      assert JobOk(s, x);
      if x != id && x in s.jobs && s.jobs[x].Booting? {
        assert KeepsIdentity(s.reg.launches[s.jobs[x].launch], s'.reg.launches[s.jobs[x].launch]);
      }
    }
  }

  lemma SameJobsSerialized(env: Env, s: Sys, s': Sys)
    requires Serialized(env, s) && s'.reg == s.reg && s'.codes == s.codes && s'.jobs == s.jobs
    requires forall id :: id in s'.pending ==> id in s'.jobs
    ensures Serialized(env, s')
  {
    forall l | 0 <= l < |s'.reg.launches| ensures LaunchHasJob(s', l) {
      assert LaunchHasJob(s, l);
    }
    forall x ensures JobOk(s', x) {
      assert JobOk(s, x);
    }
  }

  lemma FreeSerialized(env: Env, s: Sys, id: SessionId)
    requires Serialized(env, s) && (id in s.jobs ==> !s.jobs[id].Booting?)
    ensures P.IsVerify(id) || Idle(s.reg, id)
  {
    if !P.IsVerify(id) {
      NotBootingIsIdle(env, s, id);
    }
  }

  lemma WithJobSerialized(env: Env, s: Sys, id: SessionId, j: Job)
    requires Serialized(env, s) && id in s.jobs && !s.jobs[id].Booting? && !j.Booting? && JobOk(WithJob(s, id, j), id)
    ensures Serialized(env, WithJob(s, id, j))
  {
    FreeSerialized(env, s, id);
    JobChange(env, s, WithJob(s, id, j), id);
  }

  lemma HistorySerialized(env: Env, s: Sys, s': Sys)
    requires Serialized(env, s) && s' == s.(confirmed := s'.confirmed, missed := s'.missed)
    ensures Serialized(env, s')
  {
    SameJobsSerialized(env, s, s');
  }

  lemma SettledSerialized(env: Env, s: Sys, id: SessionId)
    requires Serialized(env, s) && id in s.jobs && s.jobs[id].Booting?
    requires s.jobs[id].launch < |s.reg.launches| && s.reg.launches[s.jobs[id].launch].pc == P.Finished
    ensures Serialized(env, WithJob(s, id, Settled))
  {
    assert JobOk(s, id);
    forall k | 0 <= k < |s.reg.launches| && s.reg.launches[k].sid == id ensures !InFlight(s.reg, k) {
      assert LaunchHasJob(s, k);
    }
    JobChange(env, s, WithJob(s, id, Settled), id);
  }

  lemma ReadSerialized(env: Env, s: Sys, id: SessionId, mayEvict: bool)
    requires Serialized(env, s) && id in s.jobs && s.jobs[id].Reading? && Current(s, id) != []
    ensures Serialized(env, WithJob(s, id, Materializing(Current(s, id), |Versions(s, id)|, mayEvict)))
  {
    assert id in s.codes && |Versions(s, id)| >= 1;
    WithJobSerialized(env, s, id, Materializing(Current(s, id), |Versions(s, id)|, mayEvict));
  }

  lemma JobStepSerialized(env: Env, s: Sys, id: SessionId, ok: bool)
    requires Serialized(env, s) && id in s.jobs
    ensures Serialized(env, JobStep(env, s, id, ok))
  {
    if !s.jobs[id].Booting? {
      WithJobSerialized(env, s, id, Settled);
      HistorySerialized(env, WithJob(s, id, Settled), Miss(s, id));
    }
    match s.jobs[id]
    case Reading(mayEvict) =>
      if Current(s, id) != [] {
        ReadSerialized(env, s, id, mayEvict);
      }
    case Comparing(d) =>
      WithJobSerialized(env, s, id, Reading(false));
      HistorySerialized(env, WithJob(s, id, Settled),
                        WithJob(s, id, Settled).(confirmed := s.confirmed[id := |Versions(s, id)|], missed := s.missed - {id}));
    case Materializing(_, _, _) => if ok { BootSerialized(env, s, id); }
    case Booting(l) =>
      if l < |s.reg.launches| && s.reg.launches[l].pc == P.Finished {
        SettledSerialized(env, s, id);
      }
    case Settled =>
  }

  lemma StoreSerialized(env: Env, s: Sys, id: SessionId, files: Files)
    requires Serialized(env, s)
    ensures Serialized(env, Next(env, s, StoreCode(id, files)))
  {
    var s' := Next(env, s, StoreCode(id, files));
    forall l | 0 <= l < |s'.reg.launches| ensures LaunchHasJob(s', l) {
      assert LaunchHasJob(s, l);
    }
    forall x ensures JobOk(s', x) {
      assert JobOk(s, x);
    }
  }

  lemma StartSerialized(env: Env, s: Sys, id: SessionId)
    requires Serialized(env, s)
    ensures Serialized(env, UserStart(s, id))
  {
    if id !in s.jobs {
      FreeSerialized(env, s, id);
      JobChange(env, s, UserStart(s, id), id);
    }
  }

  lemma RestartSerialized(env: Env, s: Sys, id: SessionId)
    requires Serialized(env, s) && id !in s.jobs
    ensures Serialized(env, Restart(s, id))
  {
    FreeSerialized(env, s, id);
    var j := if !IsReady(s.reg, id) then Settled
             else match s.reg.entries[id].digest case Some(d) => Comparing(d) case None => Reading(false);
    JobChange(env, s, WithJob(s, id, j), id);
    assert Restart(s, id) == WithJob(s, id, j);
  }

  lemma FinishSerialized(env: Env, s: Sys, id: SessionId)
    requires Serialized(env, s) && id in s.jobs && s.jobs[id] == Settled
    ensures Serialized(env, Finish(s, id))
  {
    var s1 := s.(jobs := s.jobs - {id}, pending := s.pending - {id});
    FreeSerialized(env, s, id);
    JobChange(env, s, s1, id);
    if id in s.pending {
      RestartSerialized(env, s1, id);
    }
  }

  lemma DoneSerialized(env: Env, s: Sys, id: SessionId)
    requires Serialized(env, s)
    ensures Serialized(env, OnDone(env, s, id))
  {
    var s1 := s.(dones := s.dones[id := |Versions(s, id)|]);
    SameJobsSerialized(env, s, s1);
    if id in s.jobs {
      SameJobsSerialized(env, s1, OnDone(env, s, id));
    } else if id in s.reg.entries && s.reg.entries[id].status == P.Starting {
    } else if IsReady(s.reg, id) {
      RestartSerialized(env, s1, id);
    } else if !P.AtCapacity(env.max, s.reg) {
      FreeSerialized(env, s1, id);
      JobChange(env, s1, WithJob(s1, id, Reading(false)), id);
    }
  }

  lemma NextSerialized(env: Env, s: Sys, ch: Choice)
    requires Serialized(env, s)
    ensures Serialized(env, Next(env, s, ch))
  {
    match ch
    case StoreCode(id, files) => StoreSerialized(env, s, id, files);
    case Start(id) => StartSerialized(env, s, id);
    case DoneTap(id) => DoneSerialized(env, s, id);
    case Step(id, ok) => if id in s.jobs { JobStepSerialized(env, s, id, ok); }
    case Settle(id) => if id in s.jobs && s.jobs[id] == Settled { FinishSerialized(env, s, id); }
    case Stop(id) => StopSerialized(env, s, id);
    case Resume(l, w) => ResumeSerialized(env, s, l, w);
    case Exit(l) => ExitSerialized(env, s, l);
    case BootVerify(id, typ) => BootVerifySerialized(env, s, id, typ);
  }

  lemma {:induction false} RunSerialized(env: Env, cs: seq<Choice>)
    ensures Serialized(env, RunFrom(env, cs))
  {
    if |cs| > 0 {
      RunSerialized(env, cs[..|cs| - 1]);
      NextSerialized(env, RunFrom(env, cs[..|cs| - 1]), cs[|cs| - 1]);
    }
  }

  // ----- main results on resources

  /**
   Any interleaving of user starts, dones, stops, evictions, process exits, verify boots and store writes: at most one
   launch per session is in flight, and only sessions with a job can have a pending done.
   */
  lemma OneStartPerSession(env: Env, cs: seq<Choice>, l: nat, k: nat)
    requires var r := RunFrom(env, cs).reg;
      l < |r.launches| && k < |r.launches| && r.launches[l].sid == r.launches[k].sid && InFlight(r, l) && InFlight(r, k)
    ensures l == k
    ensures forall id :: id in RunFrom(env, cs).pending ==> id in RunFrom(env, cs).jobs
  {
    RunSerialized(env, cs);
    assert Apart(RunFrom(env, cs).reg, l, k);
  }

  /** And whenever no launch of a session is in flight, in particular when it has no job, nothing of it has leaked. */
  lemma IdleSessionLeaksNothing(env: Env, cs: seq<Choice>, id: SessionId)
    ensures var s := RunFrom(env, cs);
      && (!P.IsVerify(id) && id !in s.jobs ==> Idle(s.reg, id))
      && (Idle(s.reg, id) ==> NoLeak(s.reg, id))
  {
    var s := RunFrom(env, cs);
    RunSerialized(env, cs);
    if !P.IsVerify(id) && id !in s.jobs {
      NotBootingIsIdle(env, s, id);
    }
    if Idle(s.reg, id) {
      LeakInvMeansNoLeak(s.reg, id);
    }
  }

  /**
   The whole system, background prewarms and restarts included, stays within the cap: in entries that count, and in
   processes that actually run.
   */
  lemma SystemStaysWithinCap(env: Env, cs: seq<Choice>)
    requires env.max >= 1
    ensures |P.Heavy(RunFrom(env, cs).reg.entries)| <= env.max
    ensures |RunningLoad(RunFrom(env, cs).reg)| <= env.max
  {
    RunSerialized(env, cs);
    RunningWithinCap(env.max, RunFrom(env, cs).reg);
  }

  // ----- the coordinator object

  class Coordinator {
    const registry: P.Registry
    var inFlight: map<SessionId, Job>
    var pendingDone: set<SessionId>
    /** The rest of the system: the store and its history. */
    ghost var world: Sys

    ghost function AsSys(): Sys
      reads this, registry
    {
      world.(reg := registry.AsReg(), jobs := inFlight, pending := pendingDone)
    }

    constructor (registry: P.Registry)
      ensures this.registry == registry && inFlight == map[] && pendingDone == {}
    {
      this.registry := registry;
      inFlight, pendingDone, world := map[], {}, INITIAL;
    }

    /** The tail of `serialize`: the job becomes the session's only one. */
    method Launch(id: SessionId, j: Job)
      requires id !in inFlight
      modifies `inFlight
      ensures AsSys() == WithJob(old(AsSys()), id, j)
    {
      inFlight := inFlight[id := j];
    }

    /** An explicit start: joins the job in flight or becomes it. */
    method StartPreview(id: SessionId)
      modifies `inFlight
      ensures AsSys() == UserStart(old(AsSys()), id)
    {
      if id in inFlight { return; }
      Launch(id, Reading(true));
    }

    method RestartPreview(id: SessionId)
      requires id !in inFlight
      modifies `inFlight
      ensures AsSys() == Restart(old(AsSys()), id)
    {
      if id !in registry.entries || registry.entries[id].status != P.Ready {
        Launch(id, Settled);
      } else if registry.entries[id].digest.Some? {
        Launch(id, Comparing(registry.entries[id].digest.value));
      } else {
        Launch(id, Reading(false));
      }
    }

    /** The `done` tap. */
    method TapDone(env: Env, id: SessionId)
      requires registry.Valid() && registry.max == env.max
      modifies this
      ensures AsSys() == OnDone(env, old(AsSys()), id)
    {
      world := world.(dones := world.dones[id := |Versions(world, id)|]);
      if id in inFlight {
        pendingDone := pendingDone + {id};
        return;
      }
      if id in registry.entries && registry.entries[id].status == P.Starting { return; }
      if id in registry.entries && registry.entries[id].status == P.Ready {
        RestartPreview(id);
        return;
      }
      var full := registry.CheckCapacity();
      if full { return; }
      Launch(id, Reading(false));
    }

    /** The `finally` of a settled job. */
    method Drain(id: SessionId)
      requires id in inFlight
      modifies `inFlight, `pendingDone
      ensures AsSys() == Finish(old(AsSys()), id)
    {
      inFlight := inFlight - {id};
      if id in pendingDone {
        pendingDone := pendingDone - {id};
        RestartPreview(id);
      } else {
        assert pendingDone - {id} == pendingDone;
      }
    }
  }
}
