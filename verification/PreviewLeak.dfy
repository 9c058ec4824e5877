/**
 Nothing leaks when the starts of a session are serialized, wherever stops, evictions and exits land. Without that the
 ownership tokens alone do not prevent a leak.
 */
module PreviewLeak {
  import opened Wrappers
  import opened PreviewRegistry
  import opened PreviewCap

  predicate InFlight(r: Reg, l: nat)
    requires l < |r.launches|
  {
    r.launches[l].pc != Finished
  }

  /** While a launch of a session is in flight, no other launch of it is in flight or owns the session. */
  ghost predicate Apart(r: Reg, l: nat, k: nat)
    requires l < |r.launches| && k < |r.launches|
  {
    (l != k && r.launches[l].sid == r.launches[k].sid && InFlight(r, l)) ==> (!InFlight(r, k) && !Owns(r, k))
  }

  ghost predicate Alone(r: Reg) {
    forall l, k :: 0 <= l < |r.launches| && 0 <= k < |r.launches| ==> Apart(r, l, k)
  }

  /** The launch is the one its session tracks, and its entry is `ready` on its port. */
  ghost predicate Serving(r: Reg, l: nat)
    requires l < |r.launches|
  {
    var o := r.launches[l];
    && o.watched && Owns(r, l)
    && o.sid in r.procs && r.procs[o.sid] == l
    && o.sid in r.entries && r.entries[o.sid].status == Ready && r.entries[o.sid].port == o.port
    && r.entries[o.sid].typ.None?
  }

  ghost predicate Clean(o: Launch) {
    o.proc != Running && (o.port.None? || o.released)
  }

  ghost predicate Tracked(r: Reg, l: nat)
    requires l < |r.launches|
  {
    var o := r.launches[l];
    if Owns(r, l) then o.sid in r.procs && r.procs[o.sid] == l else o.sid !in r.procs && o.proc != Running
  }

  ghost predicate LaunchOk(r: Reg, l: nat)
    requires l < |r.launches|
  {
    var o := r.launches[l];
    && (o.exited ==> o.proc == Gone)
    && (o.watched ==> o.pc == Finished)
    && match o.pc
       case Finished => Clean(o) || Serving(r, l)
       case Probing => o.port.Some? && Tracked(r, l)
       case Sleeping => o.port.Some? && Tracked(r, l)
       case ExitTeardown => Clean(o) && Tracked(r, l)
       case TimeoutTeardown => Clean(o) && Tracked(r, l)
       case StandDown => Clean(o) && !Owns(r, l) && o.sid !in r.procs
       case _ => o.proc == NotLaunched && o.port.None? && o.sid !in r.procs
  }

  predicate Booted(pc: Pc) {
    pc == Probing || pc == Sleeping || pc == ExitTeardown || pc == TimeoutTeardown
  }

  /** A tracked process belongs to the owner of the session, which is booting it or serving. */
  ghost predicate ProcOk(r: Reg, id: SessionId) {
    id in r.procs ==>
      var l := r.procs[id];
      l < |r.launches| && r.launches[l].sid == id && Owns(r, l)
      && (Booted(r.launches[l].pc) || (!InFlight(r, l) && Serving(r, l)))
  }

  ghost predicate LeakInv(r: Reg) {
    && TokensOk(r)
    && Alone(r)
    && (forall l :: 0 <= l < |r.launches| ==> LaunchOk(r, l))
    && (forall id :: ProcOk(r, id))
  }

  // ----- a step that touches one launch and its session

  ghost predicate Elsewhere<V>(m: map<SessionId, V>, m': map<SessionId, V>, id: SessionId) {
    forall k :: k != id ==> (k in m' <==> k in m) && (k in m ==> m'[k] == m[k])
  }

  ghost predicate OwnFrame(r: Reg, r': Reg, l: nat) {
    && l < |r.launches| == |r'.launches|
    && r'.launches[l].sid == r.launches[l].sid
    && (forall i :: 0 <= i < |r.launches| && i != l ==>
          SameCore(r.launches[i], r'.launches[i]) && r'.launches[i].proc == r.launches[i].proc)
    && Elsewhere(r.entries, r'.entries, r.launches[l].sid)
    && Elsewhere(r.procs, r'.procs, r.launches[l].sid)
    && Elsewhere(r.tokens, r'.tokens, r.launches[l].sid)
  }

  /** The other launches of the session are finished and have lost it, before and after. */
  ghost predicate OthersGone(r: Reg, r': Reg, l: nat)
    requires l < |r.launches| <= |r'.launches|
  {
    forall k :: 0 <= k < |r.launches| && k != l && r.launches[k].sid == r.launches[l].sid ==>
      !InFlight(r, k) && !Owns(r, k) && !Owns(r', k)
  }

  lemma OwnStepKeeps(r: Reg, r': Reg, l: nat)
    requires LeakInv(r) && TokensOk(r') && OwnFrame(r, r', l) && OthersGone(r, r', l)
    requires InFlight(r', l) ==> InFlight(r, l)
    requires LaunchOk(r', l) && ProcOk(r', r.launches[l].sid)
    ensures LeakInv(r')
  {
    var sid := r.launches[l].sid;
    forall k | 0 <= k < |r'.launches| ensures LaunchOk(r', k) {
      if k != l {
        OtherLaunchOk(r, r', l, k);
      }
    }
    forall id ensures ProcOk(r', id) {
      if id != sid && id in r'.procs {
        assert ProcOk(r, id);
        var k := r.procs[id];
        assert SameCore(r.launches[k], r'.launches[k]);
      }
    }
    forall i, k | 0 <= i < |r'.launches| && 0 <= k < |r'.launches| ensures Apart(r', i, k) {
      ApartAfter(r, r', l, i, k);
    }
  }

  lemma OtherLaunchOk(r: Reg, r': Reg, l: nat, k: nat)
    requires LeakInv(r) && OwnFrame(r, r', l) && OthersGone(r, r', l) && k < |r.launches| && k != l
    ensures LaunchOk(r', k)
  {
    assert LaunchOk(r, k);
    assert SameCore(r.launches[k], r'.launches[k]);
  }

  lemma ApartAfter(r: Reg, r': Reg, l: nat, i: nat, k: nat)
    requires LeakInv(r) && OwnFrame(r, r', l) && OthersGone(r, r', l)
    requires InFlight(r', l) ==> InFlight(r, l)
    requires i < |r.launches| && k < |r.launches|
    ensures Apart(r', i, k)
  {
    assert i != l ==> SameCore(r.launches[i], r'.launches[i]);
    assert k != l ==> SameCore(r.launches[k], r'.launches[k]);
    assert Apart(r, i, k);
  }

  // ----- stop and start

  lemma StopKeepsLeakInv(r: Reg, id: SessionId)
    requires LeakInv(r)
    ensures LeakInv(Stop(r, id))
    ensures id !in Stop(r, id).procs
  {
    var r' := Stop(r, id);
    StopEffect(r, id);
    forall k | 0 <= k < |r'.launches| ensures LaunchOk(r', k) {
      StoppedLaunchOk(r, id, k);
    }
    forall x ensures ProcOk(r', x) {
      if x in r'.procs {
        assert ProcOk(r, x);
        assert StoppedLaunch(r, id, r.procs[x], r'.launches[r.procs[x]]);
      }
    }
    forall i, k | 0 <= i < |r'.launches| && 0 <= k < |r'.launches| ensures Apart(r', i, k) {
      StoppedApart(r, id, i, k);
    }
    assert TokensOk(r');
  }

  lemma StoppedApart(r: Reg, id: SessionId, i: nat, k: nat)
    requires LeakInv(r) && i < |r.launches| && k < |r.launches|
    ensures Apart(Stop(r, id), i, k)
    ensures InFlight(Stop(r, id), i) == InFlight(r, i)
    ensures r.launches[k].sid == id ==> !Owns(Stop(r, id), k)
  {
    StopEffect(r, id);
    assert StoppedLaunch(r, id, i, Stop(r, id).launches[i]) && StoppedLaunch(r, id, k, Stop(r, id).launches[k]);
    assert Apart(r, i, k);
  }

  lemma StoppedLaunchOk(r: Reg, id: SessionId, k: nat)
    requires LeakInv(r) && k < |r.launches|
    ensures LaunchOk(Stop(r, id), k)
  {
    StopEffect(r, id);
    assert StoppedLaunch(r, id, k, Stop(r, id).launches[k]);
    assert LaunchOk(r, k);
    if r.launches[k].sid == id {
      OwnStoppedLaunchOk(r, id, k);
    } else {
      assert ProcOk(r, id);
    }
  }

  /** A launch of the stopped session no longer owns it; what it served is killed and its port released. */
  lemma OwnStoppedLaunchOk(r: Reg, id: SessionId, k: nat)
    requires LeakInv(r) && k < |r.launches| && r.launches[k].sid == id
    ensures LaunchOk(Stop(r, id), k)
  {
    StopEffect(r, id);
    assert StoppedLaunch(r, id, k, Stop(r, id).launches[k]);
    assert LaunchOk(r, k);
    assert !Owns(Stop(r, id), k);
  }

  lemma BeginKeepsLeakInv(r: Reg, id: SessionId, typ: AppType, mayEvict: bool, digest: Option<string>)
    requires LeakInv(r)
    requires forall k :: 0 <= k < |r.launches| && r.launches[k].sid == id ==> !InFlight(r, k)
    ensures LeakInv(Begin(r, id, typ, mayEvict, digest))
  {
    StopKeepsLeakInv(r, id);
    StopEffect(r, id);
    forall k | 0 <= k < |r.launches| && r.launches[k].sid == id ensures !InFlight(Stop(r, id), k) && !Owns(Stop(r, id), k) {
      StoppedApart(r, id, k, k);
    }
    forall k | 0 <= k < |r.launches| ensures Stop(r, id).launches[k].sid == r.launches[k].sid {
      assert StoppedLaunch(r, id, k, Stop(r, id).launches[k]);
    }
    AppendKeepsLeakInv(Stop(r, id), Launch(id, typ, mayEvict, digest, None, Stopping, None, false, NotLaunched, false, false));
  }

  lemma AppendKeepsLeakInv(r: Reg, o: Launch)
    requires LeakInv(r) && o.sid !in r.procs
    requires o.pc == Stopping && o.token.None? && o.proc == NotLaunched && o.port.None? && !o.exited && !o.watched
    requires forall k :: 0 <= k < |r.launches| && r.launches[k].sid == o.sid ==> !InFlight(r, k) && !Owns(r, k)
    ensures LeakInv(r.(launches := r.launches + [o]))
  {
    var r' := r.(launches := r.launches + [o]);
    forall k | 0 <= k < |r'.launches| ensures LaunchOk(r', k) {
      if k < |r.launches| {
        assert LaunchOk(r, k);
      }
    }
    forall x ensures ProcOk(r', x) {
      assert ProcOk(r, x);
    }
    forall i, k | 0 <= i < |r'.launches| && 0 <= k < |r'.launches| ensures Apart(r', i, k) {
      if i < |r.launches| && k < |r.launches| {
        assert Apart(r, i, k);
      }
    }
    assert TokensOk(r');
  }

  // ----- the steps of a launch; `Inv` supplies the tokens of the state they lead to

  lemma OthersGoneInFlight(r: Reg, r': Reg, l: nat)
    requires LeakInv(r) && OwnFrame(r, r', l) && r'.tokens == r.tokens
    requires InFlight(r, l) || Owns(r, l)
    ensures OthersGone(r, r', l)
  {
    forall k | 0 <= k < |r.launches| && k != l && r.launches[k].sid == r.launches[l].sid
      ensures !InFlight(r, k) && !Owns(r, k) && !Owns(r', k)
    {
      assert SameCore(r.launches[k], r'.launches[k]);
      assert Apart(r, l, k) && Apart(r, k, l);
      if !InFlight(r, l) {
        if k < l {
          assert r.launches[k].token.Some? ==> r.launches[k].token != r.launches[l].token;
        } else {
          assert r.launches[l].token.Some? ==> r.launches[l].token != r.launches[k].token;
        }
      }
    }
  }

  ghost predicate SameTokens(r: Reg, r': Reg, l: nat)
    requires l < |r.launches| == |r'.launches|
  {
    && r'.tokens == r.tokens && r'.launchSeq == r.launchSeq && r'.launches[l].token == r.launches[l].token
    && (r'.launches[l].pc == Stopping <==> r.launches[l].pc == Stopping)
  }

  /** The usual step: tokens unchanged, the launch was in flight or owns its session. */
  lemma StepKeepsLeakInv(r: Reg, r': Reg, l: nat)
    requires LeakInv(r) && OwnFrame(r, r', l) && SameTokens(r, r', l)
    requires InFlight(r, l) || (Owns(r, l) && !InFlight(r', l))
    requires LaunchOk(r', l) && ProcOk(r', r.launches[l].sid)
    ensures LeakInv(r')
  {
    OthersGoneInFlight(r, r', l);
    assert TokensOk(r');
    OwnStepKeeps(r, r', l);
  }

  predicate Unlaunched(pc: Pc) {
    !Booted(pc) && pc != StandDown && pc != Finished
  }

  lemma AtUnlaunched(r: Reg, l: nat, pc: Pc)
    requires LeakInv(r) && l < |r.launches| && Unlaunched(r.launches[l].pc) && r.launches[l].pc != Stopping
    requires pc != Stopping && (Unlaunched(pc) || pc == Finished)
    ensures LeakInv(At(r, l, pc))
  {
    assert LaunchOk(r, l);
    StepKeepsLeakInv(r, At(r, l, pc), l);
  }

  /** Before it has a process, a launch may write its entry and go on or finish. */
  lemma SetUnlaunched(r: Reg, l: nat, e: Entry, pc: Pc)
    requires LeakInv(r) && l < |r.launches| && Unlaunched(r.launches[l].pc) && r.launches[l].pc != Stopping
    requires pc != Stopping && (Unlaunched(pc) || pc == Finished)
    ensures LeakInv(At(Set(r, r.launches[l].sid, e), l, pc))
  {
    var r' := At(Set(r, r.launches[l].sid, e), l, pc);
    assert LaunchOk(r, l);
    StepKeepsLeakInv(r, r', l);
  }

  lemma FinishUnlaunched(r: Reg, l: nat, e: Entry)
    requires LeakInv(r) && l < |r.launches| && Unlaunched(r.launches[l].pc) && r.launches[l].pc != Stopping
    ensures LeakInv(FinishWith(r, l, e))
  {
    if Owns(r, l) {
      SetUnlaunched(r, l, e, Finished);
      assert FinishWith(r, l, e) == At(Set(r, r.launches[l].sid, e), l, Finished);
    } else {
      AtUnlaunched(r, l, Finished);
    }
  }

  lemma ClaimLeak(r: Reg, l: nat)
    requires LeakInv(r) && l < |r.launches| && r.launches[l].pc == Evicting
    ensures LeakInv(Claim(r, l))
  {
    if Owns(r, l) {
      SetUnlaunched(r, l, Entry(Starting, None, None, None, l), Preflight);
    } else {
      AtUnlaunched(r, l, Finished);
    }
  }

  lemma EvictTopLeak(max: nat, r: Reg, l: nat)
    requires LeakInv(r) && l < |r.launches| && r.launches[l].pc == Evicting
    ensures LeakInv(EvictTop(max, r, l))
  {
    if AtCapacity(max, r) && Oldest(r.order, r.entries).Some? {
      var oldest := Oldest(r.order, r.entries).value;
      StopKeepsLeakInv(r, oldest);
      StopEffect(r, oldest);
      AtUnlaunched(Stop(r, oldest), l, Evicting);
    } else {
      ClaimLeak(r, l);
    }
  }

  lemma MintLeak(r: Reg, l: nat)
    requires LeakInv(r) && l < |r.launches| && r.launches[l].pc == Stopping
    ensures LeakInv(Mint(r, l))
  {
    var r' := Mint(r, l);
    assert LaunchOk(r, l) && InFlight(r, l);
    assert TokensOk(r');
    forall k | 0 <= k < |r.launches| && k != l && r.launches[k].sid == r.launches[l].sid
      ensures !InFlight(r, k) && !Owns(r, k) && !Owns(r', k)
    {
      assert Apart(r, l, k);
    }
    OwnStepKeeps(r, r', l);
  }

  lemma AfterStopLeak(max: nat, r: Reg, l: nat)
    requires LeakInv(r) && l < |r.launches| && r.launches[l].pc == Stopping
    ensures LeakInv(AfterStop(max, r, l))
  {
    MintLeak(r, l);
    var m, o := Mint(r, l), r.launches[l];
    if o.typ == StaticApp {
      FinishUnlaunched(m, l, Entry(Ready, Some(StaticApp), None, o.digest, l));
    } else if o.typ == OtherApp {
      AtUnlaunched(m, l, UnsupportedTeardown);
    } else if IsVerify(o.sid) {
      ClaimLeak(m, l);
    } else if o.mayEvict {
      EvictTopLeak(max, m, l);
    } else if AtCapacity(max, m) {
      AtUnlaunched(m, l, DeclineTeardown);
    } else {
      ClaimLeak(m, l);
    }
  }

  lemma GiveBackLeak(r: Reg, l: nat, pc: Pc)
    requires LeakInv(r) && l < |r.launches|
    requires r.launches[l].pc == Probing || r.launches[l].pc == Sleeping
    requires (pc == StandDown && !Owns(r, l)) || pc == TimeoutTeardown
    ensures LeakInv(GiveBack(r, l, pc))
  {
    assert LaunchOk(r, l);
    GiveBackEffect(r, l, pc);
    var r' := GiveBack(r, l, pc);
    GiveBackOthers(r, l, pc);
    assert ProcOk(r, r.launches[l].sid);
    StepKeepsLeakInv(r, r', l);
  }

  lemma GiveBackOthers(r: Reg, l: nat, pc: Pc)
    requires l < |r.launches|
    ensures OwnFrame(r, GiveBack(r, l, pc), l)
  {
    KillEffect(r, l);
    ReleaseEffect(Kill(r, l), r.launches[l].port);
  }

  lemma LoopTopLeak(r: Reg, l: nat)
    requires LeakInv(r) && l < |r.launches|
    requires r.launches[l].pc == Probing || r.launches[l].pc == Sleeping
    ensures LeakInv(LoopTop(r, l))
  {
    assert LaunchOk(r, l);
    if !Owns(r, l) {
      GiveBackLeak(r, l, StandDown);
    } else {
      var r' := LoopTop(r, l);
      if r.launches[l].exited {
        ReleaseEffect(r, r.launches[l].port);
      }
      assert ProcOk(r, r.launches[l].sid);
      StepKeepsLeakInv(r, r', l);
    }
  }

  /** The port is allocated: a superseded launch gives it back at once, the owner launches and probes. */
  lemma LaunchedLeak(r: Reg, l: nat, port: nat)
    requires LeakInv(r) && l < |r.launches| && r.launches[l].pc == Allocating
    ensures LeakInv(Launched(r, l, port))
  {
    if Owns(r, l) {
      OwnerLaunchedLeak(r, l, port);
    } else {
      SupersededLaunchedLeak(r, l, port);
    }
  }

  lemma OwnerLaunchedLeak(r: Reg, l: nat, port: nat)
    requires LeakInv(r) && l < |r.launches| && r.launches[l].pc == Allocating && Owns(r, l)
    ensures LeakInv(Launched(r, l, port))
  {
    assert LaunchOk(r, l);
    var o := r.launches[l];
    var r' := r.(launches := r.launches[l := o.(port := Some(port), released := false, proc := Running, pc := Probing)],
                 procs := r.procs[o.sid := l]);
    StepKeepsLeakInv(r, r', l);
    assert Launched(r, l, port) == r';
  }

  lemma SupersededLaunchedLeak(r: Reg, l: nat, port: nat)
    requires LeakInv(r) && l < |r.launches| && r.launches[l].pc == Allocating && !Owns(r, l)
    ensures LeakInv(Launched(r, l, port))
  {
    assert LaunchOk(r, l);
    var r1 := r.(launches := r.launches[l := r.launches[l].(port := Some(port), released := false)]);
    var r' := GiveBack(r1, l, StandDown);
    GiveBackEffect(r1, l, StandDown);
    GiveBackOthers(r1, l, StandDown);
    forall i | 0 <= i < |r.launches| && i != l
      ensures SameCore(r.launches[i], r'.launches[i]) && r'.launches[i].proc == r.launches[i].proc
    {
      assert r1.launches[i] == r.launches[i];
    }
    StepKeepsLeakInv(r, r', l);
  }

  lemma ProbedLeak(r: Reg, l: nat, answered: bool, timeUp: bool)
    requires LeakInv(r) && l < |r.launches| && r.launches[l].pc == Probing
    ensures LeakInv(Probed(r, l, answered, timeUp))
  {
    if answered {
      if Owns(r, l) {
        ReadyLeak(r, l);
      } else {
        GiveBackLeak(r, l, StandDown);
      }
    } else if timeUp {
      GiveBackLeak(r, l, TimeoutTeardown);
    } else {
      assert LaunchOk(r, l) && ProcOk(r, r.launches[l].sid);
      StepKeepsLeakInv(r, At(r, l, Sleeping), l);
    }
  }

  /** From now on the launch serves. */
  lemma ReadyLeak(r: Reg, l: nat)
    requires LeakInv(r) && l < |r.launches| && r.launches[l].pc == Probing && Owns(r, l)
    ensures LeakInv(Probed(r, l, true, false))
  {
    assert LaunchOk(r, l) && ProcOk(r, r.launches[l].sid);
    var o := r.launches[l];
    var r' := Set(r, o.sid, Entry(Ready, None, o.port, o.digest, l)).(launches := r.launches[l := o.(watched := true, pc := Finished)]);
    StepKeepsLeakInv(r, r', l);
    ReadyIs(r, l);
  }

  lemma ReadyIs(r: Reg, l: nat)
    requires l < |r.launches| && Owns(r, l)
    ensures var o := r.launches[l];
      Probed(r, l, true, false) ==
      Set(r, o.sid, Entry(Ready, None, o.port, o.digest, l)).(launches := r.launches[l := o.(watched := true, pc := Finished)])
  {
  }

  lemma UntrackedLeak(r: Reg, l: nat)
    requires LeakInv(r) && l < |r.launches|
    requires r.launches[l].pc == ExitTeardown || r.launches[l].pc == TimeoutTeardown
    ensures LeakInv(FinishUntracked(r, l, FailedEntry(r, l)))
  {
    assert LaunchOk(r, l);
    if Owns(r, l) {
      OwnerUntrackedLeak(r, l, FailedEntry(r, l));
      UntrackedIs(r, l, FailedEntry(r, l));
    } else {
      StepKeepsLeakInv(r, At(r, l, Finished), l);
    }
  }

  lemma OwnerUntrackedLeak(r: Reg, l: nat, e: Entry)
    requires LeakInv(r) && l < |r.launches| && Owns(r, l)
    requires r.launches[l].pc == ExitTeardown || r.launches[l].pc == TimeoutTeardown
    ensures var o := r.launches[l];
      LeakInv(Set(r, o.sid, e).(procs := r.procs - {o.sid}, launches := r.launches[l := o.(pc := Finished)]))
  {
    assert LaunchOk(r, l);
    var o := r.launches[l];
    StepKeepsLeakInv(r, Set(r, o.sid, e).(procs := r.procs - {o.sid}, launches := r.launches[l := o.(pc := Finished)]), l);
  }

  lemma UntrackedIs(r: Reg, l: nat, e: Entry)
    requires l < |r.launches| && Owns(r, l)
    ensures var o := r.launches[l];
      FinishUntracked(r, l, e) ==
      Set(r, o.sid, e).(procs := r.procs - {o.sid}, launches := r.launches[l := o.(pc := Finished)])
  {
  }

  lemma StandDownLeak(r: Reg, l: nat)
    requires LeakInv(r) && l < |r.launches| && r.launches[l].pc == StandDown
    ensures LeakInv(At(r, l, Finished))
  {
    assert LaunchOk(r, l);
    StepKeepsLeakInv(r, At(r, l, Finished), l);
  }

  lemma ResumeKeepsLeakInv(max: nat, r: Reg, l: nat, w: Outcome)
    requires LeakInv(r) && l < |r.launches|
    ensures LeakInv(Resume(max, r, l, w))
  {
    var o := r.launches[l];
    match o.pc
    case Stopping => AfterStopLeak(max, r, l);
    case UnsupportedTeardown => FinishUnlaunched(r, l, Entry(Unsupported, Some(o.typ), None, None, l));
    case DeclineTeardown => FinishUnlaunched(r, l, Entry(Stopped, None, None, None, l));
    case Evicting => EvictTopLeak(max, r, l);
    case Preflight =>
      AtUnlaunched(r, l, match w case Okay(_) => Installing case NotOkay(_) => PreflightTeardown case Rejected => Finished);
    case PreflightTeardown => FinishUnlaunched(r, l, FailedEntry(r, l));
    case Installing =>
      AtUnlaunched(r, l, match w case Okay(_) => Allocating case NotOkay(_) => InstallTeardown case Rejected => Finished);
    case InstallTeardown => FinishUnlaunched(r, l, FailedEntry(r, l));
    case Allocating => if w.Okay? { LaunchedLeak(r, l, w.port); } else { AtUnlaunched(r, l, Finished); }
    case StandDown => StandDownLeak(r, l);
    case Probing => ProbedLeak(r, l, w.Okay?, w.NotOkay? && w.timeUp);
    case Sleeping => LoopTopLeak(r, l);
    case ExitTeardown => UntrackedLeak(r, l);
    case TimeoutTeardown => UntrackedLeak(r, l);
    case Finished =>
  }

  lemma ExitKeepsLeakInv(r: Reg, l: nat)
    requires LeakInv(r) && l < |r.launches|
    ensures LeakInv(Exit(r, l))
  {
    if Exit(r, l) != r {
      if InFlight(r, l) {
        BootExit(r, l);
      } else if Owns(r, l) {
        CrashExit(r, l);
      } else {
        SilentExit(r, l);
      }
    }
  }

  lemma BootExit(r: Reg, l: nat)
    requires LeakInv(r) && l < |r.launches| && InFlight(r, l) && Exit(r, l) != r
    ensures LeakInv(Exit(r, l))
  {
    assert LaunchOk(r, l) && ProcOk(r, r.launches[l].sid);
    StepKeepsLeakInv(r, Exit(r, l), l);
  }

  /** The crash watch: whatever served is untracked and its port released. */
  lemma CrashExit(r: Reg, l: nat)
    requires LeakInv(r) && l < |r.launches| && !InFlight(r, l) && Owns(r, l) && Exit(r, l) != r
    ensures LeakInv(Exit(r, l))
  {
    var r' := Exit(r, l);
    assert LaunchOk(r, l) && ProcOk(r, r.launches[l].sid);
    CrashFrame(r, l);
    StepKeepsLeakInv(r, r', l);
  }

  lemma CrashFrame(r: Reg, l: nat)
    requires l < |r.launches| && Owns(r, l) && Exit(r, l) != r
    ensures OwnFrame(r, Exit(r, l), l) && SameTokens(r, Exit(r, l), l)
    ensures var o, o' := r.launches[l], Exit(r, l).launches[l];
      o' == o.(proc := Gone, exited := true, released := o'.released)
      && (Serving(r, l) ==> o.sid !in Exit(r, l).procs && (o.port.Some? ==> o'.released))
      && (o.released ==> o'.released)
      && (Exit(r, l).procs == r.procs || o.sid !in Exit(r, l).procs)
  {
    var o := r.launches[l];
    ReleaseEffect(r.(launches := r.launches[l := o.(proc := Gone, exited := true)]), o.port);
  }

  /** A process that no longer matters exits: only its own record changes. */
  lemma SilentExit(r: Reg, l: nat)
    requires LeakInv(r) && l < |r.launches| && !InFlight(r, l) && !Owns(r, l)
    ensures LeakInv(r.(launches := r.launches[l := r.launches[l].(proc := Gone, exited := true)]))
  {
    var r' := r.(launches := r.launches[l := r.launches[l].(proc := Gone, exited := true)]);
    assert LaunchOk(r, l);
    forall k | 0 <= k < |r'.launches| ensures LaunchOk(r', k) {
      assert LaunchOk(r, k);
    }
    forall id ensures ProcOk(r', id) {
      assert ProcOk(r, id);
    }
    forall i, k | 0 <= i < |r'.launches| && 0 <= k < |r'.launches| ensures Apart(r', i, k) {
      assert Apart(r, i, k);
    }
    assert TokensOk(r');
  }

  // ----- main results

  ghost predicate Idle(r: Reg, id: SessionId) {
    forall l :: 0 <= l < |r.launches| && r.launches[l].sid == id ==> !InFlight(r, l)
  }

  /** No start of a session begins while another one of it is in flight. */
  ghost predicate StartsSerialized(max: nat, cs: seq<Choice>) {
    |cs| == 0 || (var init, last := cs[..|cs| - 1], cs[|cs| - 1];
                  StartsSerialized(max, init) && (last.DoBegin? ==> Idle(RunFrom(max, EMPTY, init), last.id)))
  }

  lemma NextKeepsLeakInv(max: nat, r: Reg, ch: Choice)
    requires LeakInv(r) && (ch.DoBegin? ==> Idle(r, ch.id))
    ensures LeakInv(Next(max, r, ch))
  {
    match ch
    case DoBegin(id, typ, mayEvict, digest) => BeginKeepsLeakInv(r, id, typ, mayEvict, digest);
    case DoResume(l, w) => if l < |r.launches| { ResumeKeepsLeakInv(max, r, l, w); }
    case DoExit(l) => if l < |r.launches| { ExitKeepsLeakInv(r, l); }
    case DoStop(id) => StopKeepsLeakInv(r, id);
  }

  lemma {:induction false} RunKeepsLeakInv(max: nat, cs: seq<Choice>)
    requires StartsSerialized(max, cs)
    ensures LeakInv(RunFrom(max, EMPTY, cs))
  {
    if |cs| > 0 {
      RunKeepsLeakInv(max, cs[..|cs| - 1]);
      NextKeepsLeakInv(max, RunFrom(max, EMPTY, cs[..|cs| - 1]), cs[|cs| - 1]);
    }
  }

  /** The one launch that may hold resources of an idle session: tracked, `ready`, on its own port. */
  ghost predicate Holds(r: Reg, id: SessionId, l: nat) {
    && id in r.procs && r.procs[id] == l && l < |r.launches| && r.launches[l].sid == id
    && id in r.entries && r.entries[id].status == Ready && r.entries[id].port == r.launches[l].port
  }

  /** What an idle session may hold: at most the process and port of its tracked, `ready` launch. */
  ghost predicate NoLeak(r: Reg, id: SessionId) {
    && (forall l :: 0 <= l < |r.launches| && r.launches[l].sid == id && r.launches[l].proc == Running ==> Holds(r, id, l))
    && (forall l :: 0 <= l < |r.launches| && r.launches[l].sid == id && r.launches[l].port.Some? && !r.launches[l].released ==>
          Holds(r, id, l))
    && (id in r.procs ==> Holds(r, id, r.procs[id]))
  }

  lemma LeakInvMeansNoLeak(r: Reg, id: SessionId)
    requires LeakInv(r) && Idle(r, id)
    ensures NoLeak(r, id)
  {
    forall l | 0 <= l < |r.launches| && r.launches[l].sid == id && !Clean(r.launches[l]) ensures Holds(r, id, l) {
      assert LaunchOk(r, l);
    }
    assert ProcOk(r, id);
  }

  /** With serialized starts and stops, evictions and exits anywhere, an idle session leaks no process and no port. */
  lemma NothingLeaks(max: nat, cs: seq<Choice>, id: SessionId)
    requires StartsSerialized(max, cs) && Idle(RunFrom(max, EMPTY, cs), id)
    ensures NoLeak(RunFrom(max, EMPTY, cs), id)
  {
    RunKeepsLeakInv(max, cs);
    LeakInvMeansNoLeak(RunFrom(max, EMPTY, cs), id);
  }

  /** The launches whose process runs and counts as load: all but verify boots. */
  function RunningLoad(r: Reg): set<nat> {
    set l: nat | l < |r.launches| && r.launches[l].proc == Running && !IsVerify(r.launches[l].sid)
  }

  /** A running process is the tracked one of a session whose entry counts. */
  lemma RunningIsHeavy(max: nat, r: Reg, l: nat)
    requires LeakInv(r) && Inv(max, r) && l in RunningLoad(r)
    ensures var id := r.launches[l].sid; id in Heavy(r.entries) && id in r.procs && r.procs[id] == l
  {
    assert LaunchOk(r, l) && ClaimOk(r, l);
  }

  lemma {:induction false} NoMoreThanHeavy(r: Reg, ls: set<nat>, ids: set<SessionId>)
    requires forall l :: l in ls ==> l < |r.launches|
    requires forall l :: l in ls ==> var id := r.launches[l].sid; id in ids && id in r.procs && r.procs[id] == l
    ensures |ls| <= |ids|
    decreases |ls|
  {
    if l :| l in ls {
      NoMoreThanHeavy(r, ls - {l}, ids - {r.launches[l].sid});
    }
  }

  /** Not only entries: with serialized starts at most `max` processes run, verify boots aside. */
  lemma RunningWithinCap(max: nat, r: Reg)
    requires max >= 1 && LeakInv(r) && Inv(max, r)
    ensures |RunningLoad(r)| <= max
  {
    forall l | l in RunningLoad(r)
      ensures var id := r.launches[l].sid; id in Heavy(r.entries) && id in r.procs && r.procs[id] == l
    {
      RunningIsHeavy(max, r, l);
    }
    NoMoreThanHeavy(r, RunningLoad(r), Heavy(r.entries));
  }

  // ----- why the starts must be serialized

  lemma RunSnoc(max: nat, r: Reg, cs: seq<Choice>, c: Choice)
    ensures RunFrom(max, r, cs + [c]) == Next(max, RunFrom(max, r, cs), c)
  {
    assert (cs + [c])[..|cs|] == cs;
  }

  /** A launch left to itself with room under the cap and all calls succeeding: five steps to `ready`. */
  function BootSteps(l: nat, port: nat): seq<Choice> {
    [DoResume(l, Okay(0)), DoResume(l, Okay(0)), DoResume(l, Okay(0)), DoResume(l, Okay(port)), DoResume(l, Okay(0))]
  }

  function ReadyState(r: Reg, l: nat, port: nat): Reg
    requires l < |r.launches|
  {
    var o, t := r.launches[l], r.launchSeq + 1;
    Set(r, o.sid, Entry(Ready, None, Some(port), o.digest, l)).(
      procs := r.procs[o.sid := l], launchSeq := t, tokens := r.tokens[o.sid := t],
      launches := r.launches[l := o.(token := Some(t), pc := Finished, port := Some(port), released := false, proc := Running,
                                     watched := true)])
  }

  lemma RunTwo(max: nat, r: Reg, cs: seq<Choice>, a: Choice, b: Choice)
    ensures RunFrom(max, r, cs + [a, b]) == Next(max, Next(max, RunFrom(max, r, cs), a), b)
  {
    RunSnoc(max, r, cs, a);
    RunSnoc(max, r, cs + [a], b);
    assert cs + [a, b] == cs + [a] + [b];
  }

  lemma RunFive(max: nat, r: Reg, cs: seq<Choice>, l: nat, port: nat)
    ensures var b := BootSteps(l, port);
      RunFrom(max, r, cs + b) ==
      Next(max, Next(max, Next(max, Next(max, Next(max, RunFrom(max, r, cs), b[0]), b[1]), b[2]), b[3]), b[4])
  {
    var b := BootSteps(l, port);
    RunTwo(max, r, cs, b[0], b[1]);
    RunTwo(max, r, cs + [b[0], b[1]], b[2], b[3]);
    RunSnoc(max, r, cs + [b[0], b[1]] + [b[2], b[3]], b[4]);
    assert cs + b == cs + [b[0], b[1]] + [b[2], b[3]] + [b[4]];
  }

  function ClaimedState(r: Reg, l: nat): Reg
    requires l < |r.launches|
  {
    var o, t := r.launches[l], r.launchSeq + 1;
    Set(r, o.sid, Entry(Starting, None, None, None, l)).(launchSeq := t, tokens := r.tokens[o.sid := t],
      launches := r.launches[l := o.(token := Some(t), pc := Preflight)])
  }

  lemma BootsToClaim(max: nat, r: Reg, l: nat)
    requires l < |r.launches| && r.launches[l].pc == Stopping && r.launches[l].typ == ServedApp && r.launches[l].mayEvict
    requires !AtCapacity(max, r)
    ensures Resume(max, r, l, Okay(0)) == ClaimedState(r, l)
  {
    assert Owns(Mint(r, l), l);
  }

  lemma BootsToAllocating(max: nat, r: Reg, l: nat)
    requires l < |r.launches|
    ensures Resume(max, Resume(max, ClaimedState(r, l), l, Okay(0)), l, Okay(0)) == At(ClaimedState(r, l), l, Allocating)
  {
    var c := ClaimedState(r, l);
    assert At(At(c, l, Installing), l, Allocating) == At(c, l, Allocating);
  }

  lemma BootsFromAllocating(max: nat, r: Reg, l: nat, port: nat)
    requires l < |r.launches| && !r.launches[l].exited
    ensures var a := At(ClaimedState(r, l), l, Allocating);
      |Resume(max, a, l, Okay(port)).launches| == |a.launches| && Resume(max, Resume(max, a, l, Okay(port)), l, Okay(0)) == ReadyState(r, l, port)
  {
    var a := At(ClaimedState(r, l), l, Allocating);
    assert Owns(a, l);
    var probing := a.(procs := r.procs[r.launches[l].sid := l],
                      launches := a.launches[l := a.launches[l].(pc := Probing, port := Some(port), released := false, proc := Running)]);
    assert Launched(a, l, port) == probing;
    ReadyIs(probing, l);
    assert Resume(max, probing, l, Okay(0)) == Probed(probing, l, true, false);
    assert Probed(probing, l, true, false) == ReadyState(r, l, port);
  }

  lemma BootsToReady(max: nat, r: Reg, cs: seq<Choice>, l: nat, port: nat)
    requires var s := RunFrom(max, r, cs);
      && l < |s.launches| && s.launches[l].pc == Stopping && s.launches[l].typ == ServedApp && s.launches[l].mayEvict
      && !s.launches[l].exited && !AtCapacity(max, s)
    ensures RunFrom(max, r, cs + BootSteps(l, port)) == ReadyState(RunFrom(max, r, cs), l, port)
  {
    RunFive(max, r, cs, l, port);
    FiveSteps(max, RunFrom(max, r, cs), l, port);
  }

  lemma FiveSteps(max: nat, s: Reg, l: nat, port: nat)
    requires l < |s.launches| && s.launches[l].pc == Stopping && s.launches[l].typ == ServedApp && s.launches[l].mayEvict
    requires !s.launches[l].exited && !AtCapacity(max, s)
    ensures var b := BootSteps(l, port);
      Next(max, Next(max, Next(max, Next(max, Next(max, s, b[0]), b[1]), b[2]), b[3]), b[4]) == ReadyState(s, l, port)
  {
    var b := BootSteps(l, port);
    BootsToClaim(max, s, l);
    assert Next(max, s, b[0]) == ClaimedState(s, l);
    BootsToAllocating(max, s, l);
    ThreeSteps(max, ClaimedState(s, l), l, port);
    BootsFromAllocating(max, s, l, port);
    TwoSteps(max, At(ClaimedState(s, l), l, Allocating), l, port);
  }

  lemma ThreeSteps(max: nat, c: Reg, l: nat, port: nat)
    requires l < |c.launches| && c.launches[l].pc == Preflight
    ensures var b := BootSteps(l, port);
      Next(max, Next(max, c, b[1]), b[2]) == Resume(max, Resume(max, c, l, Okay(0)), l, Okay(0))
  {
  }

  lemma TwoSteps(max: nat, a: Reg, l: nat, port: nat)
    requires l < |a.launches| && a.launches[l].pc == Allocating
    ensures var b := BootSteps(l, port);
      |Resume(max, a, l, Okay(port)).launches| == |a.launches|
      && Next(max, Next(max, a, b[3]), b[4]) == Resume(max, Resume(max, a, l, Okay(port)), l, Okay(0))
  {
    assert |Launched(a, l, port).launches| == |a.launches|;
  }

  const X_LAUNCH := Launch("x", ServedApp, true, None, None, Stopping, None, false, NotLaunched, false, false)
  const TWO_STARTS := [DoBegin("x", ServedApp, true, None), DoBegin("x", ServedApp, true, None)]

  lemma TwoStarts()
    ensures RunFrom(2, EMPTY, TWO_STARTS) == Reg(map[], [], map[], map["x" := 2], 2, [X_LAUNCH, X_LAUNCH])
  {
    var begin := DoBegin("x", ServedApp, true, None);
    assert [] + [begin] == [begin] && [begin] + [begin] == TWO_STARTS;
    RunSnoc(2, EMPTY, [], begin);
    RunSnoc(2, EMPTY, [begin], begin);
    assert Begin(EMPTY, "x", ServedApp, true, None) == Reg(map[], [], map[], map["x" := 1], 1, [X_LAUNCH]);
  }

  /**
   The tokens alone do not prevent a leak: two starts whose opening stops both ran before either minted its token leave
   a process that runs untracked and a port that is never released, with nothing in flight.
   */
  lemma OverlappingStartsLeak() returns (cs: seq<Choice>)
    ensures var r := RunFrom(2, EMPTY, cs);
      Idle(r, "x") && |r.launches| == 2 && r.launches[0].sid == "x" && !NoLeak(r, "x")
      && r.launches[0].proc == Running && !r.launches[0].released
  {
    TwoStarts();
    var s := RunFrom(2, EMPTY, TWO_STARTS);
    var s1 := ReadyState(s, 0, 5000);
    HeavySubset(Heavy(s.entries), {"x"});
    HeavySubset(Heavy(s1.entries), {"x"});
    BootsToReady(2, EMPTY, TWO_STARTS, 0, 5000);
    BootsToReady(2, EMPTY, TWO_STARTS + BootSteps(0, 5000), 1, 5001);
    cs := TWO_STARTS + BootSteps(0, 5000) + BootSteps(1, 5001);
    assert RunFrom(2, EMPTY, cs) == ReadyState(s1, 1, 5001);
  }

  // ----- the exception to "a superseded launch writes nothing", on a reachable run

  const FIRST_EVICTS := [DoBegin("y", ServedApp, true, None), DoResume(0, NotOkay(false)),
                         DoBegin("x", ServedApp, true, None), DoResume(1, NotOkay(false))]
  const SECOND_STARTS := [DoBegin("x", ServedApp, true, None), DoResume(2, NotOkay(false))]
  const FIRST_RESUMES := [DoResume(1, NotOkay(false))]

  function Evictor(): Launch { X_LAUNCH.(token := Some(4), pc := Evicting) }

  function Evicted(): Launch { X_LAUNCH.(sid := "y", token := Some(2), pc := Preflight) }

  lemma OnlyHeavy(entries: map<SessionId, Entry>, id: SessionId)
    requires forall k :: k in Heavy(entries) ==> k == id
    ensures |Heavy(entries)| == if id in Heavy(entries) then 1 else 0
  {
    assert Heavy(entries) == if id in Heavy(entries) then {id} else {};
  }

  const Y_BEGUN := Reg(map[], [], map[], map["y" := 1], 1, [X_LAUNCH.(sid := "y")])
  const Y_STARTING := Reg(map["y" := Entry(Starting, None, None, None, 0)], ["y"], map[], map["y" := 2], 2, [Evicted()])
  const X_BEGUN := Y_STARTING.(launchSeq := 3, tokens := map["y" := 2, "x" := 3], launches := [Evicted(), X_LAUNCH])
  const Y_EVICTED := Reg(map["y" := Entry(Stopped, None, None, None, 0)], ["y"], map[], map["y" := 5, "x" := 4], 5, [Evicted(), Evictor()])
  const X_BEGUN_AGAIN := Y_EVICTED.(launchSeq := 6, tokens := map["y" := 5, "x" := 6], launches := [Evicted(), Evictor(), X_LAUNCH])

  lemma Begins()
    ensures Begin(EMPTY, "y", ServedApp, true, None) == Y_BEGUN
    ensures Begin(Y_STARTING, "x", ServedApp, true, None) == X_BEGUN
    ensures Begin(Y_EVICTED, "x", ServedApp, true, None) == X_BEGUN_AGAIN
  {
  }

  lemma YStarts()
    ensures Resume(1, Y_BEGUN, 0, NotOkay(false)) == Y_STARTING
  {
    OnlyHeavy(Y_BEGUN.entries, "y");
    BootsToClaimWith(1, Y_BEGUN, 0, NotOkay(false));
    assert ClaimedState(Y_BEGUN, 0) == Y_STARTING;
  }

  lemma XEvictsY()
    ensures Resume(1, X_BEGUN, 1, NotOkay(false)) == Y_EVICTED
  {
    OnlyHeavy(X_BEGUN.entries, "y");
    var m := Mint(X_BEGUN, 1);
    assert m == X_BEGUN.(launchSeq := 4, tokens := map["y" := 2, "x" := 4], launches := [Evicted(), Evictor()]);
    assert Stop(m, "y") == Y_EVICTED;
    assert Resume(1, X_BEGUN, 1, NotOkay(false)) == At(Stop(m, "y"), 1, Evicting);
  }

  lemma FirstEvicts()
    ensures RunFrom(1, EMPTY, FIRST_EVICTS) == Y_EVICTED
  {
    var cs := FIRST_EVICTS[..2];
    assert [] + [FIRST_EVICTS[0], FIRST_EVICTS[1]] == cs && cs + [FIRST_EVICTS[2], FIRST_EVICTS[3]] == FIRST_EVICTS;
    RunTwo(1, EMPTY, [], FIRST_EVICTS[0], FIRST_EVICTS[1]);
    RunTwo(1, EMPTY, cs, FIRST_EVICTS[2], FIRST_EVICTS[3]);
    Begins();
    YStarts();
    XEvictsY();
  }

  lemma BootsToClaimWith(max: nat, r: Reg, l: nat, w: Outcome)
    requires l < |r.launches| && r.launches[l].pc == Stopping && r.launches[l].typ == ServedApp && r.launches[l].mayEvict
    requires !AtCapacity(max, r)
    ensures Resume(max, r, l, w) == ClaimedState(r, l)
  {
    BootsToClaim(max, r, l);
  }

  lemma SecondStarts()
    ensures RunFrom(1, EMPTY, FIRST_EVICTS + SECOND_STARTS) == ClaimedState(X_BEGUN_AGAIN, 2)
  {
    FirstEvicts();
    RunTwo(1, EMPTY, FIRST_EVICTS, SECOND_STARTS[0], SECOND_STARTS[1]);
    assert FIRST_EVICTS + [SECOND_STARTS[0], SECOND_STARTS[1]] == FIRST_EVICTS + SECOND_STARTS;
    Begins();
    OnlyHeavy(X_BEGUN_AGAIN.entries, "x");
    BootsToClaimWith(1, X_BEGUN_AGAIN, 2, NotOkay(false));
  }

  lemma ResumedEvictor()
    ensures var s := ClaimedState(X_BEGUN_AGAIN, 2); Resume(1, s, 1, NotOkay(false)) == At(Stop(s, "x"), 1, Evicting)
  {
    var s := ClaimedState(X_BEGUN_AGAIN, 2);
    OnlyHeavy(s.entries, "x");
    assert s.order == ["y", "x"] && s.order[1..] == ["x"];
    assert Oldest(s.order[1..], s.entries) == Some("x");
  }

  /**
   With the cap at 1, a start of "x" suspended in the eviction loop is superseded by a second start of "x"; when it goes
   on, the oldest heavy preview is its own successor, and it stops it.
   */
  lemma SupersededLaunchStopsItsSuccessor()
    ensures var r := RunFrom(1, EMPTY, FIRST_EVICTS + SECOND_STARTS);
      && |r.launches| == 3 && !Owns(r, 1) && Owns(r, 2) && "x" in r.entries && r.entries["x"] == Entry(Starting, None, None, None, 2)
    ensures var r := RunFrom(1, EMPTY, FIRST_EVICTS + SECOND_STARTS + FIRST_RESUMES);
      && |r.launches| == 3 && !Owns(r, 2) && "x" in r.entries && r.entries["x"].status == Stopped
  {
    SecondStarts();
    RunSnoc(1, EMPTY, FIRST_EVICTS + SECOND_STARTS, FIRST_RESUMES[0]);
    var s := ClaimedState(X_BEGUN_AGAIN, 2);
    ResumedEvictor();
    StopEffect(s, "x");
    assert StoppedLaunch(s, "x", 2, Stop(s, "x").launches[2]);
  }
}
