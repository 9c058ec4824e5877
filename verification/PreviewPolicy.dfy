/** Whom a launch may touch, and how a launch ends that nobody interferes with. */
module PreviewPolicy {
  import opened Wrappers
  import opened PreviewRegistry
  import opened PreviewCap
  import opened PreviewLeak

  /** Of every other session, the entry, the tracked process, the token and the launches are as before. */
  ghost predicate SparesOthers(r: Reg, r': Reg, id: SessionId) {
    && Elsewhere(r.entries, r'.entries, id) && Elsewhere(r.procs, r'.procs, id) && Elsewhere(r.tokens, r'.tokens, id)
    && |r.launches| <= |r'.launches|
    && forall j :: 0 <= j < |r.launches| && r.launches[j].sid != id ==>
         r'.launches[j] == r.launches[j].(released := r'.launches[j].released)
  }

  /** Only an explicit start of a heavy app ever stands in the eviction loop; a session tracks processes of its own launches. */
  ghost predicate PolicyInv(r: Reg) {
    && (forall l :: 0 <= l < |r.launches| && r.launches[l].pc == Evicting ==>
          r.launches[l].mayEvict && r.launches[l].typ == ServedApp && !IsVerify(r.launches[l].sid))
    && (forall id :: id in r.procs ==> r.procs[id] < |r.launches| && r.launches[r.procs[id]].sid == id)
  }

  lemma StopSpares(r: Reg, id: SessionId)
    requires PolicyInv(r)
    ensures PolicyInv(Stop(r, id)) && SparesOthers(r, Stop(r, id), id)
  {
    StopEffect(r, id);
    StoppedSpares(r, Stop(r, id), id);
    StoppedPolicy(r, Stop(r, id), id);
  }

  /** What `StopEffect` says of the launches and of the tracked processes. */
  ghost predicate StopsLaunches(r: Reg, r': Reg, id: SessionId) {
    && |r'.launches| == |r.launches| && r'.procs == r.procs - {id}
    && forall j :: 0 <= j < |r.launches| ==> StoppedLaunch(r, id, j, r'.launches[j])
  }

  lemma StoppedSpares(r: Reg, r': Reg, id: SessionId)
    requires PolicyInv(r) && StopsLaunches(r, r', id)
    requires Elsewhere(r.entries, r'.entries, id) && Elsewhere(r.tokens, r'.tokens, id)
    ensures SparesOthers(r, r', id)
  {
    forall j | 0 <= j < |r.launches| && r.launches[j].sid != id
      ensures r'.launches[j] == r.launches[j].(released := r'.launches[j].released)
    {
      assert StoppedLaunch(r, id, j, r'.launches[j]);
    }
  }

  lemma StoppedPolicy(r: Reg, r': Reg, id: SessionId)
    requires PolicyInv(r) && StopsLaunches(r, r', id)
    ensures PolicyInv(r')
  {
    forall j | 0 <= j < |r'.launches| ensures SameCore(r.launches[j], r'.launches[j]) {
      assert StoppedLaunch(r, id, j, r'.launches[j]);
    }
  }

  /** A step that changes launch `l`, nothing of other sessions, and leaves the eviction loop alone. */
  ghost predicate OwnStep(r: Reg, r': Reg, l: nat) {
    && l < |r.launches| == |r'.launches|
    && r'.launches[l].sid == r.launches[l].sid && r'.launches[l].mayEvict == r.launches[l].mayEvict
    && r'.launches[l].pc != Evicting
    && (forall j :: 0 <= j < |r.launches| && j != l ==> r'.launches[j] == r.launches[j].(released := r'.launches[j].released))
    && Elsewhere(r.entries, r'.entries, r.launches[l].sid) && Elsewhere(r.tokens, r'.tokens, r.launches[l].sid)
    && Elsewhere(r.procs, r'.procs, r.launches[l].sid)
    && (r.launches[l].sid in r'.procs ==>
          (r.launches[l].sid in r.procs && r'.procs[r.launches[l].sid] == r.procs[r.launches[l].sid])
          || r'.procs[r.launches[l].sid] == l)
  }

  lemma OwnStepSpares(r: Reg, r': Reg, l: nat)
    requires PolicyInv(r) && OwnStep(r, r', l)
    ensures PolicyInv(r') && SparesOthers(r, r', r.launches[l].sid)
  {
  }

  lemma ReleaseIsOwn(r: Reg, l: nat, p: Option<nat>)
    ensures var r' := ReleasePort(r, p);
      r' == r.(launches := r'.launches) && |r'.launches| == |r.launches|
      && forall j :: 0 <= j < |r.launches| ==> r'.launches[j] == r.launches[j].(released := r'.launches[j].released)
  {
  }

  lemma FinishIsOwn(r: Reg, l: nat, e: Entry)
    requires l < |r.launches|
    ensures OwnStep(r, FinishWith(r, l, e), l) && OwnStep(r, FinishUntracked(r, l, e), l)
  {
  }

  lemma GiveBackIsOwn(r: Reg, l: nat, pc: Pc)
    requires l < |r.launches| && pc != Evicting
    ensures OwnStep(r, GiveBack(r, l, pc), l)
  {
    var r1 := Kill(r, l);
    ReleaseIsOwn(r1, l, r.launches[l].port);
  }

  lemma LoopTopIsOwn(r: Reg, l: nat)
    requires l < |r.launches|
    ensures OwnStep(r, LoopTop(r, l), l)
  {
    GiveBackIsOwn(r, l, StandDown);
    ReleaseIsOwn(r, l, r.launches[l].port);
  }

  lemma LaunchedIsOwn(r: Reg, l: nat, port: nat)
    requires l < |r.launches|
    ensures OwnStep(r, Launched(r, l, port), l)
  {
    var r1 := r.(launches := r.launches[l := r.launches[l].(port := Some(port), released := false)]);
    if Owns(r1, l) {
      var r2 := r1.(launches := r1.launches[l := r1.launches[l].(proc := Running)], procs := r1.procs[r1.launches[l].sid := l]);
      LoopTopIsOwn(r2, l);
    } else {
      GiveBackIsOwn(r1, l, StandDown);
    }
  }

  lemma ProbedIsOwn(r: Reg, l: nat, answered: bool, timeUp: bool)
    requires l < |r.launches|
    ensures OwnStep(r, Probed(r, l, answered, timeUp), l)
  {
    GiveBackIsOwn(r, l, StandDown);
    GiveBackIsOwn(r, l, TimeoutTeardown);
    var o := r.launches[l];
    FinishIsOwn(r.(launches := r.launches[l := o.(watched := true)]), l, Entry(Ready, None, o.port, o.digest, l));
  }

  /** The launch goes around the eviction loop in this step. */
  predicate Evicts(max: nat, r: Reg, l: nat)
    requires l < |r.launches|
  {
    var o := r.launches[l];
    && AtCapacity(max, r)
    && (o.pc == Evicting || (o.pc == Stopping && o.mayEvict && o.typ == ServedApp && !IsVerify(o.sid)))
  }

  lemma AtIsOwn(r: Reg, l: nat, pc: Pc)
    requires l < |r.launches| && pc != Evicting
    ensures OwnStep(r, At(r, l, pc), l)
  {
  }

  lemma ClaimIsOwn(r: Reg, l: nat)
    requires l < |r.launches|
    ensures OwnStep(r, Claim(r, l), l)
  {
  }

  /** Minting only takes a token for the launch's own session. */
  lemma MintThenOwn(r: Reg, r': Reg, l: nat)
    requires l < |r.launches| && OwnStep(Mint(r, l), r', l)
    ensures OwnStep(r, r', l)
  {
  }

  lemma AfterStopIsOwn(max: nat, r: Reg, l: nat)
    requires l < |r.launches| && r.launches[l].pc == Stopping && !Evicts(max, r, l)
    ensures OwnStep(r, AfterStop(max, r, l), l)
  {
    var m, o := Mint(r, l), r.launches[l];
    FinishIsOwn(m, l, Entry(Ready, Some(StaticApp), None, o.digest, l));
    AtIsOwn(m, l, UnsupportedTeardown);
    AtIsOwn(m, l, DeclineTeardown);
    ClaimIsOwn(m, l);
    MintedStep(max, r, l);
    MintThenOwn(r, AfterStop(max, r, l), l);
  }

  /** Outside the eviction loop a minted launch finishes, suspends or claims. */
  lemma MintedStep(max: nat, r: Reg, l: nat)
    requires l < |r.launches| && r.launches[l].pc == Stopping && !Evicts(max, r, l)
    ensures var m, o := Mint(r, l), r.launches[l];
      AfterStop(max, r, l) ==
        if o.typ == StaticApp then FinishWith(m, l, Entry(Ready, Some(StaticApp), None, o.digest, l))
        else if o.typ == OtherApp then At(m, l, UnsupportedTeardown)
        else if AtCapacity(max, r) && !IsVerify(o.sid) then At(m, l, DeclineTeardown)
        else Claim(m, l)
  {
    assert Mint(r, l).entries == r.entries;
  }

  lemma ResumeIsOwn(max: nat, r: Reg, l: nat, w: Outcome)
    requires l < |r.launches| && !Evicts(max, r, l)
    ensures Resume(max, r, l, w) == r || OwnStep(r, Resume(max, r, l, w), l)
  {
    match r.launches[l].pc
    case Stopping => AfterStopIsOwn(max, r, l);
    case Allocating => AllocatedIsOwn(max, r, l, w);
    case Probing => ProbedIsOwn(r, l, w.Okay?, w.NotOkay? && w.timeUp);
    case Sleeping => LoopTopIsOwn(r, l);
    case Evicting => ClaimIsOwn(r, l);
    case Preflight => AtIsOwn(r, l, Resume(max, r, l, w).launches[l].pc);
    case Installing => AtIsOwn(r, l, Resume(max, r, l, w).launches[l].pc);
    case StandDown => AtIsOwn(r, l, Finished);
    case Finished =>
    case _ => TeardownIsOwn(max, r, l, w);
  }

  lemma AllocatedIsOwn(max: nat, r: Reg, l: nat, w: Outcome)
    requires l < |r.launches| && r.launches[l].pc == Allocating
    ensures OwnStep(r, Resume(max, r, l, w), l)
  {
    if w.Okay? {
      LaunchedIsOwn(r, l, w.port);
    } else {
      AtIsOwn(r, l, Finished);
    }
  }

  lemma TeardownIsOwn(max: nat, r: Reg, l: nat, w: Outcome)
    requires l < |r.launches|
    requires r.launches[l].pc in {UnsupportedTeardown, DeclineTeardown, PreflightTeardown, InstallTeardown, ExitTeardown, TimeoutTeardown}
    ensures OwnStep(r, Resume(max, r, l, w), l)
  {
    FinishIsOwn(r, l, Entry(Unsupported, Some(r.launches[l].typ), None, None, l));
    FinishIsOwn(r, l, Entry(Status.Stopped, None, None, None, l));
    FinishIsOwn(r, l, FailedEntry(r, l));
  }

  lemma ExitIsOwn(r: Reg, l: nat)
    requires PolicyInv(r) && l < |r.launches|
    ensures PolicyInv(Exit(r, l)) && SparesOthers(r, Exit(r, l), r.launches[l].sid)
  {
    var o := r.launches[l];
    var r1 := r.(launches := r.launches[l := o.(proc := Gone, exited := true)]);
    ReleaseIsOwn(r1, l, o.port);
  }

  /** One turn of the loop stops the oldest heavy preview and touches no other session. */
  lemma EvictionTurn(max: nat, r: Reg, l: nat, w: Outcome)
    requires PolicyInv(r) && l < |r.launches| && Evicts(max, r, l)
    ensures PolicyInv(Resume(max, r, l, w))
  {
    if r.launches[l].pc == Stopping {
      MintedPolicy(r, l);
      assert Mint(r, l).entries == r.entries;
      TurnPolicy(max, Mint(r, l), l);
    } else {
      TurnPolicy(max, r, l);
    }
  }

  lemma MintedPolicy(r: Reg, l: nat)
    requires PolicyInv(r) && l < |r.launches|
    requires r.launches[l].mayEvict && r.launches[l].typ == ServedApp && !IsVerify(r.launches[l].sid)
    ensures PolicyInv(Mint(r, l))
  {
  }

  lemma TurnPolicy(max: nat, r: Reg, l: nat)
    requires PolicyInv(r) && l < |r.launches| && r.launches[l].pc == Evicting
    ensures PolicyInv(EvictTop(max, r, l))
  {
    if AtCapacity(max, r) && Oldest(r.order, r.entries).Some? {
      StopSpares(r, Oldest(r.order, r.entries).value);
      StopEffect(r, Oldest(r.order, r.entries).value);
    }
  }

  lemma NextPolicy(max: nat, r: Reg, ch: Choice)
    requires PolicyInv(r)
    ensures PolicyInv(Next(max, r, ch))
  {
    match ch
    case DoBegin(id, _, _, _) => StopSpares(r, id);
    case DoStop(id) => StopSpares(r, id);
    case DoExit(l) => if l < |r.launches| { ExitIsOwn(r, l); }
    case DoResume(l, w) =>
      if l < |r.launches| {
        if Evicts(max, r, l) {
          EvictionTurn(max, r, l, w);
        } else {
          ResumeIsOwn(max, r, l, w);
          if Resume(max, r, l, w) != r {
            OwnStepSpares(r, Resume(max, r, l, w), l);
          }
        }
      }
  }

  lemma {:induction false} RunPolicy(max: nat, cs: seq<Choice>)
    ensures PolicyInv(RunFrom(max, EMPTY, cs))
  {
    if |cs| > 0 {
      RunPolicy(max, cs[..|cs| - 1]);
      NextPolicy(max, RunFrom(max, EMPTY, cs[..|cs| - 1]), cs[|cs| - 1]);
    }
  }

  // ----- main results: who may touch whom

  /** The session a choice belongs to, if it is one that exists. */
  predicate ActsFor(r: Reg, ch: Choice, id: SessionId) {
    match ch
    case DoBegin(x, _, _, _) => x == id
    case DoStop(x) => x == id
    case DoResume(l, _) => l < |r.launches| && r.launches[l].sid == id
    case DoExit(l) => l < |r.launches| && r.launches[l].sid == id
  }

  /**
   In any run, a start, a stop, an exit and every step of a launch outside the eviction loop leave all other sessions
   alone. A background launch is never in that loop, so it never stops another preview.
   */
  lemma OthersAreSpared(max: nat, cs: seq<Choice>, ch: Choice, id: SessionId)
    requires ActsFor(RunFrom(max, EMPTY, cs), ch, id)
    requires ch.DoResume? ==> !Evicts(max, RunFrom(max, EMPTY, cs), ch.l)
    ensures SparesOthers(RunFrom(max, EMPTY, cs), Next(max, RunFrom(max, EMPTY, cs), ch), id)
  {
    var r := RunFrom(max, EMPTY, cs);
    RunPolicy(max, cs);
    match ch
    case DoBegin(_, _, _, _) => StopSpares(r, id);
    case DoStop(_) => StopSpares(r, id);
    case DoExit(l) => ExitIsOwn(r, l);
    case DoResume(l, w) =>
      ResumeIsOwn(max, r, l, w);
      if Resume(max, r, l, w) != r {
        OwnStepSpares(r, Resume(max, r, l, w), l);
      }
  }

  /** What a background start may never do, whatever the moment. */
  lemma BackgroundStartSparesOthers(max: nat, cs: seq<Choice>, l: nat, w: Outcome)
    requires l < |RunFrom(max, EMPTY, cs).launches| && !RunFrom(max, EMPTY, cs).launches[l].mayEvict
    ensures var r := RunFrom(max, EMPTY, cs); SparesOthers(r, Resume(max, r, l, w), r.launches[l].sid)
  {
    RunPolicy(max, cs);
    OthersAreSpared(max, cs, DoResume(l, w), RunFrom(max, EMPTY, cs).launches[l].sid);
  }
}
