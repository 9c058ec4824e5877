/** What every interleaving of launches, stops and exits keeps, overlapping starts of one session included. */
module PreviewCap {
  import opened Wrappers
  import opened PreviewRegistry

  // ----- the effect of the shared pieces

  /** Another's stop or release may only kill the process of a launch or mark its port released. */
  ghost predicate SameCore(o: Launch, o': Launch) {
    && o' == o.(released := o'.released, proc := o'.proc)
    && (o.released ==> o'.released)
    && (o'.proc == o.proc || (o.proc == Running && o'.proc == Killed))
  }

  lemma ReleaseEffect(r: Reg, p: Option<nat>)
    ensures var r' := ReleasePort(r, p);
      && r' == r.(launches := r'.launches) && |r'.launches| == |r.launches|
      && forall i :: 0 <= i < |r.launches| ==>
           && r'.launches[i] == r.launches[i].(released := r'.launches[i].released)
           && r'.launches[i].released == (r.launches[i].released || (p.Some? && r.launches[i].port == p))
  {
  }

  lemma KillEffect(r: Reg, l: nat)
    ensures var r' := Kill(r, l);
      && r' == r.(launches := r'.launches) && |r'.launches| == |r.launches|
      && forall i :: 0 <= i < |r.launches| ==>
           && r'.launches[i] == r.launches[i].(proc := r'.launches[i].proc)
           && r'.launches[i].proc == (if i == l && r.launches[i].proc == Running then Killed else r.launches[i].proc)
  {
  }

  lemma StopEffect(r: Reg, id: SessionId)
    ensures var r' := Stop(r, id);
      && r' == r.(launchSeq := r.launchSeq + 1, tokens := r.tokens[id := r.launchSeq + 1], procs := r.procs - {id},
                  entries := r'.entries, launches := r'.launches)
      && r'.entries == (if id in r.entries then r.entries[id := r.entries[id].(status := Stopped)] else r.entries)
      && |r'.launches| == |r.launches|
      && forall i :: 0 <= i < |r.launches| ==> StoppedLaunch(r, id, i, r'.launches[i])
  {
    var r1 := BumpToken(r, id);
    if id in r.procs {
      KillEffect(r1, r.procs[id]);
    }
    var r2 := KillTracked(r1, id);
    assert r2.procs == r.procs - {id};
    if id in r.entries {
      ReleaseEffect(r2, r.entries[id].port);
    }
  }

  /** What `stop` of a session does to launch `i`. */
  ghost predicate StoppedLaunch(r: Reg, id: SessionId, i: nat, o': Launch)
    requires i < |r.launches|
  {
    var o := r.launches[i];
    && SameCore(o, o')
    && o'.proc == (if id in r.procs && r.procs[id] == i && o.proc == Running then Killed else o.proc)
    && (id in r.entries && r.entries[id].port.Some? && o.port == r.entries[id].port ==> o'.released)
  }

  lemma GiveBackEffect(r: Reg, l: nat, pc: Pc)
    requires l < |r.launches|
    ensures var r' := GiveBack(r, l, pc);
      && r' == r.(launches := r'.launches) && |r'.launches| == |r.launches|
      && r'.launches[l] == r.launches[l].(pc := pc, released := r'.launches[l].released, proc := r'.launches[l].proc)
      && r'.launches[l].proc == (if r.launches[l].proc == Running then Killed else r.launches[l].proc)
      && (r.launches[l].port.Some? ==> r'.launches[l].released)
      && forall i :: 0 <= i < |r.launches| && i != l ==> SameCore(r.launches[i], r'.launches[i])
  {
    KillEffect(r, l);
    ReleaseEffect(Kill(r, l), r.launches[l].port);
  }

  // ----- tokens

  ghost predicate TokensOk(r: Reg) {
    && (forall id :: id in r.tokens ==> r.tokens[id] <= r.launchSeq)
    && (forall l :: 0 <= l < |r.launches| && r.launches[l].token.Some? ==> r.launches[l].token.value <= r.launchSeq)
    && (forall l, k :: 0 <= l < k < |r.launches| && r.launches[l].token.Some? ==> r.launches[l].token != r.launches[k].token)
    && (forall l :: 0 <= l < |r.launches| ==> (r.launches[l].token.None? <==> r.launches[l].pc == Stopping))
  }

  /** Past the moment the launch wrote its `starting` entry. */
  predicate Claimed(pc: Pc) {
    pc in {Preflight, PreflightTeardown, Installing, InstallTeardown, Allocating, Probing, Sleeping, ExitTeardown, TimeoutTeardown}
  }

  ghost predicate ClaimOk(r: Reg, l: nat)
    requires l < |r.launches|
  {
    var o := r.launches[l];
    && (Claimed(o.pc) && Owns(r, l) ==> o.sid in r.entries && r.entries[o.sid] == Entry(Starting, None, None, None, l))
    && (o.watched ==> o.pc == Finished)
  }

  ghost predicate ClaimsOk(r: Reg) {
    forall l :: 0 <= l < |r.launches| ==> ClaimOk(r, l)
  }

  ghost predicate CapOk(max: nat, r: Reg) {
    && (max >= 1 ==> |Heavy(r.entries)| <= max)
    && forall id :: id in r.entries ==> id in r.order
  }

  ghost predicate Inv(max: nat, r: Reg) {
    TokensOk(r) && ClaimsOk(r) && CapOk(max, r)
  }

  ghost predicate KeepsIdentity(o: Launch, o': Launch) {
    && o'.sid == o.sid && o'.digest == o.digest
    && (o.token.Some? ==> o'.token == o.token)
    && (o.pc == Finished ==> o'.pc == Finished)
  }

  /** Tokens are only ever replaced by new ones; a launch keeps its session, its digest and the token it minted. */
  ghost predicate TokensAdvance(r: Reg, r': Reg) {
    && r.launchSeq <= r'.launchSeq && |r.launches| <= |r'.launches|
    && (forall id :: id in r.tokens ==> id in r'.tokens)
    && (forall id :: id in r'.tokens ==> (id in r.tokens && r'.tokens[id] == r.tokens[id]) || r'.tokens[id] > r.launchSeq)
    && (forall l :: 0 <= l < |r.launches| ==> KeepsIdentity(r.launches[l], r'.launches[l]))
  }

  lemma AdvanceTrans(a: Reg, b: Reg, c: Reg)
    requires TokensAdvance(a, b) && TokensAdvance(b, c)
    ensures TokensAdvance(a, c)
  {
  }

  /** Steps that leave tokens, entries and every other launch's core alone, and claim nothing new. */
  ghost predicate Quiet(r: Reg, r': Reg, l: nat) {
    && l < |r.launches| == |r'.launches|
    && r'.entries == r.entries && r'.order == r.order && r'.tokens == r.tokens && r'.launchSeq == r.launchSeq
    && (forall i :: 0 <= i < |r.launches| && i != l ==> SameCore(r.launches[i], r'.launches[i]))
    && r'.launches[l].token == r.launches[l].token && r'.launches[l].sid == r.launches[l].sid
    && r'.launches[l].digest == r.launches[l].digest
    && (r'.launches[l].pc == Stopping <==> r.launches[l].pc == Stopping)
    && (Claimed(r'.launches[l].pc) ==> Claimed(r.launches[l].pc))
    && (r'.launches[l].watched ==> r.launches[l].watched)
    && (r.launches[l].pc == Finished ==> r'.launches[l].pc == Finished)
  }

  lemma QuietKeeps(max: nat, r: Reg, r': Reg, l: nat)
    requires Inv(max, r) && Quiet(r, r', l)
    ensures Inv(max, r') && TokensAdvance(r, r')
  {
    assert TokensOk(r');
    forall i | 0 <= i < |r'.launches| ensures ClaimOk(r', i) {
      assert ClaimOk(r, i);
    }
  }

  lemma HeavySubset(a: set<SessionId>, b: set<SessionId>)
    requires a <= b
    ensures |a| <= |b|
  {
    if a != b {
      var x :| x in b && x !in a;
      HeavySubset(a, b - {x});
    }
  }

  lemma StopKeeps(max: nat, r: Reg, id: SessionId)
    requires Inv(max, r)
    ensures Inv(max, Stop(r, id)) && TokensAdvance(r, Stop(r, id))
  {
    var r' := Stop(r, id);
    StopEffect(r, id);
    HeavySubset(Heavy(r'.entries), Heavy(r.entries));
    forall i | 0 <= i < |r'.launches| ensures ClaimOk(r', i) {
      assert ClaimOk(r, i) && SameCore(r.launches[i], r'.launches[i]);
    }
    assert TokensOk(r');
  }

  lemma BeginKeeps(max: nat, r: Reg, id: SessionId, typ: AppType, mayEvict: bool, digest: Option<string>)
    requires Inv(max, r)
    ensures Inv(max, Begin(r, id, typ, mayEvict, digest)) && TokensAdvance(r, Begin(r, id, typ, mayEvict, digest))
  {
    StopKeeps(max, r, id);
    var r1, r' := Stop(r, id), Begin(r, id, typ, mayEvict, digest);
    forall i | 0 <= i < |r'.launches| ensures ClaimOk(r', i) {
      if i < |r1.launches| {
        assert ClaimOk(r1, i);
      }
    }
  }

  /** The owner writes its own entry; the number of heavy previews may grow by one only if there is room. */
  lemma OwnerWrites(max: nat, r: Reg, r': Reg, l: nat, e: Entry)
    requires Inv(max, r) && l < |r.launches| && Owns(r, l)
    requires var id := r.launches[l].sid;
      && r' == Set(r, id, e).(procs := r'.procs, launches := r'.launches)
      && |r'.launches| == |r.launches|
      && (forall i :: 0 <= i < |r.launches| && i != l ==> SameCore(r.launches[i], r'.launches[i]))
      && KeepsIdentity(r.launches[l], r'.launches[l]) && r'.launches[l].pc != Stopping
      && (Claimed(r'.launches[l].pc) ==> e == Entry(Starting, None, None, None, l))
      && (r'.launches[l].watched ==> r'.launches[l].pc == Finished)
      && (max >= 1 && CountsTowardCap(id, e) ==> id in Heavy(r.entries) || |Heavy(r.entries)| < max)
    ensures Inv(max, r') && TokensAdvance(r, r')
  {
    var id := r.launches[l].sid;
    forall i | 0 <= i < |r'.launches| ensures ClaimOk(r', i) {
      assert ClaimOk(r, i);
      if i != l {
        assert SameCore(r.launches[i], r'.launches[i]);
        assert r.launches[i].token.Some? ==> r.launches[i].token != r.launches[l].token;
      }
    }
    assert Heavy(r'.entries) <= Heavy(r.entries) + {id};
    if !CountsTowardCap(id, e) || id in Heavy(r.entries) {
      HeavySubset(Heavy(r'.entries), Heavy(r.entries));
    } else {
      HeavySubset(Heavy(r'.entries), Heavy(r.entries) + {id});
    }
    assert TokensOk(r');
  }

  // ----- the steps of a launch

  lemma FinishKeeps(max: nat, r: Reg, l: nat, e: Entry)
    requires Inv(max, r) && l < |r.launches| && r.launches[l].pc != Stopping
    requires CountsTowardCap(r.launches[l].sid, e) ==> Claimed(r.launches[l].pc)
    ensures Inv(max, FinishWith(r, l, e)) && TokensAdvance(r, FinishWith(r, l, e))
  {
    if Owns(r, l) {
      OwnerFinishes(max, r, FinishWith(r, l, e), l, e);
    } else {
      QuietKeeps(max, r, FinishWith(r, l, e), l);
    }
  }

  /** The owner's last step: its entry, and perhaps its process untracked. */
  lemma OwnerFinishes(max: nat, r: Reg, r': Reg, l: nat, e: Entry)
    requires Inv(max, r) && l < |r.launches| && r.launches[l].pc != Stopping && Owns(r, l)
    requires CountsTowardCap(r.launches[l].sid, e) ==> Claimed(r.launches[l].pc)
    requires r' == Set(At(r, l, Finished), r.launches[l].sid, e).(procs := r'.procs)
    ensures Inv(max, r') && TokensAdvance(r, r')
  {
    assert ClaimOk(r, l);
    OwnerWrites(max, r, r', l, e);
  }

  lemma ClaimKeeps(max: nat, r: Reg, l: nat)
    requires Inv(max, r) && l < |r.launches| && r.launches[l].pc == Evicting
    requires max >= 1 ==> IsVerify(r.launches[l].sid) || |Heavy(r.entries)| < max
    ensures Inv(max, Claim(r, l)) && TokensAdvance(r, Claim(r, l))
  {
    assert ClaimOk(r, l);
    if Owns(r, l) {
      OwnerWrites(max, r, Claim(r, l), l, Entry(Starting, None, None, None, l));
    } else {
      QuietKeeps(max, r, Claim(r, l), l);
    }
  }

  lemma {:induction false} OldestExists(order: seq<SessionId>, entries: map<SessionId, Entry>, id: SessionId)
    requires id in Heavy(entries) && id in order
    ensures Oldest(order, entries).Some?
  {
    if order[0] != id {
      assert order == [order[0]] + order[1..];
      OldestExists(order[1..], entries, id);
    }
  }

  lemma EvictTopKeeps(max: nat, r: Reg, l: nat)
    requires Inv(max, r) && l < |r.launches| && r.launches[l].pc == Evicting
    ensures Inv(max, EvictTop(max, r, l)) && TokensAdvance(r, EvictTop(max, r, l))
  {
    if max >= 1 && AtCapacity(max, r) {
      assert Heavy(r.entries) != {};
      var id :| id in Heavy(r.entries);
      OldestExists(r.order, r.entries, id);
    }
    if AtCapacity(max, r) && Oldest(r.order, r.entries).Some? {
      var oldest := Oldest(r.order, r.entries).value;
      StopKeeps(max, r, oldest);
      StopEffect(r, oldest);
      AtKeeps(max, Stop(r, oldest), l, Evicting);
      AdvanceTrans(r, Stop(r, oldest), EvictTop(max, r, l));
    } else {
      ClaimKeeps(max, r, l);
    }
  }

  /** Minting leaves every claim alone: the previous holder of the session stops being the owner. */
  lemma MintKeeps(max: nat, r: Reg, l: nat)
    requires Inv(max, r) && l < |r.launches| && r.launches[l].pc == Stopping
    ensures Inv(max, Mint(r, l)) && TokensAdvance(r, Mint(r, l)) && Owns(Mint(r, l), l)
  {
    var r' := Mint(r, l);
    forall i | 0 <= i < |r'.launches| ensures ClaimOk(r', i) {
      assert ClaimOk(r, i);
    }
    assert TokensOk(r');
  }

  lemma AfterStopKeeps(max: nat, r: Reg, l: nat)
    requires Inv(max, r) && l < |r.launches| && r.launches[l].pc == Stopping
    ensures Inv(max, AfterStop(max, r, l)) && TokensAdvance(r, AfterStop(max, r, l))
  {
    MintKeeps(max, r, l);
    var m, o := Mint(r, l), r.launches[l];
    if o.typ == StaticApp {
      FinishKeeps(max, m, l, Entry(Ready, Some(StaticApp), None, o.digest, l));
    } else if o.typ == OtherApp {
      AtKeeps(max, m, l, UnsupportedTeardown);
    } else if IsVerify(o.sid) {
      ClaimKeeps(max, m, l);
    } else if o.mayEvict {
      EvictTopKeeps(max, m, l);
    } else if AtCapacity(max, m) {
      AtKeeps(max, m, l, DeclineTeardown);
    } else {
      ClaimKeeps(max, m, l);
    }
    AdvanceTrans(r, m, AfterStop(max, r, l));
  }

  lemma AtKeeps(max: nat, r: Reg, l: nat, pc: Pc)
    requires Inv(max, r) && l < |r.launches| && r.launches[l].pc !in {Stopping, Finished} && pc != Stopping
    requires Claimed(pc) ==> Claimed(r.launches[l].pc)
    ensures Inv(max, At(r, l, pc)) && TokensAdvance(r, At(r, l, pc))
  {
    QuietKeeps(max, r, At(r, l, pc), l);
  }

  lemma LoopTopKeeps(max: nat, r: Reg, l: nat)
    requires Inv(max, r) && l < |r.launches| && Claimed(r.launches[l].pc)
    ensures Inv(max, LoopTop(r, l)) && TokensAdvance(r, LoopTop(r, l))
  {
    if !Owns(r, l) {
      GivenBackKeeps(max, r, l, StandDown);
    } else if r.launches[l].exited {
      ReleaseEffect(r, r.launches[l].port);
      QuietKeeps(max, r, ReleasePort(r, r.launches[l].port), l);
      AtKeeps(max, ReleasePort(r, r.launches[l].port), l, ExitTeardown);
      AdvanceTrans(r, ReleasePort(r, r.launches[l].port), LoopTop(r, l));
    } else {
      AtKeeps(max, r, l, Probing);
    }
  }

  lemma ResumeKeeps(max: nat, r: Reg, l: nat, w: Outcome)
    requires Inv(max, r) && l < |r.launches|
    ensures Inv(max, Resume(max, r, l, w)) && TokensAdvance(r, Resume(max, r, l, w))
  {
    var o := r.launches[l];
    match o.pc
    case Stopping => AfterStopKeeps(max, r, l);
    case UnsupportedTeardown => FinishKeeps(max, r, l, Entry(Unsupported, Some(o.typ), None, None, l));
    case DeclineTeardown => FinishKeeps(max, r, l, Entry(Stopped, None, None, None, l));
    case Evicting => EvictTopKeeps(max, r, l);
    case Preflight =>
      AtKeeps(max, r, l, match w case Okay(_) => Installing case NotOkay(_) => PreflightTeardown case Rejected => Finished);
    case PreflightTeardown => FinishKeeps(max, r, l, FailedEntry(r, l));
    case Installing =>
      AtKeeps(max, r, l, match w case Okay(_) => Allocating case NotOkay(_) => InstallTeardown case Rejected => Finished);
    case InstallTeardown => FinishKeeps(max, r, l, FailedEntry(r, l));
    case Allocating => LaunchedKeeps(max, r, l, w);
    case StandDown => AtKeeps(max, r, l, Finished);
    case Probing => ProbedKeeps(max, r, l, w);
    case Sleeping => LoopTopKeeps(max, r, l);
    case ExitTeardown => UntrackedKeeps(max, r, l);
    case TimeoutTeardown => UntrackedKeeps(max, r, l);
    case Finished =>
  }

  lemma LaunchedKeeps(max: nat, r: Reg, l: nat, w: Outcome)
    requires Inv(max, r) && l < |r.launches| && r.launches[l].pc == Allocating
    ensures Inv(max, Resume(max, r, l, w)) && TokensAdvance(r, Resume(max, r, l, w))
  {
    if w.Okay? {
      var r1 := r.(launches := r.launches[l := r.launches[l].(port := Some(w.port), released := false)]);
      QuietKeeps(max, r, r1, l);
      if Owns(r1, l) {
        var r2 := r1.(launches := r1.launches[l := r1.launches[l].(proc := Running)], procs := r1.procs[r1.launches[l].sid := l]);
        QuietKeeps(max, r1, r2, l);
        LoopTopKeeps(max, r2, l);
        AdvanceTrans(r, r1, r2);
        AdvanceTrans(r, r2, LoopTop(r2, l));
      } else {
        GivenBackKeeps(max, r1, l, StandDown);
        AdvanceTrans(r, r1, GiveBack(r1, l, StandDown));
      }
    } else {
      AtKeeps(max, r, l, Finished);
    }
  }

  lemma ProbedKeeps(max: nat, r: Reg, l: nat, w: Outcome)
    requires Inv(max, r) && l < |r.launches| && r.launches[l].pc == Probing
    ensures Inv(max, Resume(max, r, l, w)) && TokensAdvance(r, Resume(max, r, l, w))
  {
    if w.Okay? && Owns(r, l) {
      OwnerReadies(max, r, l);
    } else if w.Okay? {
      GivenBackKeeps(max, r, l, StandDown);
    } else if w.NotOkay? && w.timeUp {
      GivenBackKeeps(max, r, l, TimeoutTeardown);
    } else {
      AtKeeps(max, r, l, Sleeping);
    }
  }

  lemma OwnerReadies(max: nat, r: Reg, l: nat)
    requires Inv(max, r) && l < |r.launches| && r.launches[l].pc == Probing && Owns(r, l)
    ensures Inv(max, Probed(r, l, true, false)) && TokensAdvance(r, Probed(r, l, true, false))
  {
    assert ClaimOk(r, l);
    OwnerWrites(max, r, Probed(r, l, true, false), l, Entry(Ready, None, r.launches[l].port, r.launches[l].digest, l));
  }

  lemma GivenBackKeeps(max: nat, r: Reg, l: nat, pc: Pc)
    requires Inv(max, r) && l < |r.launches| && Claimed(r.launches[l].pc) && pc in {StandDown, TimeoutTeardown}
    ensures Inv(max, GiveBack(r, l, pc)) && TokensAdvance(r, GiveBack(r, l, pc))
  {
    GiveBackEffect(r, l, pc);
    QuietKeeps(max, r, GiveBack(r, l, pc), l);
  }

  lemma UntrackedKeeps(max: nat, r: Reg, l: nat)
    requires Inv(max, r) && l < |r.launches| && Claimed(r.launches[l].pc)
    ensures Inv(max, FinishUntracked(r, l, FailedEntry(r, l))) && TokensAdvance(r, FinishUntracked(r, l, FailedEntry(r, l)))
  {
    if Owns(r, l) {
      OwnerFinishes(max, r, FinishUntracked(r, l, FailedEntry(r, l)), l, FailedEntry(r, l));
    } else {
      QuietKeeps(max, r, FinishUntracked(r, l, FailedEntry(r, l)), l);
    }
  }

  lemma ExitKeeps(max: nat, r: Reg, l: nat)
    requires Inv(max, r) && l < |r.launches|
    ensures Inv(max, Exit(r, l)) && TokensAdvance(r, Exit(r, l))
  {
    var o, r' := r.launches[l], Exit(r, l);
    assert ClaimOk(r, l);
    var r1 := r.(launches := r.launches[l := o.(proc := Gone, exited := true)]);
    QuietKeeps(max, r, r1, l);
    if r' != r && r' != r1 {
      ReleaseEffect(r1, o.port);
      OwnerWrites(max, r1, r', l, FailedEntry(r, l));
      AdvanceTrans(r, r1, r');
    }
  }

  lemma {:induction false} RunKeepsInv(max: nat, cs: seq<Choice>)
    ensures Inv(max, RunFrom(max, EMPTY, cs))
  {
    if |cs| > 0 {
      var r, ch := RunFrom(max, EMPTY, cs[..|cs| - 1]), cs[|cs| - 1];
      RunKeepsInv(max, cs[..|cs| - 1]);
      NextKeeps(max, r, ch);
    }
  }

  lemma NextKeeps(max: nat, r: Reg, ch: Choice)
    requires Inv(max, r)
    ensures Inv(max, Next(max, r, ch)) && TokensAdvance(r, Next(max, r, ch))
  {
    match ch
    case DoBegin(id, typ, mayEvict, digest) => BeginKeeps(max, r, id, typ, mayEvict, digest);
    case DoResume(l, w) => if l < |r.launches| { ResumeKeeps(max, r, l, w); }
    case DoExit(l) => if l < |r.launches| { ExitKeeps(max, r, l); }
    case DoStop(id) => StopKeeps(max, r, id);
  }

  // ----- main results

  /**
   Any interleaving of starts (overlapping starts of one session included), stops and exits: never more than `max`
   heavy previews.
   */
  lemma CapNeverExceeded(max: nat, cs: seq<Choice>)
    requires max >= 1
    ensures |Heavy(RunFrom(max, EMPTY, cs).entries)| <= max
  {
    RunKeepsInv(max, cs);
  }

  /** Everything the registry shares between launches. */
  ghost predicate SameMaps(r: Reg, r': Reg) {
    r'.entries == r.entries && r'.order == r.order && r'.procs == r.procs && r'.tokens == r.tokens && r'.launchSeq == r.launchSeq
  }

  /**
   A superseded launch writes nothing shared, so it never overwrites a newer launch or undoes a stop. The one exception
   is exact: suspended in the eviction loop with the registry at capacity, it goes on to stop the oldest heavy preview.
   */
  lemma SupersededWritesNothing(max: nat, cs: seq<Choice>, l: nat, w: Outcome)
    requires max >= 1
    requires var r := RunFrom(max, EMPTY, cs); l < |r.launches| && r.launches[l].pc != Stopping && !Owns(r, l)
    ensures var r := RunFrom(max, EMPTY, cs);
      && SameMaps(r, Exit(r, l))
      && (SameMaps(r, Resume(max, r, l, w)) <==> !(r.launches[l].pc == Evicting && AtCapacity(max, r)))
  {
    var r := RunFrom(max, EMPTY, cs);
    RunKeepsInv(max, cs);
    SupersededStep(max, r, l, w);
  }

  lemma SupersededStep(max: nat, r: Reg, l: nat, w: Outcome)
    requires max >= 1 && Inv(max, r) && l < |r.launches| && r.launches[l].pc != Stopping && !Owns(r, l)
    ensures SameMaps(r, Exit(r, l))
    ensures SameMaps(r, Resume(max, r, l, w)) <==> !(r.launches[l].pc == Evicting && AtCapacity(max, r))
  {
    if r.launches[l].pc == Evicting && AtCapacity(max, r) {
      SupersededEvicts(max, r, l);
    } else if r.launches[l].pc == Allocating {
      SupersededLaunched(max, r, l, w);
    } else if r.launches[l].pc == Probing || r.launches[l].pc == Sleeping {
      SupersededProbing(max, r, l, w);
    }
  }

  lemma SupersededEvicts(max: nat, r: Reg, l: nat)
    requires max >= 1 && Inv(max, r) && l < |r.launches| && AtCapacity(max, r)
    ensures !SameMaps(r, EvictTop(max, r, l))
  {
    assert Heavy(r.entries) != {};
    var id :| id in Heavy(r.entries);
    OldestExists(r.order, r.entries, id);
    StopEffect(r, Oldest(r.order, r.entries).value);
  }

  lemma SupersededProbing(max: nat, r: Reg, l: nat, w: Outcome)
    requires l < |r.launches| && r.launches[l].pc in {Probing, Sleeping} && !Owns(r, l)
    ensures SameMaps(r, Resume(max, r, l, w))
  {
    GiveBackEffect(r, l, StandDown);
    GiveBackEffect(r, l, TimeoutTeardown);
  }

  lemma SupersededLaunched(max: nat, r: Reg, l: nat, w: Outcome)
    requires l < |r.launches| && r.launches[l].pc == Allocating && !Owns(r, l)
    ensures SameMaps(r, Resume(max, r, l, w))
  {
    if w.Okay? {
      GiveBackEffect(r.(launches := r.launches[l := r.launches[l].(port := Some(w.port), released := false)]), l, StandDown);
    }
  }

  /** And it stays superseded, whatever runs next: tokens are never handed out twice. */
  lemma {:induction false} SupersededForGood(max: nat, cs: seq<Choice>, more: seq<Choice>, l: nat)
    requires var r := RunFrom(max, EMPTY, cs); l < |r.launches| && r.launches[l].pc != Stopping && !Owns(r, l)
    ensures var r := RunFrom(max, EMPTY, cs + more); l < |r.launches| && r.launches[l].pc != Stopping && !Owns(r, l)
    decreases |more|
  {
    if |more| == 0 {
      assert cs + more == cs;
    } else {
      SupersededForGood(max, cs, more[..|more| - 1], l);
      var init := cs + more[..|more| - 1];
      assert (cs + more)[..|cs + more| - 1] == init;
      RunKeepsInv(max, init);
      SupersededStays(max, RunFrom(max, EMPTY, init), l, more[|more| - 1]);
    }
  }

  lemma SupersededStays(max: nat, r: Reg, l: nat, ch: Choice)
    requires Inv(max, r) && l < |r.launches| && r.launches[l].pc != Stopping && !Owns(r, l)
    ensures var r' := Next(max, r, ch); l < |r'.launches| && r'.launches[l].pc != Stopping && !Owns(r', l)
  {
    NextKeeps(max, r, ch);
    StaysSuperseded(r, Next(max, r, ch), l);
  }

  lemma StaysSuperseded(r: Reg, r': Reg, l: nat)
    requires TokensOk(r) && TokensOk(r') && TokensAdvance(r, r')
    requires l < |r.launches| && r.launches[l].pc != Stopping && !Owns(r, l)
    ensures r'.launches[l].pc != Stopping && !Owns(r', l)
  {
    assert KeepsIdentity(r.launches[l], r'.launches[l]);
  }
}
