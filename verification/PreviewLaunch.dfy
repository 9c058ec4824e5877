/** How a launch ends: a declined background start, the eviction loop, and boots that nobody interferes with. */
module PreviewLaunch {
  import opened Wrappers
  import opened PreviewRegistry
  import opened PreviewCap
  import opened PreviewPolicy

  // ----- every key once

  lemma SetOrdered(r: Reg, id: SessionId, e: Entry)
    requires Ordered(r.order, r.entries)
    ensures Ordered(Set(r, id, e).order, Set(r, id, e).entries)
  {
  }

  lemma StopOrdered(r: Reg, id: SessionId)
    requires Ordered(r.order, r.entries)
    ensures Ordered(Stop(r, id).order, Stop(r, id).entries) && Stop(r, id).order == r.order
  {
    StopEffect(r, id);
    StoppedOrder(r, id);
  }

  lemma StoppedOrder(r: Reg, id: SessionId)
    ensures Stop(r, id).order == r.order
  {
    var r2 := KillTracked(BumpToken(r, id), id);
    assert r2.order == r.order && r2.entries == r.entries;
  }

  lemma FinishOrdered(r: Reg, l: nat, e: Entry)
    requires l < |r.launches| && Ordered(r.order, r.entries)
    ensures Ordered(FinishWith(r, l, e).order, FinishWith(r, l, e).entries)
    ensures Ordered(FinishUntracked(r, l, e).order, FinishUntracked(r, l, e).entries)
  {
    SetOrdered(r, r.launches[l].sid, e);
  }

  lemma EvictOrdered(max: nat, r: Reg, l: nat)
    requires l < |r.launches| && Ordered(r.order, r.entries)
    ensures Ordered(EvictTop(max, r, l).order, EvictTop(max, r, l).entries)
    ensures Ordered(Claim(r, l).order, Claim(r, l).entries)
  {
    SetOrdered(r, r.launches[l].sid, Entry(Starting, None, None, None, l));
    if Oldest(r.order, r.entries).Some? {
      StopOrdered(r, Oldest(r.order, r.entries).value);
    }
  }

  lemma AfterStopOrdered(max: nat, r: Reg, l: nat)
    requires l < |r.launches| && Ordered(r.order, r.entries)
    ensures Ordered(AfterStop(max, r, l).order, AfterStop(max, r, l).entries)
  {
    var m, o := Mint(r, l), r.launches[l];
    FinishOrdered(m, l, Entry(Ready, Some(StaticApp), None, o.digest, l));
    EvictOrdered(max, m, l);
  }

  /** These write no entry, or the launch's own ready one. */
  lemma BootOrdered(r: Reg, l: nat, port: nat, answered: bool, timeUp: bool)
    requires l < |r.launches| && Ordered(r.order, r.entries)
    ensures Ordered(LoopTop(r, l).order, LoopTop(r, l).entries)
    ensures Ordered(Launched(r, l, port).order, Launched(r, l, port).entries)
    ensures Ordered(Probed(r, l, answered, timeUp).order, Probed(r, l, answered, timeUp).entries)
  {
    var o := r.launches[l];
    FinishOrdered(r.(launches := r.launches[l := o.(watched := true)]), l, Entry(Ready, None, o.port, o.digest, l));
  }

  lemma ResumeOrdered(max: nat, r: Reg, l: nat, w: Outcome)
    requires l < |r.launches| && Ordered(r.order, r.entries)
    ensures Ordered(Resume(max, r, l, w).order, Resume(max, r, l, w).entries)
  {
    match r.launches[l].pc
    case Stopping => AfterStopOrdered(max, r, l);
    case Evicting => EvictOrdered(max, r, l);
    case Preflight =>
    case Installing =>
    case Allocating => if w.Okay? { BootOrdered(r, l, w.port, false, false); }
    case StandDown =>
    case Probing => BootOrdered(r, l, 0, w.Okay?, w.NotOkay? && w.timeUp);
    case Sleeping => BootOrdered(r, l, 0, false, false);
    case Finished =>
    case _ => TeardownOrdered(max, r, l, w);
  }

  lemma TeardownOrdered(max: nat, r: Reg, l: nat, w: Outcome)
    requires l < |r.launches| && Ordered(r.order, r.entries)
    requires r.launches[l].pc in {UnsupportedTeardown, DeclineTeardown, PreflightTeardown, InstallTeardown, ExitTeardown, TimeoutTeardown}
    ensures Ordered(Resume(max, r, l, w).order, Resume(max, r, l, w).entries)
  {
    FinishOrdered(r, l, Entry(Unsupported, Some(r.launches[l].typ), None, None, l));
    FinishOrdered(r, l, Entry(Stopped, None, None, None, l));
    FinishOrdered(r, l, FailedEntry(r, l));
  }

  lemma {:induction false} RunOrdered(max: nat, cs: seq<Choice>)
    ensures Ordered(RunFrom(max, EMPTY, cs).order, RunFrom(max, EMPTY, cs).entries)
  {
    if |cs| > 0 {
      var r, ch := RunFrom(max, EMPTY, cs[..|cs| - 1]), cs[|cs| - 1];
      RunOrdered(max, cs[..|cs| - 1]);
      match ch
      case DoBegin(id, _, _, _) => StopOrdered(r, id);
      case DoStop(id) => StopOrdered(r, id);
      case DoExit(l) => if l < |r.launches| { SetOrdered(r, r.launches[l].sid, FailedEntry(r, l)); }
      case DoResume(l, w) => if l < |r.launches| { ResumeOrdered(max, r, l, w); }
    }
  }

  /** No step ever reorders the entries or drops one: a new key goes to the end. */
  lemma OrderGrows(max: nat, r: Reg, ch: Choice)
    ensures r.order <= Next(max, r, ch).order
  {
    match ch
    case DoBegin(id, _, _, _) => StoppedOrder(r, id);
    case DoStop(id) => StoppedOrder(r, id);
    case DoExit(l) =>
    case DoResume(l, w) => if l < |r.launches| { ResumeOrder(max, r, l, w); }
  }

  lemma ResumeOrder(max: nat, r: Reg, l: nat, w: Outcome)
    requires l < |r.launches|
    ensures r.order <= Resume(max, r, l, w).order
  {
    match r.launches[l].pc
    case Stopping => AfterStopOrder(max, r, l);
    case Evicting => EvictOrder(max, r, l);
    case _ => BootOrder(max, r, l, w);
  }

  lemma EvictOrder(max: nat, r: Reg, l: nat)
    requires l < |r.launches|
    ensures r.order <= EvictTop(max, r, l).order && r.order <= Claim(r, l).order
  {
    if Oldest(r.order, r.entries).Some? {
      StoppedOrder(r, Oldest(r.order, r.entries).value);
    }
  }

  lemma AfterStopOrder(max: nat, r: Reg, l: nat)
    requires l < |r.launches|
    ensures r.order <= AfterStop(max, r, l).order
  {
    EvictOrder(max, Mint(r, l), l);
  }

  lemma FinishOrder(r: Reg, l: nat, e: Entry)
    requires l < |r.launches|
    ensures r.order <= FinishWith(r, l, e).order && r.order <= FinishUntracked(r, l, e).order
  {
  }

  lemma ProbeOrder(r: Reg, l: nat, port: nat, answered: bool, timeUp: bool)
    requires l < |r.launches|
    ensures LoopTop(r, l).order == r.order && Launched(r, l, port).order == r.order
    ensures r.order <= Probed(r, l, answered, timeUp).order
  {
  }

  lemma BootOrder(max: nat, r: Reg, l: nat, w: Outcome)
    requires l < |r.launches| && r.launches[l].pc !in {Stopping, Evicting}
    ensures r.order <= Resume(max, r, l, w).order
  {
    match r.launches[l].pc
    case Allocating => if w.Okay? { ProbeOrder(r, l, w.port, false, false); }
    case Probing => ProbeOrder(r, l, 0, w.Okay?, w.NotOkay? && w.timeUp);
    case Sleeping => ProbeOrder(r, l, 0, false, false);
    case UnsupportedTeardown => FinishOrder(r, l, Entry(Unsupported, Some(r.launches[l].typ), None, None, l));
    case DeclineTeardown => FinishOrder(r, l, Entry(Stopped, None, None, None, l));
    case PreflightTeardown => FinishOrder(r, l, FailedEntry(r, l));
    case InstallTeardown => FinishOrder(r, l, FailedEntry(r, l));
    case ExitTeardown => FinishOrder(r, l, FailedEntry(r, l));
    case TimeoutTeardown => FinishOrder(r, l, FailedEntry(r, l));
    case _ =>
  }

  // ----- a background start at capacity

  predicate NotResumed(cs: seq<Choice>, l: nat) {
    forall i :: 0 <= i < |cs| && cs[i].DoResume? ==> cs[i].l != l
  }

  /** A launch stays suspended where it is until it is resumed. */
  lemma Waits(max: nat, r: Reg, ch: Choice, l: nat)
    requires l < |r.launches| && (ch.DoResume? ==> ch.l != l)
    ensures var r' := Next(max, r, ch);
      l < |r'.launches| && r'.launches[l].pc == r.launches[l].pc && r'.launches[l].sid == r.launches[l].sid
  {
    match ch
    case DoBegin(id, _, _, _) => StopWaits(r, id, l);
    case DoStop(id) => StopWaits(r, id, l);
    case DoExit(k) => if k < |r.launches| { ExitWaits(r, k, l); }
    case DoResume(k, w) => if k < |r.launches| { ResumeWaits(max, r, k, w, l); }
  }

  lemma StopWaits(r: Reg, id: SessionId, l: nat)
    requires l < |r.launches|
    ensures Stop(r, id).launches[l].pc == r.launches[l].pc && Stop(r, id).launches[l].sid == r.launches[l].sid
  {
    StopEffect(r, id);
    assert StoppedLaunch(r, id, l, Stop(r, id).launches[l]);
  }

  lemma ExitWaits(r: Reg, k: nat, l: nat)
    requires l < |r.launches| && k < |r.launches|
    ensures Exit(r, k).launches[l].pc == r.launches[l].pc && Exit(r, k).launches[l].sid == r.launches[l].sid
  {
  }

  lemma ResumeWaits(max: nat, r: Reg, k: nat, w: Outcome, l: nat)
    requires l < |r.launches| && k < |r.launches| && k != l
    ensures Resume(max, r, k, w).launches[l].pc == r.launches[l].pc && Resume(max, r, k, w).launches[l].sid == r.launches[l].sid
  {
    if !Evicts(max, r, k) {
      ResumeIsOwn(max, r, k, w);
    } else if r.launches[k].pc == Stopping {
      assert Mint(r, k).entries == r.entries;
      EvictWaits(max, Mint(r, k), k, l);
    } else {
      EvictWaits(max, r, k, l);
    }
  }

  lemma EvictWaits(max: nat, r: Reg, k: nat, l: nat)
    requires l < |r.launches| && k < |r.launches| && k != l
    ensures EvictTop(max, r, k).launches[l].pc == r.launches[l].pc && EvictTop(max, r, k).launches[l].sid == r.launches[l].sid
  {
    if Oldest(r.order, r.entries).Some? {
      StopWaits(r, Oldest(r.order, r.entries).value, l);
    }
  }

  lemma {:induction false} RunWaits(max: nat, r: Reg, cs: seq<Choice>, l: nat)
    requires l < |r.launches| && NotResumed(cs, l)
    ensures var r' := RunFrom(max, r, cs);
      l < |r'.launches| && r'.launches[l].pc == r.launches[l].pc && r'.launches[l].sid == r.launches[l].sid
  {
    if |cs| > 0 {
      RunWaits(max, r, cs[..|cs| - 1], l);
      Waits(max, RunFrom(max, r, cs[..|cs| - 1]), cs[|cs| - 1], l);
    }
  }

  /** A launch that has to do with the cap: a heavy app that is no verify boot. */
  predicate IsHeavyLaunch(o: Launch) {
    o.typ == ServedApp && !IsVerify(o.sid)
  }

  /**
   A background start that finds the registry at capacity ends at its next turn, whatever ran meanwhile: with its own
   entry `stopped` if it still owns the session, else with nothing written. It never launches anything.
   */
  lemma BackgroundStartDeclines(max: nat, r: Reg, l: nat, mid: seq<Choice>, w1: Outcome, w2: Outcome)
    requires l < |r.launches| && r.launches[l].pc == Stopping && IsHeavyLaunch(r.launches[l]) && !r.launches[l].mayEvict
    requires AtCapacity(max, r) && NotResumed(mid, l)
    ensures var b := RunFrom(max, Resume(max, r, l, w1), mid);
      && l < |b.launches| && b.launches[l].pc == DeclineTeardown && b.launches[l].sid == r.launches[l].sid
      && (var e := Resume(max, b, l, w2);
          && e.launches[l].pc == Finished && e.procs == b.procs
          && e.entries == if Owns(b, l) then b.entries[r.launches[l].sid := Entry(Stopped, None, None, None, l)] else b.entries)
  {
    assert Mint(r, l).entries == r.entries;
    RunWaits(max, Resume(max, r, l, w1), mid, l);
  }

  // ----- the eviction loop

  /** The heavy previews in insertion order. */
  function HeavyList(order: seq<SessionId>, entries: map<SessionId, Entry>): seq<SessionId> {
    if |order| == 0 then []
    else (if order[0] in Heavy(entries) then [order[0]] else []) + HeavyList(order[1..], entries)
  }

  lemma {:induction false} HeavyListMembers(order: seq<SessionId>, entries: map<SessionId, Entry>)
    ensures forall id :: id in HeavyList(order, entries) <==> id in order && id in Heavy(entries)
  {
    if |order| > 0 {
      HeavyListMembers(order[1..], entries);
      assert order == [order[0]] + order[1..];
    }
  }

  lemma {:induction false} OldestHeads(order: seq<SessionId>, entries: map<SessionId, Entry>)
    ensures Oldest(order, entries) ==
            if HeavyList(order, entries) == [] then None else Some(HeavyList(order, entries)[0])
  {
    if |order| > 0 {
      OldestHeads(order[1..], entries);
    }
  }

  predicate Once(s: seq<SessionId>) {
    forall i, j :: 0 <= i < j < |s| ==> s[i] != s[j]
  }

  lemma {:induction false} HeavyListOnce(order: seq<SessionId>, entries: map<SessionId, Entry>)
    requires Once(order)
    ensures Once(HeavyList(order, entries))
  {
    if |order| > 0 {
      HeavyListOnce(order[1..], entries);
      HeavyListMembers(order[1..], entries);
      var hs := HeavyList(order[1..], entries);
      forall j | 0 <= j < |hs| ensures hs[j] != order[0] {
        assert hs[j] in hs && hs[j] in order[1..];
      }
    }
  }

  lemma {:induction false} SizeOfOnce(s: seq<SessionId>, t: set<SessionId>)
    requires Once(s) && (forall id :: id in s <==> id in t)
    ensures |s| == |t|
  {
    if |s| > 0 {
      assert s == [s[0]] + s[1..];
      forall id ensures id in s[1..] <==> id in t - {s[0]} {
        if id in s[1..] {
          var j :| 0 <= j < |s[1..]| && s[1..][j] == id;
          assert s[j + 1] == id;
        }
      }
      SizeOfOnce(s[1..], t - {s[0]});
      assert s[0] in t;
    } else {
      assert t == {};
    }
  }

  lemma HeavyListCounts(r: Reg)
    requires Ordered(r.order, r.entries)
    ensures |HeavyList(r.order, r.entries)| == |Heavy(r.entries)|
  {
    HeavyListOnce(r.order, r.entries);
    HeavyListMembers(r.order, r.entries);
    SizeOfOnce(HeavyList(r.order, r.entries), Heavy(r.entries));
  }

  /** Stopping a preview takes it out of the list and leaves the others in order. */
  lemma {:induction false} HeavyListWithout(order: seq<SessionId>, entries: map<SessionId, Entry>, id: SessionId)
    requires Once(order) && id in entries
    ensures var hs, after := HeavyList(order, entries), entries[id := entries[id].(status := Stopped)];
      && (id !in order ==> HeavyList(order, after) == hs)
      && (hs != [] && hs[0] == id ==> HeavyList(order, after) == hs[1..])
  {
    if |order| > 0 {
      HeavyListWithout(order[1..], entries, id);
      if order[0] == id {
        assert id !in order[1..];
      }
    }
  }

  function StopAll(entries: map<SessionId, Entry>, ids: seq<SessionId>): map<SessionId, Entry> {
    map id | id in entries :: if id in ids then entries[id].(status := Stopped) else entries[id]
  }

  lemma StopOneMore(entries: map<SessionId, Entry>, ids: seq<SessionId>, id: SessionId)
    requires id in entries
    ensures var done := StopAll(entries, ids); id in done && StopAll(entries, ids + [id]) == done[id := done[id].(status := Stopped)]
  {
  }

  /** How many have to go so that one more fits; with a cap of 0 all of them go. */
  function Surplus(max: nat, heavy: nat): nat {
    if heavy < max then 0 else if max == 0 then heavy else heavy - max + 1
  }

  /** The launch is resumed `n` times in a row. */
  function Turns(max: nat, r: Reg, l: nat, n: nat, w: Outcome): (r': Reg)
    requires l < |r.launches|
    ensures |r'.launches| == |r.launches|
  {
    if n == 0 then r else Resume(max, Turns(max, r, l, n - 1, w), l, w)
  }

  ghost predicate InLoop(r: Reg, l: nat) {
    && l < |r.launches| && r.launches[l].pc == Evicting && Owns(r, l) && Ordered(r.order, r.entries)
    && r.launches[l].sid !in Heavy(r.entries)
  }

  /** Stopping another session does not take this one's token or turn. */
  lemma StopLeavesOwner(r: Reg, l: nat, id: SessionId)
    requires InLoop(r, l) && id != r.launches[l].sid && id in r.entries
    ensures var s := Stop(r, id);
      && s.order == r.order && s.entries == r.entries[id := r.entries[id].(status := Stopped)]
      && Ordered(s.order, s.entries) && |s.launches| == |r.launches|
      && s.launches[l].sid == r.launches[l].sid && s.launches[l].pc == Evicting && Owns(s, l)
  {
    StopEffect(r, id);
    StopOrdered(r, id);
    assert StoppedLaunch(r, id, l, Stop(r, id).launches[l]);
  }

  lemma StopShortensList(r: Reg, s: Reg)
    requires Ordered(r.order, r.entries) && Ordered(s.order, s.entries) && s.order == r.order
    requires HeavyList(r.order, r.entries) != [] && HeavyList(r.order, r.entries)[0] in r.entries
    requires var id := HeavyList(r.order, r.entries)[0]; s.entries == r.entries[id := r.entries[id].(status := Stopped)]
    ensures HeavyList(s.order, s.entries) == HeavyList(r.order, r.entries)[1..]
    ensures |Heavy(s.entries)| == |Heavy(r.entries)| - 1
    ensures forall id :: id in Heavy(s.entries) ==> id in Heavy(r.entries)
  {
    HeavyListWithout(r.order, r.entries, HeavyList(r.order, r.entries)[0]);
    HeavyListCounts(r);
    HeavyListCounts(s);
  }

  lemma TurnEvicts(max: nat, r: Reg, l: nat)
    requires InLoop(r, l) && Surplus(max, |Heavy(r.entries)|) > 0
    ensures HeavyList(r.order, r.entries) != [] && HeavyList(r.order, r.entries)[0] in r.entries
    ensures EvictTop(max, r, l) == At(Stop(r, HeavyList(r.order, r.entries)[0]), l, Evicting)
  {
    HeavyListCounts(r);
    OldestHeads(r.order, r.entries);
    HeavyListMembers(r.order, r.entries);
    assert HeavyList(r.order, r.entries)[0] in HeavyList(r.order, r.entries);
  }

  lemma TurnStaysInLoop(max: nat, r: Reg, l: nat)
    requires InLoop(r, l) && Surplus(max, |Heavy(r.entries)|) > 0
    requires HeavyList(r.order, r.entries) != [] && HeavyList(r.order, r.entries)[0] in r.entries
    ensures var hs := HeavyList(r.order, r.entries); var r' := At(Stop(r, hs[0]), l, Evicting);
      && InLoop(r', l) && r'.order == r.order
      && r'.entries == r.entries[hs[0] := r.entries[hs[0]].(status := Stopped)]
      && r'.launches[l].sid == r.launches[l].sid
      && HeavyList(r'.order, r'.entries) == hs[1..]
      && Surplus(max, |Heavy(r'.entries)|) == Surplus(max, |Heavy(r.entries)|) - 1
  {
    var id := HeavyList(r.order, r.entries)[0];
    HeavyListMembers(r.order, r.entries);
    assert id in HeavyList(r.order, r.entries);
    StopLeavesOwner(r, l, id);
    StopShortensList(r, At(Stop(r, id), l, Evicting));
  }

  lemma ResumeInLoop(max: nat, r: Reg, l: nat, w: Outcome)
    requires l < |r.launches| && r.launches[l].pc == Evicting
    ensures Resume(max, r, l, w) == EvictTop(max, r, l)
  {
  }

  /** After k turns: the first k heavy previews are stopped, the rest of the list is still to go. */
  ghost predicate TurnsDone(r: Reg, l: nat, k: nat, rk: Reg) {
    && InLoop(rk, l) && l < |r.launches| && rk.launches[l].sid == r.launches[l].sid && rk.order == r.order
    && k <= |HeavyList(r.order, r.entries)|
    && HeavyList(rk.order, rk.entries) == HeavyList(r.order, r.entries)[k..]
    && rk.entries == StopAll(r.entries, HeavyList(r.order, r.entries)[..k])
  }

  lemma NothingDone(r: Reg, l: nat)
    requires InLoop(r, l)
    ensures TurnsDone(r, l, 0, r)
  {
  }

  /** `r1` is `r` after one turn that stopped the first heavy preview. */
  ghost predicate OneStopped(max: nat, r: Reg, l: nat, r1: Reg) {
    var hs := HeavyList(r.order, r.entries);
    && l < |r.launches| && InLoop(r1, l) && r1.launches[l].sid == r.launches[l].sid && r1.order == r.order
    && hs != [] && hs[0] in r.entries && r1.entries == r.entries[hs[0] := r.entries[hs[0]].(status := Stopped)]
    && HeavyList(r1.order, r1.entries) == hs[1..]
    && Surplus(max, |Heavy(r1.entries)|) == Surplus(max, |Heavy(r.entries)|) - 1
  }

  lemma TurnStops(max: nat, r: Reg, l: nat, w: Outcome)
    requires InLoop(r, l) && Surplus(max, |Heavy(r.entries)|) > 0
    ensures OneStopped(max, r, l, Resume(max, r, l, w))
  {
    ResumeInLoop(max, r, l, w);
    TurnEvicts(max, r, l);
    TurnStaysInLoop(max, r, l);
  }

  lemma TurnDone(max: nat, r: Reg, l: nat, k: nat, rk: Reg, r1: Reg)
    requires TurnsDone(r, l, k, rk) && OneStopped(max, rk, l, r1)
    ensures TurnsDone(r, l, k + 1, r1)
  {
    var hs := HeavyList(r.order, r.entries);
    assert hs[k..][0] == hs[k] && hs[k..][1..] == hs[k + 1..] && hs[..k + 1] == hs[..k] + [hs[k]];
    StopOneMore(r.entries, hs[..k], hs[k]);
  }

  lemma StepDone(max: nat, r: Reg, l: nat, k: nat, r0: Reg, w: Outcome)
    requires TurnsDone(r, l, k, r0) && k + Surplus(max, |Heavy(r0.entries)|) == Surplus(max, |Heavy(r.entries)|)
    requires k < Surplus(max, |Heavy(r.entries)|)
    ensures var r1 := Resume(max, r0, l, w);
      TurnsDone(r, l, k + 1, r1) && k + 1 + Surplus(max, |Heavy(r1.entries)|) == Surplus(max, |Heavy(r.entries)|)
  {
    var r1 := Resume(max, r0, l, w);
    TurnStops(max, r0, l, w);
    TurnDone(max, r, l, k, r0, r1);
  }

  lemma TurnsLast(max: nat, r: Reg, l: nat, k: nat, w: Outcome)
    requires l < |r.launches|
    ensures Turns(max, r, l, k + 1, w) == Resume(max, Turns(max, r, l, k, w), l, w)
  {
  }

  lemma TurnsEvict(max: nat, r: Reg, l: nat, k: nat, w: Outcome) returns (rk: Reg)
    requires InLoop(r, l) && k <= Surplus(max, |Heavy(r.entries)|)
    ensures rk == Turns(max, r, l, k, w)
    ensures TurnsDone(r, l, k, rk) && k + Surplus(max, |Heavy(rk.entries)|) == Surplus(max, |Heavy(r.entries)|)
  {
    rk := r;
    NothingDone(r, l);
    for j := 0 to k
      invariant rk == Turns(max, r, l, j, w)
      invariant TurnsDone(r, l, j, rk) && j + Surplus(max, |Heavy(rk.entries)|) == Surplus(max, |Heavy(r.entries)|)
    {
      StepDone(max, r, l, j, rk, w);
      TurnsLast(max, r, l, j, w);
      rk := Resume(max, rk, l, w);
    }
  }

  lemma LastTurn(max: nat, r: Reg, l: nat)
    requires InLoop(r, l) && Surplus(max, |Heavy(r.entries)|) == 0
    ensures EvictTop(max, r, l) == Claim(r, l)
  {
    HeavyListCounts(r);
    OldestHeads(r.order, r.entries);
  }

  /** The first n heavy previews are stopped, and the launch has claimed its session. */
  ghost predicate ClaimedAfter(r: Reg, l: nat, n: nat, r': Reg)
    requires l < |r.launches|
  {
    && l < |r'.launches| && r'.launches[l].pc == Preflight && n <= |HeavyList(r.order, r.entries)|
    && r'.entries == StopAll(r.entries, HeavyList(r.order, r.entries)[..n])[r.launches[l].sid := Entry(Starting, None, None, None, l)]
  }

  /** The loop stops the first surplus heavy previews in insertion order, and then the launch claims its session. */
  lemma LoopEvictsTheOldest(max: nat, r: Reg, l: nat, w: Outcome)
    requires InLoop(r, l)
    ensures var n := Surplus(max, |Heavy(r.entries)|); ClaimedAfter(r, l, n, Turns(max, r, l, n + 1, w))
  {
    var n := Surplus(max, |Heavy(r.entries)|);
    var rn := TurnsEvict(max, r, l, n, w);
    ResumeInLoop(max, rn, l, w);
    LastTurn(max, rn, l);
  }

  lemma MintedInLoop(max: nat, r: Reg, l: nat, w: Outcome)
    requires l < |r.launches| && r.launches[l].pc == Stopping && IsHeavyLaunch(r.launches[l]) && r.launches[l].mayEvict
    requires r.launches[l].sid !in Heavy(r.entries) && Ordered(r.order, r.entries)
    ensures var m := Mint(r, l);
      InLoop(m, l) && m.entries == r.entries && m.order == r.order && m.launches[l].sid == r.launches[l].sid
      && Resume(max, r, l, w) == Resume(max, m, l, w)
  {
  }

  lemma {:induction false} MintedTurns(max: nat, r: Reg, m: Reg, l: nat, n: nat, w: Outcome)
    requires l < |r.launches| && l < |m.launches| && n > 0 && Resume(max, r, l, w) == Resume(max, m, l, w)
    ensures Turns(max, r, l, n, w) == Turns(max, m, l, n, w)
  {
    if n > 1 {
      MintedTurns(max, r, m, l, n - 1, w);
    }
  }

  /**
   An explicit start of a heavy app whose session is not itself a heavy preview, resumed in a registry that lists every
   key once, as all do: if nobody interferes it stops exactly the first heavy previews in insertion order that are too
   many, touches no other entry, and writes its own as `starting`.
   */
  lemma ExplicitStartEvictsTheOldest(max: nat, r: Reg, l: nat, w: Outcome)
    requires l < |r.launches| && r.launches[l].pc == Stopping && IsHeavyLaunch(r.launches[l]) && r.launches[l].mayEvict
    requires r.launches[l].sid !in Heavy(r.entries) && Ordered(r.order, r.entries)
    ensures var n := Surplus(max, |Heavy(r.entries)|); ClaimedAfter(r, l, n, Turns(max, r, l, n + 1, w))
  {
    MintedInLoop(max, r, l, w);
    LoopEvictsTheOldest(max, Mint(r, l), l, w);
    MintedTurns(max, r, Mint(r, l), l, Surplus(max, |Heavy(r.entries)|) + 1, w);
  }
}
