/** The boot of a launch that keeps its session: every way it can end, and what the shared state then holds. */
module PreviewBoot {
  import opened Wrappers
  import opened PreviewRegistry
  import opened PreviewCap
  import opened PreviewPolicy
  import opened PreviewLaunch

  /** The launch owns its session and its process, if any, is alive. */
  predicate Booting(r: Reg, l: nat, pc: Pc) {
    l < |r.launches| && r.launches[l].pc == pc && Owns(r, l) && !r.launches[l].exited
  }

  /** Every launch but `l` is untouched, ports aside. */
  ghost predicate OnlyLaunch(r: Reg, r': Reg, l: nat) {
    && |r'.launches| == |r.launches| && r'.tokens == r.tokens
    && forall j :: 0 <= j < |r.launches| && j != l ==> r'.launches[j] == r.launches[j].(released := r'.launches[j].released)
  }

  /** Serving: the process runs, is tracked, and the entry is `ready` on its port with the launch's digest. */
  ghost predicate Serves(r: Reg, l: nat, port: nat, r': Reg) {
    && l < |r.launches| && OnlyLaunch(r, r', l)
    && r'.launches[l] == r.launches[l].(pc := Finished, port := Some(port), released := false, proc := Running, watched := true)
    && r'.entries == r.entries[r.launches[l].sid := Entry(Ready, None, Some(port), r.launches[l].digest, l)]
    && r'.procs == r.procs[r.launches[l].sid := l]
  }

  /** Failed: no process, no port, nothing tracked, and the entry says so. */
  ghost predicate HasFailed(r: Reg, l: nat, r': Reg) {
    && l < |r.launches| && OnlyLaunch(r, r', l)
    && r'.launches[l].pc == Finished && r'.launches[l].proc != Running
    && (r'.launches[l].port.Some? ==> r'.launches[l].released)
    && r'.entries == r.entries[r.launches[l].sid := Entry(Failed, None, r.launches[l].port, None, l)]
    && r'.procs == r.procs - {r.launches[l].sid}
  }

  lemma PortTaken(max: nat, r: Reg, l: nat, port: nat)
    requires Booting(r, l, Allocating)
    ensures var r' := Resume(max, r, l, Okay(port));
      && Booting(r', l, Probing) && OnlyLaunch(r, r', l) && r'.entries == r.entries
      && r'.procs == r.procs[r.launches[l].sid := l]
      && r'.launches[l] == r.launches[l].(pc := Probing, port := Some(port), released := false, proc := Running)
  {
  }

  lemma ProbeAnswered(max: nat, r: Reg, l: nat, x: nat)
    requires Booting(r, l, Probing)
    ensures var r' := Resume(max, r, l, Okay(x));
      && OnlyLaunch(r, r', l) && r'.procs == r.procs
      && r'.launches[l] == r.launches[l].(pc := Finished, watched := true)
      && r'.entries == r.entries[r.launches[l].sid := Entry(Ready, None, r.launches[l].port, r.launches[l].digest, l)]
  {
  }

  lemma StepsOn(max: nat, r: Reg, l: nat, x: nat)
    requires Booting(r, l, Preflight) || Booting(r, l, Installing)
    ensures Resume(max, r, l, Okay(x)) == At(r, l, if r.launches[l].pc == Preflight then Installing else Allocating)
  {
  }

  /** Preflight, install, port and probe all succeed: the preview is served. */
  lemma BootSucceeds(max: nat, r: Reg, l: nat, x: nat, port: nat)
    requires Booting(r, l, Preflight)
    ensures var r2 := Resume(max, Resume(max, r, l, Okay(x)), l, Okay(x));
      Serves(r, l, port, Resume(max, Resume(max, r2, l, Okay(port)), l, Okay(x)))
  {
    var r1 := At(r, l, Installing);
    var r2 := At(r1, l, Allocating);
    StepsOn(max, r, l, x);
    StepsOn(max, r1, l, x);
    PortTaken(max, r2, l, port);
    ProbeAnswered(max, Resume(max, r2, l, Okay(port)), l, x);
    ServedFrom(r, l, port, r2, Resume(max, r2, l, Okay(port)), Resume(max, Resume(max, r2, l, Okay(port)), l, Okay(x)));
  }

  lemma ServedFrom(r: Reg, l: nat, port: nat, r2: Reg, r3: Reg, r4: Reg)
    requires Booting(r, l, Preflight) && r2 == At(At(r, l, Installing), l, Allocating)
    requires OnlyLaunch(r2, r3, l) && r3.entries == r2.entries && r3.procs == r2.procs[r.launches[l].sid := l]
    requires r3.launches[l] == r2.launches[l].(pc := Probing, port := Some(port), released := false, proc := Running)
    requires OnlyLaunch(r3, r4, l) && r4.procs == r3.procs && r4.launches[l] == r3.launches[l].(pc := Finished, watched := true)
    requires r4.entries == r3.entries[r.launches[l].sid := Entry(Ready, None, Some(port), r.launches[l].digest, l)]
    ensures Serves(r, l, port, r4)
  {
  }

  /** What takes a slot under the cap: a served preview of a session that is no verify boot, but not a failed one. */
  lemma ServedTakesASlot(r: Reg, l: nat, port: nat, r': Reg)
    requires l < |r.launches|
    ensures Serves(r, l, port, r') ==> (r.launches[l].sid in Heavy(r'.entries) <==> !IsVerify(r.launches[l].sid))
    ensures HasFailed(r, l, r') ==> r.launches[l].sid !in Heavy(r'.entries)
  {
  }

  /** A probe without an answer, and the sleep after it, change nothing at all, however often that happens. */
  lemma UnansweredProbeIsInvisible(max: nat, r: Reg, l: nat, w: Outcome)
    requires Booting(r, l, Probing)
    ensures Resume(max, Resume(max, r, l, NotOkay(false)), l, w) == r
  {
    assert r.launches[l := r.launches[l].(pc := Sleeping)][l := r.launches[l]] == r.launches;
  }

  /** A missing package manager or a failed install. */
  lemma FailsBeforeLaunch(max: nat, r: Reg, l: nat, timeUp: bool, w: Outcome)
    requires Booting(r, l, Preflight) || Booting(r, l, Installing)
    requires r.launches[l].proc == NotLaunched && r.launches[l].port.None? && r.launches[l].sid !in r.procs
    ensures HasFailed(r, l, Resume(max, Resume(max, r, l, NotOkay(timeUp)), l, w))
  {
    var pc := if r.launches[l].pc == Preflight then PreflightTeardown else InstallTeardown;
    assert Resume(max, r, l, NotOkay(timeUp)) == At(r, l, pc);
    assert r.procs - {r.launches[l].sid} == r.procs;
    TornDown(max, At(r, l, pc), l, w);
  }

  lemma TornDown(max: nat, r: Reg, l: nat, w: Outcome)
    requires l < |r.launches| && Owns(r, l) && r.launches[l].pc in {PreflightTeardown, InstallTeardown, ExitTeardown, TimeoutTeardown}
    ensures var r' := Resume(max, r, l, w);
      && r'.launches == r.launches[l := r.launches[l].(pc := Finished)] && r'.tokens == r.tokens
      && r'.entries == r.entries[r.launches[l].sid := Entry(Failed, None, r.launches[l].port, None, l)]
      && r'.procs == (if r.launches[l].pc in {ExitTeardown, TimeoutTeardown} then r.procs - {r.launches[l].sid} else r.procs)
  {
  }

  /** The probes run out of time: the process is killed and its port given back. */
  lemma ProbeTimesOut(max: nat, r: Reg, l: nat, w: Outcome)
    requires Booting(r, l, Probing)
    ensures HasFailed(r, l, Resume(max, Resume(max, r, l, NotOkay(true)), l, w))
  {
    assert Resume(max, r, l, NotOkay(true)) == GiveBack(r, l, TimeoutTeardown);
    GiveBackIsOwn(r, l, TimeoutTeardown);
    GivenBack(r, l, TimeoutTeardown);
    TornDown(max, GiveBack(r, l, TimeoutTeardown), l, w);
  }

  lemma GivenBack(r: Reg, l: nat, pc: Pc)
    requires l < |r.launches|
    ensures var r' := GiveBack(r, l, pc);
      && OnlyLaunch(r, r', l) && r'.entries == r.entries && r'.procs == r.procs
      && r'.launches[l].pc == pc && r'.launches[l].sid == r.launches[l].sid && r'.launches[l].token == r.launches[l].token
      && r'.launches[l].port == r.launches[l].port && r'.launches[l].proc != Running
      && (r'.launches[l].port.Some? ==> r'.launches[l].released)
  {
    GiveBackEffect(r, l, pc);
  }

  /** The process dies before it answers: the launch gives its port back and reports the failure. */
  lemma EarlyExitFails(max: nat, r: Reg, l: nat, w1: Outcome, w2: Outcome)
    requires l < |r.launches| && r.launches[l].pc == Sleeping && Owns(r, l) && r.launches[l].exited && r.launches[l].proc == Gone
    ensures HasFailed(r, l, Resume(max, Resume(max, r, l, w1), l, w2))
  {
    var r1 := ReleasePort(r, r.launches[l].port);
    ReleaseEffect(r, r.launches[l].port);
    assert Resume(max, r, l, w1) == At(r1, l, ExitTeardown);
    TornDown(max, At(r1, l, ExitTeardown), l, w2);
  }

  /** A served preview crashes: its entry turns `failed`, the port goes back and nothing is tracked. */
  lemma CrashAfterReadyFails(r: Reg, l: nat, port: nat, r': Reg)
    requires Serves(r, l, port, r') && Owns(r, l)
    ensures var c := Exit(r', l);
      && c.launches[l].proc == Gone && c.launches[l].released && c.procs == r.procs - {r.launches[l].sid}
      && c.entries == r.entries[r.launches[l].sid := Entry(Failed, None, Some(port), None, l)]
  {
    assert Owns(r', l);
  }

  /** A static app is served from its files at once, without a process. */
  lemma StaticIsReadyAtOnce(max: nat, r: Reg, l: nat, w: Outcome)
    requires l < |r.launches| && r.launches[l].pc == Stopping && r.launches[l].typ == StaticApp
    ensures var o, r' := r.launches[l], Resume(max, r, l, w);
      && r'.launches[l].pc == Finished && r'.procs == r.procs
      && r'.entries == r.entries[o.sid := Entry(Ready, Some(StaticApp), None, o.digest, l)]
      && o.sid !in Heavy(r'.entries)
  {
  }

  /** An app without a start command is reported, unless the session was lost meanwhile. */
  lemma UnsupportedIsReported(max: nat, r: Reg, l: nat, w1: Outcome, w2: Outcome)
    requires l < |r.launches| && r.launches[l].pc == Stopping && r.launches[l].typ == OtherApp
    ensures var r1 := Resume(max, r, l, w1); var r2 := Resume(max, r1, l, w2);
      && r2.launches[l].pc == Finished && r2.procs == r.procs
      && r2.entries == r.entries[r.launches[l].sid := Entry(Unsupported, Some(OtherApp), None, None, l)]
      && r.launches[l].sid !in Heavy(r2.entries)
  {
    var r1 := At(Mint(r, l), l, UnsupportedTeardown);
    assert Resume(max, r, l, w1) == r1;
    UnsupportedTornDown(max, r1, l, w2);
  }

  lemma UnsupportedTornDown(max: nat, r: Reg, l: nat, w: Outcome)
    requires l < |r.launches| && Owns(r, l) && r.launches[l].pc == UnsupportedTeardown
    ensures var r' := Resume(max, r, l, w);
      && r'.launches[l].pc == Finished && r'.procs == r.procs
      && r'.entries == r.entries[r.launches[l].sid := Entry(Unsupported, Some(r.launches[l].typ), None, None, l)]
  {
  }

  /** A verify boot always, and any other start below the cap, goes straight on to boot, and stops nobody. */
  lemma ClaimsBelowTheCap(max: nat, r: Reg, l: nat, w: Outcome)
    requires l < |r.launches| && r.launches[l].pc == Stopping && r.launches[l].typ == ServedApp
    requires IsVerify(r.launches[l].sid) || !AtCapacity(max, r)
    ensures var r' := Resume(max, r, l, w);
      && r'.launches[l].pc == Preflight && Owns(r', l) && r'.procs == r.procs
      && r'.entries == r.entries[r.launches[l].sid := Entry(Starting, None, None, None, l)]
      && (r.launches[l].sid in Heavy(r'.entries) <==> !IsVerify(r.launches[l].sid))
  {
    assert Mint(r, l).entries == r.entries;
  }
}
