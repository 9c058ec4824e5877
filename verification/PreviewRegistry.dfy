/**
 The preview registry as a machine cut at its `await`s. A launch is one call of `start`; between two of its steps any
 other launch, stop or process exit may run. Processes and ports are resources recorded on the launch that holds them.
 */
module PreviewRegistry {
  import opened Wrappers

  type SessionId = string

  const VERIFY_SUFFIX := "#verify"

  /** `ServedApp` needs a dev server, `OtherApp` has no start command. */
  datatype AppType = StaticApp | ServedApp | OtherApp

  datatype Status = Starting | Ready | Failed | Stopped | Unsupported

  /** `writer` is the launch that wrote the entry. */
  datatype Entry = Entry(status: Status, typ: Option<AppType>, port: Option<nat>, digest: Option<string>, writer: nat)

  datatype Proc = NotLaunched | Running | Killed | Gone

  /** The await a launch is suspended at. */
  datatype Pc =
    | Stopping            // the stop it begins with
    | UnsupportedTeardown
    | DeclineTeardown
    | Evicting            // a stop of the oldest heavy preview
    | Preflight
    | PreflightTeardown
    | Installing
    | InstallTeardown
    | Allocating
    | StandDown           // superseded, own resources already given back
    | Probing
    | Sleeping
    | ExitTeardown
    | TimeoutTeardown
    | Finished

  /** `released` says that `releasePort(port)` was called since the port was allocated. */
  datatype Launch = Launch(sid: SessionId, typ: AppType, mayEvict: bool, digest: Option<string>, token: Option<nat>, pc: Pc,
                           port: Option<nat>, released: bool, proc: Proc, exited: bool, watched: bool)

  /** `order` is the insertion order of `entries`; `procs` maps a session to the launch whose process it tracks. */
  datatype Reg = Reg(entries: map<SessionId, Entry>, order: seq<SessionId>, procs: map<SessionId, nat>,
                     tokens: map<SessionId, nat>, launchSeq: nat, launches: seq<Launch>)

  const EMPTY := Reg(map[], [], map[], map[], 0, [])

  /** `id.includes(VERIFY_SESSION_SUFFIX)`. */
  predicate IsVerify(id: SessionId) {
    |id| >= |VERIFY_SUFFIX| && (id[..|VERIFY_SUFFIX|] == VERIFY_SUFFIX || IsVerify(id[1..]))
  }

  predicate CountsTowardCap(id: SessionId, e: Entry) {
    (e.status == Ready || e.status == Starting) && e.typ != Some(StaticApp) && !IsVerify(id)
  }

  function Heavy(entries: map<SessionId, Entry>): set<SessionId> {
    set id | id in entries && CountsTowardCap(id, entries[id])
  }

  predicate AtCapacity(max: nat, r: Reg) {
    |Heavy(r.entries)| >= max
  }

  /** The first entry in insertion order that counts. */
  function Oldest(order: seq<SessionId>, entries: map<SessionId, Entry>): (o: Option<SessionId>)
    ensures o.Some? ==> o.value in Heavy(entries)
  {
    if |order| == 0 then None
    else if order[0] in entries && CountsTowardCap(order[0], entries[order[0]]) then Some(order[0])
    else Oldest(order[1..], entries)
  }

  predicate Owns(r: Reg, l: nat)
    requires l < |r.launches|
  {
    var o := r.launches[l];
    o.token.Some? && o.sid in r.tokens && r.tokens[o.sid] == o.token.value
  }

  function Set(r: Reg, id: SessionId, e: Entry): (r': Reg)
    ensures |r'.launches| == |r.launches|
  {
    r.(entries := r.entries[id := e], order := if id in r.entries then r.order else r.order + [id])
  }

  function MarkReleased(ls: seq<Launch>, p: nat): (r: seq<Launch>)
    ensures |r| == |ls|
    ensures forall i :: 0 <= i < |ls| ==> r[i] == if ls[i].port == Some(p) then ls[i].(released := true) else ls[i]
  {
    seq(|ls|, i requires 0 <= i < |ls| => if ls[i].port == Some(p) then ls[i].(released := true) else ls[i])
  }

  function ReleasePort(r: Reg, p: Option<nat>): (r': Reg)
    ensures |r'.launches| == |r.launches|
  {
    if p.None? then r else r.(launches := MarkReleased(r.launches, p.value))
  }

  function Kill(r: Reg, l: nat): (r': Reg)
    ensures |r'.launches| == |r.launches|
  {
    if l < |r.launches| && r.launches[l].proc == Running then
      r.(launches := r.launches[l := r.launches[l].(proc := Killed)])
    else r
  }

  function BumpToken(r: Reg, id: SessionId): (r': Reg)
    ensures |r'.launches| == |r.launches|
  {
    r.(launchSeq := r.launchSeq + 1, tokens := r.tokens[id := r.launchSeq + 1])
  }

  function KillTracked(r: Reg, id: SessionId): (r': Reg)
    ensures |r'.launches| == |r.launches|
  {
    if id in r.procs then Kill(r, r.procs[id]).(procs := r.procs - {id}) else r
  }

  function StopEntry(r: Reg, id: SessionId): (r': Reg)
    ensures |r'.launches| == |r.launches|
  {
    if id !in r.entries then r
    else Set(ReleasePort(r, r.entries[id].port), id, r.entries[id].(status := Stopped))
  }

  /** The synchronous part of `stop`. */
  function Stop(r: Reg, id: SessionId): (r': Reg)
    ensures |r'.launches| == |r.launches|
  {
    StopEntry(KillTracked(BumpToken(r, id), id), id)
  }

  /** `start` up to its first await. */
  function Begin(r: Reg, id: SessionId, typ: AppType, mayEvict: bool, digest: Option<string>): Reg {
    var r1 := Stop(r, id);
    r1.(launches := r1.launches + [Launch(id, typ, mayEvict, digest, None, Stopping, None, false, NotLaunched, false, false)])
  }

  function At(r: Reg, l: nat, pc: Pc): (r': Reg)
    requires l < |r.launches|
    ensures |r'.launches| == |r.launches|
  {
    r.(launches := r.launches[l := r.launches[l].(pc := pc)])
  }

  /** The end of a launch: the owner writes the entry, a superseded launch stands down. */
  function FinishWith(r: Reg, l: nat, e: Entry): (r': Reg)
    requires l < |r.launches|
    ensures |r'.launches| == |r.launches|
  {
    var r1 := At(r, l, Finished);
    if Owns(r, l) then Set(r1, r.launches[l].sid, e) else r1
  }

  function FinishUntracked(r: Reg, l: nat, e: Entry): (r': Reg)
    requires l < |r.launches|
    ensures |r'.launches| == |r.launches|
  {
    if Owns(r, l) then FinishWith(r.(procs := r.procs - {r.launches[l].sid}), l, e) else At(r, l, Finished)
  }

  function Claim(r: Reg, l: nat): (r': Reg)
    requires l < |r.launches|
    ensures |r'.launches| == |r.launches|
  {
    if Owns(r, l) then At(Set(r, r.launches[l].sid, Entry(Starting, None, None, None, l)), l, Preflight)
    else At(r, l, Finished)
  }

  function EvictTop(max: nat, r: Reg, l: nat): (r': Reg)
    requires l < |r.launches|
    ensures |r'.launches| == |r.launches|
  {
    var oldest := if AtCapacity(max, r) then Oldest(r.order, r.entries) else None;
    if oldest.None? then Claim(r, l) else At(Stop(r, oldest.value), l, Evicting)
  }

  /** The launch takes a new token; where it suspends next is decided right after. */
  function Mint(r: Reg, l: nat): (r': Reg)
    requires l < |r.launches|
    ensures |r'.launches| == |r.launches|
  {
    var o := r.launches[l];
    BumpToken(r, o.sid).(launches := r.launches[l := o.(token := Some(r.launchSeq + 1), pc := Evicting)])
  }

  function AfterStop(max: nat, r0: Reg, l: nat): (r': Reg)
    requires l < |r0.launches|
    ensures |r'.launches| == |r0.launches|
  {
    var r, o := Mint(r0, l), r0.launches[l];
    if o.typ == StaticApp then FinishWith(r, l, Entry(Ready, Some(StaticApp), None, o.digest, l))
    else if o.typ == OtherApp then At(r, l, UnsupportedTeardown)
    else if IsVerify(o.sid) then Claim(r, l)
    else if o.mayEvict then EvictTop(max, r, l)
    else if AtCapacity(max, r) then At(r, l, DeclineTeardown)
    else Claim(r, l)
  }

  /** Kill the launch's own process, release its own port, then tear down its own directory. */
  function GiveBack(r: Reg, l: nat, pc: Pc): (r': Reg)
    requires l < |r.launches|
    ensures |r'.launches| == |r.launches|
  {
    At(ReleasePort(Kill(r, l), r.launches[l].port), l, pc)
  }

  function LoopTop(r: Reg, l: nat): (r': Reg)
    requires l < |r.launches|
    ensures |r'.launches| == |r.launches|
  {
    if !Owns(r, l) then GiveBack(r, l, StandDown)
    else if r.launches[l].exited then At(ReleasePort(r, r.launches[l].port), l, ExitTeardown)
    else At(r, l, Probing)
  }

  function Launched(r: Reg, l: nat, port: nat): (r': Reg)
    requires l < |r.launches|
    ensures |r'.launches| == |r.launches|
  {
    var r1 := r.(launches := r.launches[l := r.launches[l].(port := Some(port), released := false)]);
    if !Owns(r1, l) then GiveBack(r1, l, StandDown)
    else
      LoopTop(r1.(launches := r1.launches[l := r1.launches[l].(proc := Running)],
                  procs := r1.procs[r1.launches[l].sid := l]), l)
  }

  function Probed(r: Reg, l: nat, answered: bool, timeUp: bool): (r': Reg)
    requires l < |r.launches|
    ensures |r'.launches| == |r.launches|
  {
    var o := r.launches[l];
    if answered then
      if !Owns(r, l) then GiveBack(r, l, StandDown)
      else
        FinishWith(r.(launches := r.launches[l := o.(watched := true)]), l, Entry(Ready, None, o.port, o.digest, l))
    else if timeUp then GiveBack(r, l, TimeoutTeardown)
    else At(r, l, Sleeping)
  }

  /** What an awaited call brings back; `Rejected` is an exception, which leaves `start`. */
  datatype Outcome = Okay(port: nat) | NotOkay(timeUp: bool) | Rejected

  function FailedEntry(r: Reg, l: nat): Entry
    requires l < |r.launches|
  {
    Entry(Failed, None, r.launches[l].port, None, l)
  }

  /** One launch runs from the await it is suspended at to its next one. */
  function Resume(max: nat, r: Reg, l: nat, w: Outcome): (r': Reg)
    requires l < |r.launches|
    ensures |r'.launches| == |r.launches|
  {
    match r.launches[l].pc
    case Stopping => AfterStop(max, r, l)
    case UnsupportedTeardown => FinishWith(r, l, Entry(Unsupported, Some(r.launches[l].typ), None, None, l))
    case DeclineTeardown => FinishWith(r, l, Entry(Stopped, None, None, None, l))
    case Evicting => EvictTop(max, r, l)
    case Preflight => (match w case Okay(_) => At(r, l, Installing) case NotOkay(_) => At(r, l, PreflightTeardown)
                               case Rejected => At(r, l, Finished))
    case PreflightTeardown => FinishWith(r, l, FailedEntry(r, l))
    case Installing => (match w case Okay(_) => At(r, l, Allocating) case NotOkay(_) => At(r, l, InstallTeardown)
                                case Rejected => At(r, l, Finished))
    case InstallTeardown => FinishWith(r, l, FailedEntry(r, l))
    case Allocating => if w.Okay? then Launched(r, l, w.port) else At(r, l, Finished)
    case StandDown => At(r, l, Finished)
    case Probing => Probed(r, l, w.Okay?, w.NotOkay? && w.timeUp)
    case Sleeping => LoopTop(r, l)
    case ExitTeardown => FinishUntracked(r, l, FailedEntry(r, l))
    case TimeoutTeardown => FinishUntracked(r, l, FailedEntry(r, l))
    case Finished => r
  }

  /** The process of a launch exits, on its own or killed: the exit callbacks run. */
  function Exit(r: Reg, l: nat): (r': Reg)
    requires l < |r.launches|
    ensures |r'.launches| == |r.launches|
  {
    var o := r.launches[l];
    if o.proc != Running && o.proc != Killed then r
    else
      var r1 := r.(launches := r.launches[l := o.(proc := Gone, exited := true)]);
      if o.watched && Owns(r, l) && o.sid in r.entries && r.entries[o.sid].status == Ready && r.entries[o.sid].port == o.port then
        Set(ReleasePort(r1, o.port).(procs := r.procs - {o.sid}), o.sid, FailedEntry(r, l))
      else r1
  }

  datatype Choice =
    | DoBegin(id: SessionId, typ: AppType, mayEvict: bool, digest: Option<string>)
    | DoResume(l: nat, w: Outcome)
    | DoExit(l: nat)
    | DoStop(id: SessionId)

  function Next(max: nat, r: Reg, ch: Choice): Reg {
    match ch
    case DoBegin(id, typ, mayEvict, digest) => Begin(r, id, typ, mayEvict, digest)
    case DoResume(l, w) => if l < |r.launches| then Resume(max, r, l, w) else r
    case DoExit(l) => if l < |r.launches| then Exit(r, l) else r
    case DoStop(id) => Stop(r, id)
  }

  function RunFrom(max: nat, r: Reg, cs: seq<Choice>): Reg {
    if |cs| == 0 then r else Next(max, RunFrom(max, r, cs[..|cs| - 1]), cs[|cs| - 1])
  }

  // ----- the registry object

  /** The heavy previews among the first `n` entries. */
  function HeavyUpTo(order: seq<SessionId>, entries: map<SessionId, Entry>, n: nat): set<SessionId>
    requires n <= |order|
  {
    set id | id in order[..n] && id in entries && CountsTowardCap(id, entries[id])
  }

  /** A `Map`'s insertion order: every key once. */
  ghost predicate Ordered(order: seq<SessionId>, entries: map<SessionId, Entry>) {
    && (forall i, j :: 0 <= i < j < |order| ==> order[i] != order[j])
    && (forall id :: id in entries <==> id in order)
  }

  lemma HeavyUpToNext(order: seq<SessionId>, entries: map<SessionId, Entry>, n: nat)
    requires n < |order| && Ordered(order, entries)
    ensures order[n] in entries && order[n] !in HeavyUpTo(order, entries, n)
    ensures HeavyUpTo(order, entries, n + 1) ==
            HeavyUpTo(order, entries, n) + (if CountsTowardCap(order[n], entries[order[n]]) then {order[n]} else {})
  {
    assert order[n] in order;
    assert order[..n + 1] == order[..n] + [order[n]];
  }

  lemma HeavyUpToAll(order: seq<SessionId>, entries: map<SessionId, Entry>)
    requires Ordered(order, entries)
    ensures HeavyUpTo(order, entries, |order|) == Heavy(entries)
  {
    assert order[..|order|] == order;
  }

  lemma {:induction false} OldestIsFirst(order: seq<SessionId>, entries: map<SessionId, Entry>, n: nat)
    requires n < |order| && order[n] in entries && CountsTowardCap(order[n], entries[order[n]])
    requires forall i :: 0 <= i < n ==> !(order[i] in entries && CountsTowardCap(order[i], entries[order[i]]))
    ensures Oldest(order, entries) == Some(order[n])
  {
    if n > 0 {
      OldestIsFirst(order[1..], entries, n - 1);
    }
  }

  lemma {:induction false} OldestNone(order: seq<SessionId>, entries: map<SessionId, Entry>)
    requires forall i :: 0 <= i < |order| ==> !(order[i] in entries && CountsTowardCap(order[i], entries[order[i]]))
    ensures Oldest(order, entries) == None
  {
    if |order| > 0 {
      OldestNone(order[1..], entries);
    }
  }

  /**
   The fields of the registry, and the frames of the suspended `start` calls with their processes and ports. Each
   method is one stretch of `start`, `stop` or an exit callback between two awaits.
   */
  class Registry {
    const max: nat
    var entries: map<SessionId, Entry>
    var order: seq<SessionId>
    var procs: map<SessionId, nat>
    var launchToken: map<SessionId, nat>
    var launchSeq: nat
    var launches: seq<Launch>

    function AsReg(): Reg
      reads this
    {
      Reg(entries, order, procs, launchToken, launchSeq, launches)
    }

    ghost predicate Valid()
      reads this
    {
      Ordered(order, entries)
    }

    constructor (max: nat)
      ensures Valid() && AsReg() == EMPTY && this.max == max
    {
      this.max := max;
      entries, order, procs, launchToken, launchSeq, launches := map[], [], map[], map[], 0, [];
    }

    method Write(id: SessionId, e: Entry)
      requires Valid()
      modifies this
      ensures Valid() && AsReg() == Set(old(AsReg()), id, e)
    {
      if id !in entries {
        order := order + [id];
      }
      entries := entries[id := e];
    }

    /** `atCapacity`: counts over the entries. */
    method CheckCapacity() returns (full: bool)
      requires Valid()
      ensures full == AtCapacity(max, AsReg())
    {
      var n := 0;
      for i := 0 to |order|
        invariant n == |HeavyUpTo(order, entries, i)|
      {
        HeavyUpToNext(order, entries, i);
        if CountsTowardCap(order[i], entries[order[i]]) {
          n := n + 1;
        }
      }
      HeavyUpToAll(order, entries);
      full := n >= max;
    }

    /** `[...entries.values()].find(...)`. */
    method FindOldest() returns (oldest: Option<SessionId>)
      requires Valid()
      ensures oldest == Oldest(order, entries)
    {
      for i := 0 to |order|
        invariant forall k :: 0 <= k < i ==> !(order[k] in entries && CountsTowardCap(order[k], entries[order[k]]))
      {
        if order[i] in entries && CountsTowardCap(order[i], entries[order[i]]) {
          OldestIsFirst(order, entries, i);
          return Some(order[i]);
        }
      }
      OldestNone(order, entries);
      return None;
    }

    method KillProc(l: nat)
      modifies `launches
      ensures AsReg() == Kill(old(AsReg()), l)
    {
      if l < |launches| && launches[l].proc == Running {
        launches := launches[l := launches[l].(proc := Killed)];
      }
    }

    method Release(p: Option<nat>)
      modifies `launches
      ensures AsReg() == ReleasePort(old(AsReg()), p)
    {
      if p.Some? {
        launches := MarkReleased(launches, p.value);
      }
    }

    method StopSession(id: SessionId)
      requires Valid()
      modifies this
      ensures Valid() && AsReg() == Stop(old(AsReg()), id)
    {
      launchSeq := launchSeq + 1;
      launchToken := launchToken[id := launchSeq];
      if id in procs {
        KillProc(procs[id]);
        procs := procs - {id};
      }
      if id in entries {
        var e := entries[id];
        Release(e.port);
        Write(id, e.(status := Stopped));
      }
    }

    method StartCall(id: SessionId, typ: AppType, mayEvict: bool, digest: Option<string>) returns (l: nat)
      requires Valid()
      modifies this
      ensures Valid() && AsReg() == Begin(old(AsReg()), id, typ, mayEvict, digest) && l == |old(launches)|
    {
      StopSession(id);
      l := |launches|;
      launches := launches + [Launch(id, typ, mayEvict, digest, None, Stopping, None, false, NotLaunched, false, false)];
    }

    method Suspend(l: nat, pc: Pc)
      requires l < |launches|
      modifies `launches
      ensures AsReg() == At(old(AsReg()), l, pc)
    {
      launches := launches[l := launches[l].(pc := pc)];
    }

    method OwnsToken(l: nat) returns (owns: bool)
      requires l < |launches|
      ensures owns == Owns(AsReg(), l)
    {
      var o := launches[l];
      owns := o.token.Some? && o.sid in launchToken && launchToken[o.sid] == o.token.value;
    }

    method Settle(l: nat, e: Entry)
      requires Valid() && l < |launches|
      modifies this
      ensures Valid() && AsReg() == FinishWith(old(AsReg()), l, e)
    {
      var owns := OwnsToken(l);
      var id := launches[l].sid;
      Suspend(l, Finished);
      if owns {
        Write(id, e);
      }
    }

    method ClaimSession(l: nat)
      requires Valid() && l < |launches|
      modifies this
      ensures Valid() && AsReg() == Claim(old(AsReg()), l)
    {
      var owns := OwnsToken(l);
      if !owns {
        Suspend(l, Finished);
        return;
      }
      Write(launches[l].sid, Entry(Starting, None, None, None, l));
      Suspend(l, Preflight);
    }

    /** One turn of the eviction loop, and what follows it. */
    method EvictOrClaim(l: nat)
      requires Valid() && l < |launches|
      modifies this
      ensures Valid() && AsReg() == EvictTop(max, old(AsReg()), l)
    {
      var full := CheckCapacity();
      if full {
        var oldest := FindOldest();
        if oldest.Some? {
          StopSession(oldest.value);
          Suspend(l, Evicting);
          return;
        }
      }
      ClaimSession(l);
    }

    method AfterOwnStop(l: nat)
      requires Valid() && l < |launches|
      modifies this
      ensures Valid() && AsReg() == AfterStop(max, old(AsReg()), l)
    {
      var o := launches[l];
      launchSeq := launchSeq + 1;
      launchToken := launchToken[o.sid := launchSeq];
      launches := launches[l := o.(token := Some(launchSeq), pc := Evicting)];
      if o.typ == StaticApp {
        Settle(l, Entry(Ready, Some(StaticApp), None, o.digest, l));
        return;
      }
      if o.typ == OtherApp {
        Suspend(l, UnsupportedTeardown);
        return;
      }
      if !IsVerify(o.sid) {
        if !o.mayEvict {
          var full := CheckCapacity();
          if full {
            Suspend(l, DeclineTeardown);
            return;
          }
        } else {
          EvictOrClaim(l);
          return;
        }
      }
      ClaimSession(l);
    }

    method GiveUp(l: nat, pc: Pc)
      requires Valid() && l < |launches|
      modifies `launches
      ensures Valid() && AsReg() == GiveBack(old(AsReg()), l, pc)
    {
      var p := launches[l].port;
      KillProc(l);
      Release(p);
      Suspend(l, pc);
    }

    method ProbeLoopTop(l: nat)
      requires Valid() && l < |launches|
      modifies `launches
      ensures Valid() && AsReg() == LoopTop(old(AsReg()), l)
    {
      var owns := OwnsToken(l);
      if !owns {
        GiveUp(l, StandDown);
      } else if launches[l].exited {
        Release(launches[l].port);
        Suspend(l, ExitTeardown);
      } else {
        Suspend(l, Probing);
      }
    }

    method PortAllocated(l: nat, port: nat)
      requires Valid() && l < |launches|
      modifies this
      ensures Valid() && AsReg() == Launched(old(AsReg()), l, port)
    {
      launches := launches[l := launches[l].(port := Some(port), released := false)];
      var owns := OwnsToken(l);
      if !owns {
        GiveUp(l, StandDown);
        return;
      }
      launches := launches[l := launches[l].(proc := Running)];
      procs := procs[launches[l].sid := l];
      ProbeLoopTop(l);
    }

    method ProbeReturned(l: nat, answered: bool, timeUp: bool)
      requires Valid() && l < |launches|
      modifies this
      ensures Valid() && AsReg() == Probed(old(AsReg()), l, answered, timeUp)
    {
      if answered {
        var owns := OwnsToken(l);
        if !owns {
          GiveUp(l, StandDown);
          return;
        }
        var o := launches[l];
        launches := launches[l := o.(watched := true)];
        Settle(l, Entry(Ready, None, o.port, o.digest, l));
      } else if timeUp {
        GiveUp(l, TimeoutTeardown);
      } else {
        Suspend(l, Sleeping);
      }
    }

    /** After the teardown of a launch whose process is gone. */
    method UntrackAndFail(l: nat)
      requires Valid() && l < |launches|
      modifies this
      ensures Valid() && AsReg() == FinishUntracked(old(AsReg()), l, FailedEntry(old(AsReg()), l))
    {
      var owns := OwnsToken(l);
      var e := Entry(Failed, None, launches[l].port, None, l);
      if owns {
        procs := procs - {launches[l].sid};
      }
      Settle(l, e);
    }

    /** The exit callbacks: the early-death flag, and the crash watch once it is installed. */
    method ProcessExited(l: nat)
      requires Valid() && l < |launches|
      modifies this
      ensures Valid() && AsReg() == Exit(old(AsReg()), l)
    {
      var o := launches[l];
      if o.proc != Running && o.proc != Killed { return; }
      launches := launches[l := o.(proc := Gone, exited := true)];
      if !o.watched { return; }
      var owns := OwnsToken(l);
      if !owns { return; }
      if o.sid !in entries || entries[o.sid].status != Ready || entries[o.sid].port != o.port { return; }
      Release(o.port);
      procs := procs - {o.sid};
      Write(o.sid, Entry(Failed, None, o.port, None, l));
    }
  }
}
