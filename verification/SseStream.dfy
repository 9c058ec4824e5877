/**
 One client of the resumable event stream: subscribe, replay after the cursor or announce a reset, flush what was
 queued meanwhile, then live frames, across any number of drops and reconnects with the last received id.
 */
module SseStream {
  import opened Wrappers
  import opened EventBus

  datatype Frame = EventFrame(s: SeqEvent) | ResetFrame(head: nat)

  /** What one socket write does: succeeds, succeeds but overflows the buffer cap (the server drops the client), throws. */
  datatype WriteOutcome = Sent | SentThenDropped | Threw

  /** The handler's variables for one connection, and the frames its socket accepted. */
  datatype Conn = Conn(cursor: nat, maxSent: nat, replaying: bool, closed: bool, queue: seq<SeqEvent>, wire: seq<Frame>)

  function Opened(cursor: nat): Conn {
    Conn(cursor, cursor, true, false, [], [])
  }

  function SafeWrite(c: Conn, f: Frame, o: WriteOutcome): Conn {
    if c.closed then c
    else match o
      case Sent => c.(wire := c.wire + [f])
      case SentThenDropped => c.(wire := c.wire + [f], closed := true)
      case Threw => c.(closed := true)
  }

  function WriteEvent(c: Conn, s: SeqEvent, o: WriteOutcome): Conn {
    if c.closed || s.seq_ <= c.maxSent then c
    else
      var c' := SafeWrite(c, EventFrame(s), o);
      if c'.closed then c' else c'.(maxSent := s.seq_)
  }

  function FirstOf(outs: seq<WriteOutcome>): WriteOutcome {
    if |outs| == 0 then Sent else outs[0]
  }

  function RestOf(outs: seq<WriteOutcome>): seq<WriteOutcome> {
    if |outs| == 0 then [] else outs[1..]
  }

  function WriteAll(c: Conn, ss: seq<SeqEvent>, outs: seq<WriteOutcome>): Conn
    decreases |ss|
  {
    if |ss| == 0 then c else WriteAll(WriteEvent(c, ss[0], FirstOf(outs)), ss[1..], RestOf(outs))
  }

  /** The subscription's callback. */
  function OnEvent(c: Conn, s: SeqEvent, o: WriteOutcome): Conn {
    if c.closed then c
    else if c.replaying then c.(queue := c.queue + [s])
    else WriteEvent(c, s, o)
  }

  function Replay(c: Conn, r: ReplayResult, head: nat, outs: seq<WriteOutcome>): Conn {
    if r.dropped then SafeWrite(c, ResetFrame(head), FirstOf(outs)).(maxSent := head)
    else WriteAll(c, r.events, outs)
  }

  function Flush(c: Conn, outs: seq<WriteOutcome>): Conn {
    WriteAll(c.(replaying := false), c.queue, outs)
  }

  // ----- what a log of frames says

  /** The cursor after one more frame: an event must be the very next one, a reset must move forward; else `None`. */
  function Advance(h: seq<Event>, at: Option<nat>, f: Frame): Option<nat> {
    match at
    case None => None
    case Some(p) =>
      match f
      case EventFrame(s) => if s.seq_ == p + 1 <= |h| && s.event == h[p] then Some(p + 1) else None
      case ResetFrame(n) => if p < n <= |h| then Some(n) else None
  }

  /** The cursor after a whole log that starts at `from`. */
  function EndOf(h: seq<Event>, from: nat, log: seq<Frame>): Option<nat> {
    if |log| == 0 then Some(from)
    else Advance(h, EndOf(h, from, log[..|log| - 1]), log[|log| - 1])
  }

  lemma EndOfSnoc(h: seq<Event>, from: nat, log: seq<Frame>, f: Frame)
    ensures EndOf(h, from, log + [f]) == Advance(h, EndOf(h, from, log), f)
  {
    assert (log + [f])[..|log|] == log;
  }

  lemma {:induction false} EndOfGrows(h: seq<Event>, e: Event, from: nat, log: seq<Frame>)
    requires EndOf(h, from, log).Some?
    ensures EndOf(h + [e], from, log) == EndOf(h, from, log)
  {
    if |log| > 0 {
      EndOfGrows(h, e, from, log[..|log| - 1]);
    }
  }

  lemma {:induction false} EndOfPrefix(h: seq<Event>, from: nat, log: seq<Frame>, k: nat)
    requires EndOf(h, from, log).Some? && k <= |log|
    ensures EndOf(h, from, log[..k]).Some?
    ensures from <= EndOf(h, from, log[..k]).value <= EndOf(h, from, log).value
    ensures from <= |h| ==> EndOf(h, from, log).value <= |h|
  {
    if k == |log| {
      assert log[..k] == log;
      if |log| > 0 {
        EndOfPrefix(h, from, log[..|log| - 1], |log| - 1);
      }
    } else {
      assert log[..|log| - 1][..k] == log[..k];
      EndOfPrefix(h, from, log[..|log| - 1], k);
    }
  }

  // ----- one connection against the history

  /** What went over the wire is a faithful continuation of the cursor; while open, `maxSent` is where it ends. */
  ghost predicate Faithful(h: seq<Event>, c: Conn) {
    && EndOf(h, c.cursor, c.wire).Some?
    && (!c.closed ==> EndOf(h, c.cursor, c.wire) == Some(c.maxSent))
  }

  lemma WriteNext(h: seq<Event>, c: Conn, s: SeqEvent, o: WriteOutcome)
    requires Faithful(h, c)
    requires s.seq_ <= c.maxSent || (s.seq_ == c.maxSent + 1 <= |h| && s.event == h[c.maxSent])
    ensures var c' := WriteEvent(c, s, o);
      && Faithful(h, c') && c.wire <= c'.wire
      && (!c'.closed ==> !c.closed && c'.maxSent == if s.seq_ <= c.maxSent then c.maxSent else c.maxSent + 1)
  {
    if !c.closed && s.seq_ > c.maxSent {
      EndOfSnoc(h, c.cursor, c.wire, EventFrame(s));
      assert EndOf(h, c.cursor, c.wire + [EventFrame(s)]) == Some(c.maxSent + 1);
    }
  }

  /** Writing the history from `from` brings an open connection to the head, whatever part of it was already sent. */
  lemma {:induction false} WriteTail(h: seq<Event>, c: Conn, from: nat, outs: seq<WriteOutcome>)
    requires Faithful(h, c) && from <= |h| && (!c.closed ==> from <= c.maxSent <= |h|)
    ensures var c' := WriteAll(c, Numbered(h, from), outs);
      && Faithful(h, c') && c.wire <= c'.wire
      && (!c'.closed ==> !c.closed && c'.maxSent == |h|)
    decreases |h| - from
  {
    if from < |h| {
      var ss := Numbered(h, from);
      assert ss[1..] == Numbered(h, from + 1);
      if c.closed {
        assert WriteEvent(c, ss[0], FirstOf(outs)) == c;
      } else {
        WriteNext(h, c, ss[0], FirstOf(outs));
      }
      WriteTail(h, WriteEvent(c, ss[0], FirstOf(outs)), from + 1, RestOf(outs));
    }
  }

  lemma {:induction false} WriteAllKeeps(c: Conn, ss: seq<SeqEvent>, outs: seq<WriteOutcome>)
    ensures var c' := WriteAll(c, ss, outs); c'.cursor == c.cursor && c'.replaying == c.replaying && c'.queue == c.queue
    decreases |ss|
  {
    if |ss| > 0 {
      WriteAllKeeps(WriteEvent(c, ss[0], FirstOf(outs)), ss[1..], RestOf(outs));
    }
  }

  /** What `ReplayIsHonest` makes of a replay: the whole rest of the history, or a drop for a cursor that is behind. */
  ghost predicate Honest(h: seq<Event>, cursor: nat, r: ReplayResult) {
    if r.dropped then cursor < |h| else cursor <= |h| && r.events == Numbered(h, cursor)
  }

  lemma BusReplayIsHonest(cap: nat, maxSessions: nat, trace: seq<Event>, id: SessionId, cursor: nat)
    requires cursor <= |HistoryOf(trace, id)|
    ensures Honest(HistoryOf(trace, id), cursor, ReplaySince(EmitAll(cap, maxSessions, trace), id, cursor))
    ensures Head(EmitAll(cap, maxSessions, trace), id) == |HistoryOf(trace, id)|
  {
    BuffersAreContiguous(cap, maxSessions, trace, id);
    ReplayIsHonest(cap, maxSessions, trace, id, cursor);
    if ReplaySince(EmitAll(cap, maxSessions, trace), id, cursor).dropped {
      DroppedMeansBehind(cap, maxSessions, trace, id, cursor);
    }
  }

  /** After the replay an open connection stands at the bus head, by the events themselves or by a reset. */
  lemma ReplayReachesHead(h: seq<Event>, c: Conn, r: ReplayResult, outs: seq<WriteOutcome>)
    requires Faithful(h, c) && c.wire == [] && (!c.closed ==> c.maxSent == c.cursor)
    requires Honest(h, c.cursor, r)
    ensures var c' := Replay(c, r, |h|, outs);
      && Faithful(h, c') && (!c'.closed ==> !c.closed && c'.maxSent == |h|)
      && c'.cursor == c.cursor && c'.replaying == c.replaying && c'.queue == c.queue
  {
    if r.dropped {
      ResetReachesHead(h, c, outs);
    } else {
      WriteTail(h, c, c.cursor, outs);
      WriteAllKeeps(c, r.events, outs);
    }
  }

  lemma ResetReachesHead(h: seq<Event>, c: Conn, outs: seq<WriteOutcome>)
    requires Faithful(h, c) && c.wire == [] && c.cursor < |h|
    ensures var c' := SafeWrite(c, ResetFrame(|h|), FirstOf(outs)).(maxSent := |h|);
      Faithful(h, c') && (!c'.closed ==> !c.closed)
  {
    EndOfSnoc(h, c.cursor, c.wire, ResetFrame(|h|));
  }

  lemma DroppedMeansBehind(cap: nat, maxSessions: nat, trace: seq<Event>, id: SessionId, cursor: nat)
    requires ReplaySince(EmitAll(cap, maxSessions, trace), id, cursor).dropped
    ensures cursor < |HistoryOf(trace, id)|
  {
    BuffersAreContiguous(cap, maxSessions, trace, id);
    var b, h := EmitAll(cap, maxSessions, trace), HistoryOf(trace, id);
    var from :| 0 <= from <= |h| && Buffer(b, id) == Numbered(h, from);
  }

  // ----- runs

  /** Where the handler stands; `since` is the bus head when it subscribed. */
  datatype Phase = Subscribed(since: nat) | Replayed(since: nat) | Live

  /** `delivered` frames of the wire have reached the client. */
  datatype Link = Link(conn: Conn, phase: Phase, delivered: nat)

  /** The whole emit trace of the bus, the client's log and last received id, and its current connection. */
  datatype State = State(trace: seq<Event>, log: seq<Frame>, last: nat, link: Option<Link>)

  datatype Choice =
    | Emit(e: Event, outcome: WriteOutcome)
    | Connect
    | DoReplay(outs: seq<WriteOutcome>)
    | DoFlush(outs: seq<WriteOutcome>)
    | Deliver
    | Drop
    | ServerClose

  /** The bus limits and the session the client watches. */
  datatype Setup = Setup(cap: nat, maxSessions: nat, id: SessionId)

  function FrameId(f: Frame): nat {
    match f case EventFrame(s) => s.seq_ case ResetFrame(n) => n
  }

  function Emission(u: Setup, s: State, e: Event, o: WriteOutcome): State {
    var s' := s.(trace := s.trace + [e]);
    if s.link.None? || e.sessionId != u.id then s'
    else
      var n := Head(EmitAll(u.cap, u.maxSessions, s'.trace), u.id);
      var k := s.link.value;
      s'.(link := Some(k.(conn := OnEvent(k.conn, SeqEvent(n, e), o))))
  }

  function Next(u: Setup, s: State, ch: Choice): State {
    var b := EmitAll(u.cap, u.maxSessions, s.trace);
    match ch
    case Emit(e, o) => Emission(u, s, e, o)
    case Connect => if s.link.Some? then s else s.(link := Some(Link(Opened(s.last), Subscribed(Head(b, u.id)), 0)))
    case DoReplay(outs) =>
      if s.link.None? || !s.link.value.phase.Subscribed? then s
      else
        var k := s.link.value;
        s.(link := Some(k.(conn := Replay(k.conn, ReplaySince(b, u.id, k.conn.cursor), Head(b, u.id), outs),
                           phase := Replayed(k.phase.since))))
    case DoFlush(outs) =>
      if s.link.None? || !s.link.value.phase.Replayed? then s
      else s.(link := Some(s.link.value.(conn := Flush(s.link.value.conn, outs), phase := Live)))
    case Deliver =>
      if s.link.None? || s.link.value.delivered >= |s.link.value.conn.wire| then s
      else
        var k := s.link.value;
        var f := k.conn.wire[k.delivered];
        s.(log := s.log + [f], last := FrameId(f), link := Some(k.(delivered := k.delivered + 1)))
    case Drop => s.(link := None)
    case ServerClose =>
      if s.link.None? then s else s.(link := Some(s.link.value.(conn := s.link.value.conn.(closed := true))))
  }

  function RunFrom(u: Setup, s: State, cs: seq<Choice>): State {
    if |cs| == 0 then s else Next(u, RunFrom(u, s, cs[..|cs| - 1]), cs[|cs| - 1])
  }

  /** A client that starts with cursor `from` on a bus that has already seen `trace`. */
  function Start(trace: seq<Event>, from: nat): State {
    State(trace, [], from, None)
  }

  function Hist(u: Setup, s: State): seq<Event> {
    HistoryOf(s.trace, u.id)
  }

  ghost predicate LinkOk(h: seq<Event>, last: nat, k: Link) {
    && Faithful(h, k.conn)
    && k.conn.cursor <= |h|
    && k.delivered <= |k.conn.wire|
    && EndOf(h, k.conn.cursor, k.conn.wire[..k.delivered]) == Some(last)
    && k.conn.replaying == !k.phase.Live?
    && (!k.conn.closed ==>
       match k.phase
       case Subscribed(since) =>
         && k.conn.wire == [] && k.conn.maxSent == k.conn.cursor <= since <= |h| && k.conn.queue == Numbered(h, since)
       case Replayed(since) => since <= k.conn.maxSent <= |h| && k.conn.queue == Numbered(h, since)
       case Live => k.conn.maxSent == |h|)
    && (k.phase.Subscribed? ==> k.conn.wire == [])
  }

  ghost predicate Inv(u: Setup, from: nat, s: State) {
    var h := Hist(u, s);
    && from <= |h|
    && EndOf(h, from, s.log) == Some(s.last)
    && s.last <= |h|
    && (s.link.Some? ==> LinkOk(h, s.last, s.link.value))
  }

  lemma NumberedSnoc(h: seq<Event>, e: Event, from: nat)
    requires from <= |h|
    ensures Numbered(h + [e], from) == Numbered(h, from) + [SeqEvent(|h| + 1, e)]
  {
  }

  lemma OnEventOk(h: seq<Event>, e: Event, last: nat, k: Link, o: WriteOutcome)
    requires LinkOk(h, last, k)
    ensures LinkOk(h + [e], last, k.(conn := OnEvent(k.conn, SeqEvent(|h| + 1, e), o)))
  {
    EndOfGrows(h, e, k.conn.cursor, k.conn.wire);
    EndOfPrefix(h, k.conn.cursor, k.conn.wire, k.delivered);
    EndOfGrows(h, e, k.conn.cursor, k.conn.wire[..k.delivered]);
    var s := SeqEvent(|h| + 1, e);
    if !k.conn.closed && k.phase.Live? {
      WriteNext(h + [e], k.conn, s, o);
      assert WriteEvent(k.conn, s, o).wire[..k.delivered] == k.conn.wire[..k.delivered];
    } else if !k.conn.closed {
      NumberedSnoc(h, e, k.phase.since);
    }
  }

  lemma HistorySnoc(u: Setup, trace: seq<Event>, e: Event)
    ensures var h := HistoryOf(trace, u.id);
      HistoryOf(trace + [e], u.id) == if e.sessionId == u.id then h + [e] else h
    ensures Head(EmitAll(u.cap, u.maxSessions, trace + [e]), u.id) == |HistoryOf(trace + [e], u.id)|
  {
    assert (trace + [e])[..|trace|] == trace;
    BuffersAreContiguous(u.cap, u.maxSessions, trace + [e], u.id);
  }

  lemma EmissionOk(u: Setup, s: State, from: nat, e: Event, o: WriteOutcome)
    requires Inv(u, from, s)
    ensures Inv(u, from, Emission(u, s, e, o))
  {
    HistorySnoc(u, s.trace, e);
    if e.sessionId == u.id {
      EndOfGrows(Hist(u, s), e, from, s.log);
      if s.link.Some? {
        OnEventOk(Hist(u, s), e, s.last, s.link.value, o);
      }
    }
  }

  lemma ReplayOk(u: Setup, s: State, from: nat, outs: seq<WriteOutcome>)
    requires Inv(u, from, s)
    ensures Inv(u, from, Next(u, s, DoReplay(outs)))
  {
    if s.link.Some? && s.link.value.phase.Subscribed? {
      var k := s.link.value;
      BusReplayIsHonest(u.cap, u.maxSessions, s.trace, u.id, k.conn.cursor);
      var r := ReplaySince(EmitAll(u.cap, u.maxSessions, s.trace), u.id, k.conn.cursor);
      ReplayReachesHead(Hist(u, s), k.conn, r, outs);
      var c' := Next(u, s, DoReplay(outs)).link.value.conn;
      assert k.delivered == 0 && c'.wire[..0] == k.conn.wire[..0];
    }
  }

  lemma FlushOk(u: Setup, s: State, from: nat, outs: seq<WriteOutcome>)
    requires Inv(u, from, s)
    ensures Inv(u, from, Next(u, s, DoFlush(outs)))
  {
    if s.link.Some? && s.link.value.phase.Replayed? {
      var h, k := Hist(u, s), s.link.value;
      var c := k.conn.(replaying := false);
      WriteAllKeeps(c, c.queue, outs);
      if c.closed {
        WriteAllClosed(c, c.queue, outs);
      } else {
        WriteTail(h, c, k.phase.since, outs);
        assert WriteAll(c, c.queue, outs).wire[..k.delivered] == c.wire[..k.delivered];
      }
    }
  }

  lemma {:induction false} WriteAllClosed(c: Conn, ss: seq<SeqEvent>, outs: seq<WriteOutcome>)
    requires c.closed
    ensures WriteAll(c, ss, outs) == c
    decreases |ss|
  {
    if |ss| > 0 {
      WriteAllClosed(c, ss[1..], RestOf(outs));
    }
  }

  lemma DeliverLinkOk(h: seq<Event>, last: nat, k: Link)
    requires LinkOk(h, last, k) && k.delivered < |k.conn.wire|
    ensures var f := k.conn.wire[k.delivered];
      && Advance(h, Some(last), f) == Some(FrameId(f)) && FrameId(f) <= |h|
      && LinkOk(h, FrameId(f), k.(delivered := k.delivered + 1))
  {
    var w, d := k.conn.wire, k.delivered;
    EndOfPrefix(h, k.conn.cursor, w, d + 1);
    assert w[..d + 1] == w[..d] + [w[d]];
    EndOfSnoc(h, k.conn.cursor, w[..d], w[d]);
  }

  lemma DeliverOk(u: Setup, s: State, from: nat)
    requires Inv(u, from, s)
    ensures Inv(u, from, Next(u, s, Deliver))
  {
    if s.link.Some? && s.link.value.delivered < |s.link.value.conn.wire| {
      var k := s.link.value;
      DeliverLinkOk(Hist(u, s), s.last, k);
      EndOfSnoc(Hist(u, s), from, s.log, k.conn.wire[k.delivered]);
    }
  }

  lemma ConnectOk(u: Setup, s: State, from: nat)
    requires Inv(u, from, s)
    ensures Inv(u, from, Next(u, s, Connect))
  {
    BuffersAreContiguous(u.cap, u.maxSessions, s.trace, u.id);
  }

  lemma {:induction false} RunKeepsInv(u: Setup, trace: seq<Event>, from: nat, cs: seq<Choice>)
    requires from <= |HistoryOf(trace, u.id)|
    ensures Inv(u, from, RunFrom(u, Start(trace, from), cs))
  {
    if |cs| > 0 {
      var s, ch := RunFrom(u, Start(trace, from), cs[..|cs| - 1]), cs[|cs| - 1];
      RunKeepsInv(u, trace, from, cs[..|cs| - 1]);
      match ch
      case Emit(e, o) => EmissionOk(u, s, from, e, o);
      case DoReplay(outs) => ReplayOk(u, s, from, outs);
      case DoFlush(outs) => FlushOk(u, s, from, outs);
      case Deliver => DeliverOk(u, s, from);
      case Connect => ConnectOk(u, s, from);
      case Drop =>
      case ServerClose =>
    }
  }

  // ----- main results

  /** Frame `i` of the log accounts for event number `n`: it carries it, or it is a reset that jumps over it. */
  ghost predicate Accounts(h: seq<Event>, from: nat, log: seq<Frame>, i: nat, n: nat) {
    && i < |log|
    && EndOf(h, from, log[..i]).Some?
    && EndOf(h, from, log[..i]).value < n
    && (log[i].EventFrame? ==> n >= 1 && n <= |h| && log[i].s == SeqEvent(n, h[n - 1]))
    && (log[i].ResetFrame? ==> n <= log[i].head)
  }

  lemma AccountedIsBehind(h: seq<Event>, from: nat, log: seq<Frame>, j: nat, n: nat)
    requires EndOf(h, from, log).Some? && Accounts(h, from, log, j, n)
    ensures n <= EndOf(h, from, log).value
  {
    EndOfPrefix(h, from, log, j + 1);
    assert log[..j + 1] == log[..j] + [log[j]];
    EndOfSnoc(h, from, log[..j], log[j]);
  }

  lemma {:induction false} EveryEventAccountedOnce(h: seq<Event>, from: nat, log: seq<Frame>, n: nat) returns (i: nat)
    requires EndOf(h, from, log).Some? && from < n <= EndOf(h, from, log).value
    ensures Accounts(h, from, log, i, n)
    ensures forall j: nat :: Accounts(h, from, log, j, n) ==> j == i
  {
    var init := log[..|log| - 1];
    var mid := EndOf(h, from, init).value;
    if n <= mid {
      i := EveryEventAccountedOnce(h, from, init, n);
      assert log[..i] == init[..i];
      forall j: nat | Accounts(h, from, log, j, n) ensures j == i {
        if j < |init| {
          assert log[..j] == init[..j];
          assert Accounts(h, from, init, j, n);
        }
      }
    } else {
      i := |log| - 1;
      forall j: nat | Accounts(h, from, log, j, n) ensures j == i {
        if j < |init| {
          assert log[..j] == init[..j];
          AccountedIsBehind(h, from, init, j, n);
        }
      }
    }
  }

  /**
   Any run of emits (of any sessions), connects, replays, flushes, deliveries, drops and server closes: the client is
   told about every event after its first cursor exactly once and in order, by the event's own frame with the event's
   own content or by a reset that jumps over it.
   */
  lemma ClientMissesNothingSilently(u: Setup, trace: seq<Event>, from: nat, cs: seq<Choice>, n: nat) returns (i: nat)
    requires from <= |HistoryOf(trace, u.id)|
    requires from < n <= RunFrom(u, Start(trace, from), cs).last
    ensures var s := RunFrom(u, Start(trace, from), cs);
      && Accounts(Hist(u, s), from, s.log, i, n)
      && forall j: nat :: Accounts(Hist(u, s), from, s.log, j, n) ==> j == i
  {
    var s := RunFrom(u, Start(trace, from), cs);
    RunKeepsInv(u, trace, from, cs);
    i := EveryEventAccountedOnce(Hist(u, s), from, s.log, n);
  }

  ghost predicate NoReset(log: seq<Frame>) {
    forall i :: 0 <= i < |log| ==> log[i].EventFrame?
  }

  lemma {:induction false} LogWithoutReset(h: seq<Event>, from: nat, log: seq<Frame>)
    requires EndOf(h, from, log).Some? && NoReset(log)
    ensures |log| == EndOf(h, from, log).value - from
    ensures forall i :: 0 <= i < |log| ==> from + i < |h| && log[i].s == SeqEvent(from + i + 1, h[from + i])
  {
    if |log| > 0 {
      LogWithoutReset(h, from, log[..|log| - 1]);
      assert log == log[..|log| - 1] + [log[|log| - 1]];
    }
  }

  /** With no reset in the log, it is exactly the history after the first cursor: no gap, no repeat, nothing reordered. */
  lemma WithoutResetLogIsHistory(u: Setup, trace: seq<Event>, from: nat, cs: seq<Choice>)
    requires from <= |HistoryOf(trace, u.id)|
    requires NoReset(RunFrom(u, Start(trace, from), cs).log)
    ensures var s := RunFrom(u, Start(trace, from), cs);
      && from <= s.last <= |Hist(u, s)|
      && |s.log| == s.last - from
      && forall i :: 0 <= i < |s.log| ==> s.log[i] == EventFrame(Numbered(Hist(u, s), from)[i])
  {
    var s := RunFrom(u, Start(trace, from), cs);
    RunKeepsInv(u, trace, from, cs);
    LogWithoutReset(Hist(u, s), from, s.log);
  }

  /** A live open connection always stands at the bus head; a client that has received its whole wire is up to date. */
  lemma LiveConnectionIsAtHead(u: Setup, trace: seq<Event>, from: nat, cs: seq<Choice>)
    requires from <= |HistoryOf(trace, u.id)|
    ensures var s := RunFrom(u, Start(trace, from), cs);
      s.link.Some? && s.link.value.phase.Live? && !s.link.value.conn.closed ==>
        && s.link.value.conn.maxSent == Head(EmitAll(u.cap, u.maxSessions, s.trace), u.id)
        && (s.link.value.delivered == |s.link.value.conn.wire| ==> s.last == s.link.value.conn.maxSent)
  {
    var s := RunFrom(u, Start(trace, from), cs);
    RunKeepsInv(u, trace, from, cs);
    BuffersAreContiguous(u.cap, u.maxSessions, s.trace, u.id);
    if s.link.Some? {
      var k := s.link.value;
      assert k.delivered == |k.conn.wire| ==> k.conn.wire[..k.delivered] == k.conn.wire;
    }
  }

  function Frames(ss: seq<SeqEvent>): (r: seq<Frame>)
    ensures |r| == |ss| && forall i :: 0 <= i < |r| ==> r[i] == EventFrame(ss[i])
  {
    seq(|ss|, i requires 0 <= i < |ss| => EventFrame(ss[i]))
  }

  /** How many of the next n frames get onto the wire: all before the first failure, and that one if it only overflows. */
  function Taken(outs: seq<WriteOutcome>, n: nat): (k: nat)
    ensures k <= n
  {
    if n == 0 then 0
    else match FirstOf(outs)
      case Sent => 1 + Taken(RestOf(outs), n - 1)
      case SentThenDropped => 1
      case Threw => 0
  }

  /** One of the next n writes fails. */
  predicate Breaks(outs: seq<WriteOutcome>, n: nat) {
    n > 0 && (FirstOf(outs) != Sent || Breaks(RestOf(outs), n - 1))
  }

  /** Writing the whole rest of the history puts exactly its frames on the wire, up to the first failing write. */
  lemma {:induction false} WriteAllUpToFailure(h: seq<Event>, c: Conn, outs: seq<WriteOutcome>)
    requires !c.closed && c.maxSent <= |h|
    ensures var c', rest := WriteAll(c, Numbered(h, c.maxSent), outs), |h| - c.maxSent;
      && c'.wire == c.wire + Frames(Numbered(h, c.maxSent))[..Taken(outs, rest)]
      && (c'.closed <==> Breaks(outs, rest))
      && (!c'.closed ==> c'.maxSent == |h|)
    decreases |h| - c.maxSent
  {
    if c.maxSent < |h| {
      var ss, m := Numbered(h, c.maxSent), c.maxSent;
      assert ss[1..] == Numbered(h, m + 1) && ss[0] == SeqEvent(m + 1, h[m]);
      var c1 := WriteEvent(c, ss[0], FirstOf(outs));
      if c1.closed {
        WriteAllClosed(c1, ss[1..], RestOf(outs));
        assert Frames(ss)[..1] == [EventFrame(ss[0])] && Frames(ss)[..0] == [];
      } else {
        WriteAllUpToFailure(h, c1, RestOf(outs));
        TakeCons(c.wire, ss, Taken(RestOf(outs), |h| - m - 1));
      }
    } else {
      assert Frames(Numbered(h, c.maxSent)) == [];
    }
  }

  lemma TakeCons(wire: seq<Frame>, ss: seq<SeqEvent>, k: nat)
    requires k < |ss|
    ensures wire + Frames(ss)[..k + 1] == (wire + [EventFrame(ss[0])]) + Frames(ss[1..])[..k]
  {
  }

  /** The first `gone` events are no longer buffered: if the cursor needs one of them a reset, else the events after it. */
  function ReplayFrames(h: seq<Event>, cursor: nat, gone: nat, outs: seq<WriteOutcome>): seq<Frame>
    requires cursor <= |h|
  {
    if cursor < gone then if FirstOf(outs) == Threw then [] else [ResetFrame(|h|)]
    else Frames(Numbered(h, cursor))[..Taken(outs, |h| - cursor)]
  }

  /** What a replay puts on the wire of a connection that stands at its cursor. */
  lemma ReplayWire(cap: nat, maxSessions: nat, trace: seq<Event>, id: SessionId, c: Conn, outs: seq<WriteOutcome>)
    requires !c.closed && c.wire == [] && c.maxSent == c.cursor <= |HistoryOf(trace, id)|
    ensures var b := EmitAll(cap, maxSessions, trace);
      Replay(c, ReplaySince(b, id, c.cursor), Head(b, id), outs).wire ==
      ReplayFrames(HistoryOf(trace, id), c.cursor, Gone(cap, maxSessions, trace, id), outs)
  {
    BuffersAreExact(cap, maxSessions, trace, id);
    ReplayIsExact(cap, maxSessions, trace, id, c.cursor);
    if c.cursor >= Gone(cap, maxSessions, trace, id) {
      WriteAllUpToFailure(HistoryOf(trace, id), c, outs);
    }
  }

  /**
   In any run, the replay of an open connection sends the events after its cursor themselves, up to the first failing
   write, unless some of them are gone from the buffer; only then, and whenever then, it sends one reset.
   */
  lemma ReplaySendsTheEvents(u: Setup, trace: seq<Event>, from: nat, cs: seq<Choice>, outs: seq<WriteOutcome>)
    requires from <= |HistoryOf(trace, u.id)|
    requires var s := RunFrom(u, Start(trace, from), cs);
      s.link.Some? && s.link.value.phase.Subscribed? && !s.link.value.conn.closed
    ensures var s := RunFrom(u, Start(trace, from), cs);
      var h, k := Hist(u, s), s.link.value;
      && k.conn.cursor <= |h|
      && Next(u, s, DoReplay(outs)).link.value.conn.wire ==
         ReplayFrames(h, k.conn.cursor, Gone(u.cap, u.maxSessions, s.trace, u.id), outs)
  {
    var s := RunFrom(u, Start(trace, from), cs);
    RunKeepsInv(u, trace, from, cs);
    ReplayWire(u.cap, u.maxSessions, s.trace, u.id, s.link.value.conn, outs);
  }

  /** After a connect with this cursor over a healthy socket, the next event of the session goes out on the wire. */
  ghost predicate NextEventArrives(cursor: nat, r: ReplayResult, head: nat, e: Event) {
    var c := Flush(Replay(Opened(cursor), r, head, []), []);
    OnEvent(c, SeqEvent(head + 1, e), Sent).wire == c.wire + [EventFrame(SeqEvent(head + 1, e))]
  }

  /**
   Why the cursor must not exceed the head: a client that connects with any cursor over a healthy socket gets the next
   live event if and only if its cursor was at most the head.
   */
  lemma NextLiveFrameIffCursorUpToHead(cap: nat, maxSessions: nat, trace: seq<Event>, id: SessionId, cursor: nat, e: Event)
    ensures var b := EmitAll(cap, maxSessions, trace);
      NextEventArrives(cursor, ReplaySince(b, id, cursor), Head(b, id), e) <==> cursor <= Head(b, id)
  {
    var b, h := EmitAll(cap, maxSessions, trace), HistoryOf(trace, id);
    BuffersAreContiguous(cap, maxSessions, trace, id);
    if cursor <= |h| {
      BusReplayIsHonest(cap, maxSessions, trace, id, cursor);
    } else {
      StaleCursorReplaysNothing(cap, maxSessions, trace, id, cursor);
    }
    LiveAfterReplay(h, cursor, ReplaySince(b, id, cursor), Head(b, id), e);
  }

  lemma LiveAfterReplay(h: seq<Event>, cursor: nat, r: ReplayResult, head: nat, e: Event)
    requires head == |h|
    requires if cursor <= |h| then Honest(h, cursor, r) else r == ReplayResult(false, [])
    ensures NextEventArrives(cursor, r, head, e) <==> cursor <= head
  {
    var c0 := Opened(cursor);
    var c := Replay(c0, r, |h|, []);
    if cursor <= |h| {
      ReplayReachesHead(h, c0, r, []);
      HealthyStaysOpen(c0, r.events, []);
    }
    LiveFrameIffNewer(c, SeqEvent(|h| + 1, e));
  }

  lemma LiveFrameIffNewer(c: Conn, s: SeqEvent)
    requires !c.closed && c.queue == []
    ensures var c' := Flush(c, []); OnEvent(c', s, Sent).wire == c'.wire + [EventFrame(s)] <==> s.seq_ > c.maxSent
  {
    var c' := Flush(c, []);
    assert c' == c.(replaying := false);
    assert |c'.wire + [EventFrame(s)]| == |c'.wire| + 1;
  }

  lemma StaleCursorReplaysNothing(cap: nat, maxSessions: nat, trace: seq<Event>, id: SessionId, cursor: nat)
    requires cursor > |HistoryOf(trace, id)|
    ensures ReplaySince(EmitAll(cap, maxSessions, trace), id, cursor) == ReplayResult(false, [])
  {
    var b, h := EmitAll(cap, maxSessions, trace), HistoryOf(trace, id);
    BuffersAreContiguous(cap, maxSessions, trace, id);
    var from :| 0 <= from <= |h| && Buffer(b, id) == Numbered(h, from);
    AfterNumbered(h, from, cursor);
    assert Numbered(h, |h|) == [];
  }

  lemma {:induction false} HealthyStaysOpen(c: Conn, ss: seq<SeqEvent>, outs: seq<WriteOutcome>)
    requires outs == []
    ensures WriteAll(c, ss, outs).closed == c.closed
    decreases |ss|
  {
    if |ss| > 0 {
      HealthyStaysOpen(WriteEvent(c, ss[0], Sent), ss[1..], outs);
    }
  }

  // ----- the handler

  class SseConnection {
    const cursor: nat
    var maxSent: nat
    var replaying: bool
    var closed: bool
    var queue: seq<SeqEvent>
    var wire: seq<Frame>

    function AsConn(): Conn
      reads this
    {
      Conn(cursor, maxSent, replaying, closed, queue, wire)
    }

    constructor (cursor: nat)
      ensures AsConn() == Opened(cursor)
    {
      this.cursor, maxSent, replaying, closed, queue, wire := cursor, cursor, true, false, [], [];
    }

    method Put(f: Frame, o: WriteOutcome)
      modifies this
      ensures AsConn() == SafeWrite(old(AsConn()), f, o)
    {
      if closed { return; }
      if o != Threw {
        wire := wire + [f];
      }
      if o != Sent {
        closed := true;
      }
    }

    method Write(s: SeqEvent, o: WriteOutcome)
      modifies this
      ensures AsConn() == WriteEvent(old(AsConn()), s, o)
    {
      if closed || s.seq_ <= maxSent { return; }
      Put(EventFrame(s), o);
      if !closed {
        maxSent := s.seq_;
      }
    }

    method Receive(s: SeqEvent, o: WriteOutcome)
      modifies this
      ensures AsConn() == OnEvent(old(AsConn()), s, o)
    {
      if closed { return; }
      if replaying {
        queue := queue + [s];
      } else {
        Write(s, o);
      }
    }

    method WriteEach(ss: seq<SeqEvent>, outs: seq<WriteOutcome>)
      modifies this
      ensures AsConn() == WriteAll(old(AsConn()), ss, outs)
    {
      var rest := outs;
      for i := 0 to |ss|
        invariant WriteAll(AsConn(), ss[i..], rest) == WriteAll(old(AsConn()), ss, outs)
      {
        assert ss[i..][1..] == ss[i + 1..];
        Write(ss[i], FirstOf(rest));
        rest := RestOf(rest);
      }
    }

    /** From `replaySince` to the last queued frame. */
    method ReplayAndGoLive(r: ReplayResult, head: nat, outs: seq<WriteOutcome>, flushOuts: seq<WriteOutcome>)
      modifies this
      ensures AsConn() == Flush(Replay(old(AsConn()), r, head, outs), flushOuts)
    {
      if r.dropped {
        Put(ResetFrame(head), FirstOf(outs));
        maxSent := head;
      } else {
        WriteEach(r.events, outs);
      }
      replaying := false;
      WriteEach(queue, flushOuts);
    }
  }
}
