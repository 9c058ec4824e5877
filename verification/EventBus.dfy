/**
 The in-memory event hub: per-session sequence numbers, a bounded replay buffer per session, and eviction of the
 least recently emitting session. A `Map` is modelled as a map plus its insertion order.
 */
module EventBus {
  import opened Wrappers
  import opened Session

  type SessionId = string

  datatype Event = Event(sessionId: SessionId, payload: string)
  datatype SeqEvent = SeqEvent(seq_: nat, event: Event)

  /** `order` lists the sessions with a buffer, least recent emitter first. */
  datatype BusState = BusState(seqs: map<SessionId, nat>, buffers: map<SessionId, seq<SeqEvent>>, order: seq<SessionId>)

  const EMPTY := BusState(map[], map[], [])

  function Head(b: BusState, id: SessionId): nat {
    if id in b.seqs then b.seqs[id] else 0
  }

  function Buffer(b: BusState, id: SessionId): seq<SeqEvent> {
    if id in b.buffers then b.buffers[id] else []
  }

  function Without(order: seq<SessionId>, id: SessionId): (r: seq<SessionId>)
    ensures forall x :: x in r <==> x in order && x != id
  {
    if |order| == 0 then []
    else if order[0] == id then Without(order[1..], id)
    else [order[0]] + Without(order[1..], id)
  }

  function Restrict(buffers: map<SessionId, seq<SeqEvent>>, order: seq<SessionId>): map<SessionId, seq<SeqEvent>> {
    map id | id in buffers && id in order :: buffers[id]
  }

  /** The event is buffered and its session moved to the most recent slot. */
  function Buffered(b: BusState, cap: nat, e: Event): BusState {
    var n := Head(b, e.sessionId) + 1;
    var buf := LastN(Buffer(b, e.sessionId) + [SeqEvent(n, e)], cap);
    BusState(b.seqs[e.sessionId := n], b.buffers[e.sessionId := buf], Without(b.order, e.sessionId) + [e.sessionId])
  }

  /** Only the `maxSessions` most recent sessions keep their buffer. */
  function Trimmed(b: BusState, maxSessions: nat): BusState {
    var order := LastN(b.order, maxSessions);
    BusState(b.seqs, Restrict(b.buffers, order), order)
  }

  /** The bus after one emit. */
  function Emitted(b: BusState, cap: nat, maxSessions: nat, e: Event): BusState {
    Trimmed(Buffered(b, cap, e), maxSessions)
  }

  datatype ReplayResult = ReplayResult(dropped: bool, events: seq<SeqEvent>)

  /** `buf.filter(s => s.seq > after)`. */
  function After(buf: seq<SeqEvent>, after: nat): seq<SeqEvent> {
    if |buf| == 0 then []
    else if buf[0].seq_ > after then [buf[0]] + After(buf[1..], after)
    else After(buf[1..], after)
  }

  function ReplaySince(b: BusState, id: SessionId, after: nat): ReplayResult {
    var buf := Buffer(b, id);
    var overflow := |buf| > 0 && after + 1 < buf[0].seq_;
    var evicted := |buf| == 0 && Head(b, id) > after;
    ReplayResult(overflow || evicted, After(buf, after))
  }

  // ----- the history behind a bus

  /** A bus that has seen exactly these emits, in this order. */
  function EmitAll(cap: nat, maxSessions: nat, trace: seq<Event>): BusState {
    if |trace| == 0 then EMPTY
    else Emitted(EmitAll(cap, maxSessions, trace[..|trace| - 1]), cap, maxSessions, trace[|trace| - 1])
  }

  function HistoryOf(trace: seq<Event>, id: SessionId): seq<Event> {
    if |trace| == 0 then []
    else
      var h := HistoryOf(trace[..|trace| - 1], id);
      if trace[|trace| - 1].sessionId == id then h + [trace[|trace| - 1]] else h
  }

  /** The history from position `from` on, with its sequence numbers. */
  function Numbered(h: seq<Event>, from: nat): (r: seq<SeqEvent>)
    requires from <= |h|
    ensures |r| == |h| - from && forall i :: 0 <= i < |r| ==> r[i] == SeqEvent(from + i + 1, h[from + i])
  {
    seq(|h| - from, i requires 0 <= i < |h| - from => SeqEvent(from + i + 1, h[from + i]))
  }

  /** The distinct emitters, least recent first. */
  function Recency(trace: seq<Event>): seq<SessionId> {
    if |trace| == 0 then []
    else
      var id := trace[|trace| - 1].sessionId;
      Without(Recency(trace[..|trace| - 1]), id) + [id]
  }

  lemma {:induction false} AfterNumbered(h: seq<Event>, from: nat, after: nat)
    requires from <= |h|
    ensures After(Numbered(h, from), after) == Numbered(h, if after <= from then from else if after <= |h| then after else |h|)
    decreases |h| - from
  {
    if from < |h| {
      assert Numbered(h, from)[1..] == Numbered(h, from + 1);
      assert Numbered(h, from) == [SeqEvent(from + 1, h[from])] + Numbered(h, from + 1);
      AfterNumbered(h, from + 1, after);
    }
  }

  /** Every buffer is a contiguous block of its session's history that ends at the head. */
  ghost predicate Contiguous(b: BusState, id: SessionId, h: seq<Event>) {
    && Head(b, id) == |h|
    && exists from :: 0 <= from <= |h| && Buffer(b, id) == Numbered(h, from)
  }

  // ----- recency

  predicate Distinct(s: seq<SessionId>) {
    forall i, j :: 0 <= i < j < |s| ==> s[i] != s[j]
  }

  lemma DistinctSnoc(s: seq<SessionId>, id: SessionId)
    requires Distinct(s) && id !in s
    ensures Distinct(s + [id])
  {
    forall j | 0 <= j < |s| ensures s[j] != id {
      assert s[j] in s;
    }
  }

  lemma {:induction false} WithoutDistinct(s: seq<SessionId>, id: SessionId)
    requires Distinct(s)
    ensures Distinct(Without(s, id))
    ensures id !in s ==> Without(s, id) == s
    ensures id in s ==> |Without(s, id)| == |s| - 1
  {
    if |s| > 0 {
      WithoutDistinct(s[1..], id);
      assert s == [s[0]] + s[1..];
      if s[0] == id {
        assert id !in s[1..];
      } else {
        var t := Without(s[1..], id);
        assert s[0] !in s[1..];
        forall j | 0 <= j < |t| ensures t[j] != s[0] {
          assert t[j] in t;
        }
      }
    }
  }

  lemma {:induction false} WithoutConcat(a: seq<SessionId>, b: seq<SessionId>, id: SessionId)
    ensures Without(a + b, id) == Without(a, id) + Without(b, id)
  {
    if |a| == 0 {
      assert a + b == b;
    } else {
      assert (a + b)[1..] == a[1..] + b;
      WithoutConcat(a[1..], b, id);
    }
  }

  lemma SuffixOfSuffix(x: seq<SessionId>, y: seq<SessionId>, n: nat)
    requires |y| >= n
    ensures LastN(x + y, n) == LastN(y, n)
  {
    assert (x + y)[|x + y| - n..] == y[|y| - n..];
  }

  /** Keeping only the last n before a touch loses nothing the touch would have kept. */
  lemma TouchLastN(s: seq<SessionId>, id: SessionId, n: nat)
    requires Distinct(s)
    ensures LastN(Without(LastN(s, n), id) + [id], n) == LastN(Without(s, id) + [id], n)
  {
    if |s| > n {
      var dropped, kept := s[..|s| - n], s[|s| - n..];
      assert s == dropped + kept;
      WithoutConcat(dropped, kept, id);
      var y := Without(kept, id) + [id];
      assert Distinct(kept);
      WithoutDistinct(kept, id);
      assert Without(s, id) + [id] == Without(dropped, id) + y;
      SuffixOfSuffix(Without(dropped, id), y, n);
    }
  }

  lemma {:induction false} RecencyDistinct(trace: seq<Event>)
    ensures Distinct(Recency(trace))
  {
    if |trace| > 0 {
      RecencyDistinct(trace[..|trace| - 1]);
      var id := trace[|trace| - 1].sessionId;
      WithoutDistinct(Recency(trace[..|trace| - 1]), id);
      DistinctSnoc(Without(Recency(trace[..|trace| - 1]), id), id);
    }
  }

  /** The sessions that keep a buffer are exactly the `maxSessions` most recent emitters. */
  lemma {:induction false} RetainedAreMostRecent(cap: nat, maxSessions: nat, trace: seq<Event>)
    ensures var b := EmitAll(cap, maxSessions, trace);
      && b.order == LastN(Recency(trace), maxSessions)
      && forall id :: id in b.buffers <==> id in b.order
  {
    if |trace| > 0 {
      var init := trace[..|trace| - 1];
      RetainedAreMostRecent(cap, maxSessions, init);
      RecencyDistinct(init);
      TouchLastN(Recency(init), trace[|trace| - 1].sessionId, maxSessions);
      var b0, b, e := EmitAll(cap, maxSessions, init), EmitAll(cap, maxSessions, trace), trace[|trace| - 1];
      var order := Without(b0.order, e.sessionId) + [e.sessionId];
      forall id | id in b.order ensures id in order {
        assert |order| > maxSessions ==> b.order == order[|order| - maxSessions..];
      }
    }
  }

  // ----- what the buffers hold

  predicate Retains(maxSessions: nat, trace: seq<Event>, id: SessionId) {
    id in LastN(Recency(trace), maxSessions)
  }

  /** How many events of the session lie before the last moment at which it was not among the most recent emitters. */
  function Evicted(maxSessions: nat, trace: seq<Event>, id: SessionId): (n: nat)
    ensures n <= |HistoryOf(trace, id)|
  {
    if !Retains(maxSessions, trace, id) then |HistoryOf(trace, id)| else Evicted(maxSessions, trace[..|trace| - 1], id)
  }

  /** Everything up to here is out of the buffer: evicted with it, or pushed out by the cap. */
  function Gone(cap: nat, maxSessions: nat, trace: seq<Event>, id: SessionId): (n: nat)
    ensures n <= |HistoryOf(trace, id)|
  {
    var h, evicted := HistoryOf(trace, id), Evicted(maxSessions, trace, id);
    if evicted + cap < |h| then |h| - cap else evicted
  }

  /** One emit: the heads count, and a session that keeps its buffer has it extended or untouched. */
  lemma EmittedBuffer(b: BusState, cap: nat, maxSessions: nat, e: Event, id: SessionId)
    requires forall x :: x in b.order ==> x in b.buffers
    ensures var b' := Emitted(b, cap, maxSessions, e);
      && Head(b', id) == (if id == e.sessionId then Head(b, id) + 1 else Head(b, id))
      && Buffer(b', id) ==
         if id !in b'.order then []
         else if id == e.sessionId then LastN(Buffer(b, id) + [SeqEvent(Head(b, id) + 1, e)], cap)
         else Buffer(b, id)
  {
    var order := Buffered(b, cap, e).order;
    assert forall x :: x in LastN(order, maxSessions) ==> x in order;
  }

  lemma NumberedGrows(h: seq<Event>, from: nat, e: Event, cap: nat)
    requires from <= |h|
    ensures LastN(Numbered(h, from) + [SeqEvent(|h| + 1, e)], cap) ==
            Numbered(h + [e], if from + cap < |h| + 1 then |h| + 1 - cap else from)
  {
    var grown := Numbered(h, from) + [SeqEvent(|h| + 1, e)];
    assert grown == Numbered(h + [e], from);
    var cut := if |grown| <= cap then 0 else |grown| - cap;
    assert LastN(grown, cap) == grown[cut..];
    assert LastN(grown, cap) == Numbered(h + [e], from + cut);
  }

  /** What one emit does to the number of events that are gone. */
  lemma GoneAfterEmit(cap: nat, maxSessions: nat, trace: seq<Event>, id: SessionId)
    requires |trace| > 0
    ensures var init := trace[..|trace| - 1];
      var h, g := HistoryOf(init, id), Gone(cap, maxSessions, init, id);
      Gone(cap, maxSessions, trace, id) ==
      if !Retains(maxSessions, trace, id) then |HistoryOf(trace, id)|
      else if id == trace[|trace| - 1].sessionId && g + cap < |h| + 1 then |h| + 1 - cap
      else g
  {
    assert Retains(maxSessions, trace, id) ==>
             Evicted(maxSessions, trace, id) == Evicted(maxSessions, trace[..|trace| - 1], id);
  }

  lemma BufferAfterEmit(cap: nat, maxSessions: nat, trace: seq<Event>, id: SessionId)
    requires |trace| > 0
    ensures var init, e := trace[..|trace| - 1], trace[|trace| - 1];
      var b, b' := EmitAll(cap, maxSessions, init), EmitAll(cap, maxSessions, trace);
      && Head(b', id) == (if id == e.sessionId then Head(b, id) + 1 else Head(b, id))
      && Buffer(b', id) ==
         if !Retains(maxSessions, trace, id) then []
         else if id == e.sessionId then LastN(Buffer(b, id) + [SeqEvent(Head(b, id) + 1, e)], cap)
         else Buffer(b, id)
  {
    RetainedAreMostRecent(cap, maxSessions, trace[..|trace| - 1]);
    RetainedAreMostRecent(cap, maxSessions, trace);
    EmittedBuffer(EmitAll(cap, maxSessions, trace[..|trace| - 1]), cap, maxSessions, trace[|trace| - 1], id);
  }

  /**
   Over any history of emits, every buffer holds exactly the events that are not gone: the last `cap` of those its
   session emitted since it was last out of the `maxSessions` most recent emitters.
   */
  lemma {:induction false} BuffersAreExact(cap: nat, maxSessions: nat, trace: seq<Event>, id: SessionId)
    ensures Head(EmitAll(cap, maxSessions, trace), id) == |HistoryOf(trace, id)|
    ensures Buffer(EmitAll(cap, maxSessions, trace), id) == Numbered(HistoryOf(trace, id), Gone(cap, maxSessions, trace, id))
  {
    if |trace| > 0 {
      var init, e := trace[..|trace| - 1], trace[|trace| - 1];
      BuffersAreExact(cap, maxSessions, init, id);
      BufferAfterEmit(cap, maxSessions, trace, id);
      GoneAfterEmit(cap, maxSessions, trace, id);
      ExactAfterEmit(HistoryOf(init, id), Gone(cap, maxSessions, init, id), HistoryOf(trace, id), Gone(cap, maxSessions, trace, id),
                     Buffer(EmitAll(cap, maxSessions, trace), id), cap, e, id == e.sessionId, Retains(maxSessions, trace, id));
    } else {
      assert HistoryOf(trace, id) == [] && Gone(cap, maxSessions, trace, id) == 0;
    }
  }

  /** The step of `BuffersAreExact`, from the history and the number of gone events before and after. */
  lemma ExactAfterEmit(h: seq<Event>, g: nat, h': seq<Event>, g': nat, buf: seq<SeqEvent>, cap: nat, e: Event, own: bool, kept: bool)
    requires g <= |h| && g' <= |h'| && h' == if own then h + [e] else h
    requires g' == if !kept then |h'| else if own && g + cap < |h| + 1 then |h| + 1 - cap else g
    requires buf == if !kept then [] else if own then LastN(Numbered(h, g) + [SeqEvent(|h| + 1, e)], cap) else Numbered(h, g)
    ensures buf == Numbered(h', g')
  {
    if !kept {
      assert Numbered(h', |h'|) == [];
    } else if own {
      NumberedGrows(h, g, e, cap);
    }
  }

  lemma AllBuffersAreExact(cap: nat, maxSessions: nat, trace: seq<Event>)
    ensures forall id ::
      Buffer(EmitAll(cap, maxSessions, trace), id) == Numbered(HistoryOf(trace, id), Gone(cap, maxSessions, trace, id))
  {
    forall id ensures Buffer(EmitAll(cap, maxSessions, trace), id) == Numbered(HistoryOf(trace, id), Gone(cap, maxSessions, trace, id)) {
      BuffersAreExact(cap, maxSessions, trace, id);
    }
  }

  /** Since its first event the session was always among the most recent emitters. */
  ghost predicate AlwaysRetained(maxSessions: nat, trace: seq<Event>, id: SessionId) {
    forall n :: 0 <= n <= |trace| && HistoryOf(trace[..n], id) != [] ==> Retains(maxSessions, trace[..n], id)
  }

  lemma {:induction false} NoneEvictedIffAlwaysRetained(maxSessions: nat, trace: seq<Event>, id: SessionId)
    ensures Evicted(maxSessions, trace, id) == 0 <==> AlwaysRetained(maxSessions, trace, id)
  {
    if Retains(maxSessions, trace, id) {
      NoneEvictedIffAlwaysRetained(maxSessions, trace[..|trace| - 1], id);
      AlwaysRetainedStep(maxSessions, trace, id);
    } else if HistoryOf(trace, id) == [] {
      NoHistoryAtAll(maxSessions, trace, id);
    } else {
      assert trace[..|trace|] == trace;
    }
  }

  lemma AlwaysRetainedStep(maxSessions: nat, trace: seq<Event>, id: SessionId)
    requires |trace| > 0 && Retains(maxSessions, trace, id)
    ensures AlwaysRetained(maxSessions, trace, id) <==> AlwaysRetained(maxSessions, trace[..|trace| - 1], id)
  {
    var init := trace[..|trace| - 1];
    assert trace[..|trace|] == trace;
    assert forall n :: 0 <= n <= |init| ==> init[..n] == trace[..n];
  }

  lemma NoHistoryAtAll(maxSessions: nat, trace: seq<Event>, id: SessionId)
    requires HistoryOf(trace, id) == []
    ensures AlwaysRetained(maxSessions, trace, id)
  {
    forall n | 0 <= n <= |trace| ensures HistoryOf(trace[..n], id) == [] {
      NoHistoryBefore(trace, id, n);
    }
  }

  lemma {:induction false} NoHistoryBefore(trace: seq<Event>, id: SessionId, n: nat)
    requires HistoryOf(trace, id) == [] && n <= |trace|
    ensures HistoryOf(trace[..n], id) == []
  {
    if n == |trace| {
      assert trace[..n] == trace;
    } else {
      assert trace[..|trace| - 1][..n] == trace[..n];
      NoHistoryBefore(trace[..|trace| - 1], id, n);
    }
  }

  lemma LastOfNumbered(h: seq<Event>, gone: nat, cap: nat)
    requires gone <= |h|
    ensures LastN(Numbered(h, 0), cap) == Numbered(h, gone) <==> |h| - gone == if |h| <= cap then |h| else cap
  {
    var last := LastN(Numbered(h, 0), cap);
    var from := if |h| <= cap then 0 else |h| - cap;
    assert last == Numbered(h, from);
  }

  /** A buffer holds the last `cap` events of its session iff none was evicted with it, or `cap` came since. */
  lemma HoldsTheLastIff(cap: nat, maxSessions: nat, trace: seq<Event>, id: SessionId)
    ensures Buffer(EmitAll(cap, maxSessions, trace), id) == LastN(Numbered(HistoryOf(trace, id), 0), cap)
       <==> AlwaysRetained(maxSessions, trace, id) || Evicted(maxSessions, trace, id) + cap <= |HistoryOf(trace, id)|
  {
    NoneEvictedIffAlwaysRetained(maxSessions, trace, id);
    BuffersAreExact(cap, maxSessions, trace, id);
    LastOfNumbered(HistoryOf(trace, id), Gone(cap, maxSessions, trace, id), cap);
  }

  /** A session that was evicted and came back is retained again, but only with what it emitted since. */
  lemma ReturningSessionStartsAfresh(cap: nat, x: Event, y: Event)
    requires x.sessionId != y.sessionId && cap >= 2
    ensures Retains(1, [x, y, x], x.sessionId)
    ensures HistoryOf([x, y, x], x.sessionId) == [x, x] && Buffer(EmitAll(cap, 1, [x, y, x]), x.sessionId) == [SeqEvent(2, x)]
  {
    EvictedOnce(x, y);
    HistoriesOf(x, y);
    BuffersAreExact(cap, 1, [x, y, x], x.sessionId);
    assert Numbered([x, x], 1) == [SeqEvent(2, x)];
  }

  lemma EvictedOnce(x: Event, y: Event)
    requires x.sessionId != y.sessionId
    ensures Retains(1, [x, y, x], x.sessionId) && Evicted(1, [x, y, x], x.sessionId) == 1
  {
    HistoriesOf(x, y);
    RecencyOf(x, y);
    assert [x, y, x][..2] == [x, y];
    assert LastN(Recency([x, y]), 1) == [y.sessionId];
    assert LastN(Recency([x, y, x]), 1) == [x.sessionId];
  }

  lemma HistoriesOf(x: Event, y: Event)
    requires x.sessionId != y.sessionId
    ensures HistoryOf([x, y], x.sessionId) == [x] && HistoryOf([x, y, x], x.sessionId) == [x, x]
  {
    assert [x, y, x][..2] == [x, y] && [x, y][..1] == [x] && [x][..0] == [];
    assert HistoryOf([x], x.sessionId) == [x];
  }

  lemma RecencyOf(x: Event, y: Event)
    requires x.sessionId != y.sessionId
    ensures Recency([x, y]) == [x.sessionId, y.sessionId] && Recency([x, y, x]) == [y.sessionId, x.sessionId]
  {
    var a, b := x.sessionId, y.sessionId;
    assert [x, y, x][..2] == [x, y] && [x, y][..1] == [x] && [x][..0] == [];
    assert Recency([x]) == [a];
    assert [a][1..] == [] && [a, b][1..] == [b] && [b][1..] == [];
    assert Without([a], b) == [a];
    assert Without([b], a) == [b];
    assert Without([a, b], a) == [b];
  }

  lemma BuffersAreContiguous(cap: nat, maxSessions: nat, trace: seq<Event>, id: SessionId)
    ensures Contiguous(EmitAll(cap, maxSessions, trace), id, HistoryOf(trace, id))
    ensures |Buffer(EmitAll(cap, maxSessions, trace), id)| <= cap
  {
    BuffersAreExact(cap, maxSessions, trace, id);
  }

  /** What `replaySince` answers, for every cursor: the buffered events after it, and a drop iff some after it are gone. */
  ghost predicate RepliesFrom(h: seq<Event>, gone: nat, cursor: nat, r: ReplayResult)
    requires gone <= |h|
  {
    && (r.dropped <==> cursor < gone)
    && r.events == Numbered(h, if cursor <= gone then gone else if cursor <= |h| then cursor else |h|)
  }

  lemma ReplayIsExact(cap: nat, maxSessions: nat, trace: seq<Event>, id: SessionId, cursor: nat)
    ensures var gone := Gone(cap, maxSessions, trace, id);
      RepliesFrom(HistoryOf(trace, id), gone, cursor, ReplaySince(EmitAll(cap, maxSessions, trace), id, cursor))
  {
    BuffersAreExact(cap, maxSessions, trace, id);
    AfterNumbered(HistoryOf(trace, id), Gone(cap, maxSessions, trace, id), cursor);
  }

  /** For a cursor up to the head, replay reports no drop exactly when it returns the whole history after the cursor. */
  lemma ReplayIsHonest(cap: nat, maxSessions: nat, trace: seq<Event>, id: SessionId, cursor: nat)
    requires cursor <= |HistoryOf(trace, id)|
    ensures var r := ReplaySince(EmitAll(cap, maxSessions, trace), id, cursor);
      !r.dropped <==> r.events == Numbered(HistoryOf(trace, id), cursor)
  {
    var h, gone := HistoryOf(trace, id), Gone(cap, maxSessions, trace, id);
    ReplayIsExact(cap, maxSessions, trace, id, cursor);
    assert cursor < gone ==> |Numbered(h, gone)| < |Numbered(h, cursor)|;
  }

  predicate EndsWith(buf: seq<SeqEvent>, s: SeqEvent) {
    buf != [] && buf[|buf| - 1] == s
  }

  /** The newest event is always in the buffer. */
  lemma EmittedIsRetained(cap: nat, maxSessions: nat, trace: seq<Event>, e: Event)
    requires cap >= 1 && maxSessions >= 1
    ensures EndsWith(Buffer(EmitAll(cap, maxSessions, trace + [e]), e.sessionId), SeqEvent(|HistoryOf(trace, e.sessionId)| + 1, e))
  {
    var after, id := trace + [e], e.sessionId;
    assert after[..|trace|] == trace && after[|trace|] == e;
    var order := Recency(after);
    assert order[|order| - 1] == id && LastN(order, maxSessions)[|LastN(order, maxSessions)| - 1] == id;
    assert Evicted(maxSessions, after, id) == Evicted(maxSessions, trace, id);
    BuffersAreExact(cap, maxSessions, after, id);
  }

  // ----- the dev snapshot

  /** A snapshot's entries in order; `None` is a malformed value, which `hydrate` skips. */
  datatype Snapshot = Snapshot(
    seqs: map<SessionId, Option<nat>>, buffers: map<SessionId, Option<seq<Option<SeqEvent>>>>, order: seq<SessionId>)

  function WellFormedEvents(raw: seq<Option<SeqEvent>>): seq<SeqEvent> {
    if |raw| == 0 then []
    else (match raw[0] case Some(e) => [e] case None => []) + WellFormedEvents(raw[1..])
  }

  function TakeSnapshot(b: BusState): Snapshot {
    Snapshot(map id | id in b.seqs :: Some(b.seqs[id]),
             map id | id in b.buffers :: Some(seq(|b.buffers[id]|, i requires 0 <= i < |b.buffers[id]| => Some(b.buffers[id][i]))),
             b.order)
  }

  /** `events.slice(-cap)`: a cap of 0 keeps everything. */
  function SliceLast(events: seq<SeqEvent>, cap: nat): seq<SeqEvent> {
    if cap == 0 then events else LastN(events, cap)
  }

  /** The well-formed buffers among the entries in `ids`. */
  function HydratedBuffers(cap: nat, s: Snapshot, ids: set<SessionId>): map<SessionId, seq<SeqEvent>> {
    map id | id in s.buffers && s.buffers[id].Some? && id in ids :: SliceLast(WellFormedEvents(s.buffers[id].value), cap)
  }

  function Hydrated(cap: nat, s: Snapshot): BusState {
    BusState(map id | id in s.seqs && s.seqs[id].Some? :: s.seqs[id].value,
             HydratedBuffers(cap, s, s.buffers.Keys),
             KeepListed(s.order, s.buffers))
  }

  function KeepListed(order: seq<SessionId>, buffers: map<SessionId, Option<seq<Option<SeqEvent>>>>): seq<SessionId> {
    if |order| == 0 then []
    else (if order[0] in buffers && buffers[order[0]].Some? then [order[0]] else []) + KeepListed(order[1..], buffers)
  }

  lemma WellFormedStep(raw: seq<Option<SeqEvent>>, i: nat)
    requires i < |raw|
    ensures WellFormedEvents(raw[i..]) == (if raw[i].Some? then [raw[i].value] else []) + WellFormedEvents(raw[i + 1..])
  {
    assert raw[i..][1..] == raw[i + 1..];
  }

  lemma KeepListedStep(s: Snapshot, i: nat, kept: seq<SessionId>)
    requires i < |s.order| && kept + KeepListed(s.order[i..], s.buffers) == KeepListed(s.order, s.buffers)
    ensures var id := s.order[i];
      (kept + if id in s.buffers && s.buffers[id].Some? then [id] else []) + KeepListed(s.order[i + 1..], s.buffers)
      == KeepListed(s.order, s.buffers)
  {
    assert s.order[i..][1..] == s.order[i + 1..];
  }

  lemma HydratedAll(cap: nat, s: Snapshot, done: set<SessionId>)
    requires s.buffers.Keys <= done
    ensures HydratedBuffers(cap, s, done) == HydratedBuffers(cap, s, s.buffers.Keys)
  {
  }

  lemma {:induction false} WellFormedAll(es: seq<SeqEvent>, raw: seq<Option<SeqEvent>>)
    requires |raw| == |es| && forall i :: 0 <= i < |es| ==> raw[i] == Some(es[i])
    ensures WellFormedEvents(raw) == es
  {
    if |es| > 0 {
      WellFormedAll(es[1..], raw[1..]);
      assert es == [es[0]] + es[1..];
    }
  }

  lemma {:induction false} KeepAllListed(order: seq<SessionId>, buffers: map<SessionId, Option<seq<Option<SeqEvent>>>>)
    requires forall id :: id in order ==> id in buffers && buffers[id].Some?
    ensures KeepListed(order, buffers) == order
  {
    if |order| > 0 {
      KeepAllListed(order[1..], buffers);
      assert order == [order[0]] + order[1..];
    }
  }

  lemma HydrateSnapshotOf(cap: nat, b: BusState)
    requires forall id :: id in b.order ==> id in b.buffers
    requires forall id :: id in b.buffers ==> |b.buffers[id]| <= cap
    ensures Hydrated(cap, TakeSnapshot(b)) == b
  {
    var s, b' := TakeSnapshot(b), Hydrated(cap, TakeSnapshot(b));
    KeepAllListed(b.order, s.buffers);
    forall id | id in b.buffers ensures id in b'.buffers && b'.buffers[id] == b.buffers[id] {
      WellFormedAll(b.buffers[id], s.buffers[id].value);
    }
    assert b'.seqs == b.seqs && b'.buffers == b.buffers;
  }

  /** `hydrate(snapshot())` brings back the very same bus, whatever it had seen. */
  lemma HydrateSnapshot(cap: nat, maxSessions: nat, trace: seq<Event>)
    ensures var b := EmitAll(cap, maxSessions, trace); Hydrated(cap, TakeSnapshot(b)) == b
  {
    var b := EmitAll(cap, maxSessions, trace);
    RetainedAreMostRecent(cap, maxSessions, trace);
    forall id | id in b.buffers ensures |b.buffers[id]| <= cap {
      BuffersAreContiguous(cap, maxSessions, trace, id);
    }
    HydrateSnapshotOf(cap, b);
  }

  /** The positions of `kept` in `raw`: increasing, and all the well-formed ones. */
  predicate Selects(raw: seq<Option<SeqEvent>>, at: seq<nat>, kept: seq<SeqEvent>) {
    && |at| == |kept|
    && (forall i :: 0 <= i < |at| ==> at[i] < |raw| && raw[at[i]] == Some(kept[i]))
    && Increasing(at)
    && forall k :: 0 <= k < |raw| && raw[k].Some? ==> k in at
  }

  predicate Increasing(at: seq<nat>) {
    forall i, j :: 0 <= i < j < |at| ==> at[i] < at[j]
  }

  lemma IncreasingCons(rest: seq<nat>)
    requires Increasing(rest)
    ensures Increasing([0] + Shifted(rest))
  {
  }

  lemma SelectsAfterOne(raw: seq<Option<SeqEvent>>, rest: seq<nat>, kept: seq<SeqEvent>)
    requires |raw| > 0 && raw[0].None? && Selects(raw[1..], rest, kept)
    ensures Selects(raw, Shifted(rest), kept)
  {
    forall k | 0 <= k < |raw| && raw[k].Some? ensures k in Shifted(rest) {
      InShifted(raw, rest, kept, k);
    }
  }

  lemma SelectsWithOne(raw: seq<Option<SeqEvent>>, rest: seq<nat>, kept: seq<SeqEvent>)
    requires |raw| > 0 && raw[0].Some? && Selects(raw[1..], rest, kept)
    ensures Selects(raw, [0] + Shifted(rest), [raw[0].value] + kept)
  {
    var at := [0] + Shifted(rest);
    IncreasingCons(rest);
    forall i | 0 <= i < |at| ensures at[i] < |raw| && raw[at[i]] == Some(([raw[0].value] + kept)[i]) {
      if i > 0 {
        assert at[i] == rest[i - 1] + 1 && raw[1..][rest[i - 1]] == Some(kept[i - 1]);
      }
    }
    assert at[0] == 0;
    forall k | 0 <= k < |raw| && raw[k].Some? ensures k in at {
      if k > 0 {
        InShifted(raw, rest, kept, k);
      }
    }
  }

  lemma InShifted(raw: seq<Option<SeqEvent>>, rest: seq<nat>, kept: seq<SeqEvent>, k: nat)
    requires |raw| > 0 && Selects(raw[1..], rest, kept) && 0 < k < |raw| && raw[k].Some?
    ensures k in Shifted(rest)
  {
    assert raw[1..][k - 1] == raw[k];
    var i :| 0 <= i < |rest| && rest[i] == k - 1;
    assert Shifted(rest)[i] == k;
  }

  function Shifted(at: seq<nat>): (r: seq<nat>)
    ensures |r| == |at| && forall i :: 0 <= i < |r| ==> r[i] == at[i] + 1
  {
    seq(|at|, i requires 0 <= i < |at| => at[i] + 1)
  }

  /** The filter drops the malformed values and nothing else, in order. */
  lemma {:induction false} FilterIsExact(raw: seq<Option<SeqEvent>>) returns (at: seq<nat>)
    ensures Selects(raw, at, WellFormedEvents(raw))
  {
    at := [];
    if |raw| > 0 {
      var rest := FilterIsExact(raw[1..]);
      if raw[0].Some? {
        at := [0] + Shifted(rest);
        SelectsWithOne(raw, rest, WellFormedEvents(raw[1..]));
      } else {
        at := Shifted(rest);
        SelectsAfterOne(raw, rest, WellFormedEvents(raw[1..]));
        assert WellFormedEvents(raw) == WellFormedEvents(raw[1..]);
      }
    }
  }

  /** What a restore keeps: the well-formed heads, and of each well-formed buffer the last `cap` well-formed events. */
  ghost predicate RestoredFrom(b: BusState, cap: nat, s: Snapshot) {
    && (forall id :: id in b.seqs <==> id in s.seqs && s.seqs[id].Some?)
    && (forall id :: id in b.seqs ==> Some(b.seqs[id]) == s.seqs[id])
    && (forall id :: id in b.buffers <==> id in s.buffers && s.buffers[id].Some?)
    && forall id :: id in b.buffers ==> LastWellFormed(b.buffers[id], cap, s.buffers[id].value)
  }

  ghost predicate LastWellFormed(buf: seq<SeqEvent>, cap: nat, raw: seq<Option<SeqEvent>>) {
    && (cap > 0 ==> |buf| <= cap)
    && exists at, kept :: Selects(raw, at, kept) && buf == if cap == 0 then kept else LastN(kept, cap)
  }

  lemma HydratedRestores(cap: nat, s: Snapshot)
    ensures RestoredFrom(Hydrated(cap, s), cap, s)
  {
    var b := Hydrated(cap, s);
    forall id | id in b.buffers ensures LastWellFormed(b.buffers[id], cap, s.buffers[id].value) {
      var at := FilterIsExact(s.buffers[id].value);
    }
  }

  // ----- the class

  ghost predicate Covers(b: BusState) {
    Distinct(b.order) && forall id :: id in b.buffers ==> id in b.order
  }

  lemma EmitAllSnoc(cap: nat, maxSessions: nat, trace: seq<Event>, e: Event)
    ensures EmitAll(cap, maxSessions, trace + [e]) == Emitted(EmitAll(cap, maxSessions, trace), cap, maxSessions, e)
  {
    assert (trace + [e])[..|trace|] == trace;
  }

  lemma BufferedCovers(cap: nat, maxSessions: nat, trace: seq<Event>, e: Event)
    ensures Covers(Buffered(EmitAll(cap, maxSessions, trace), cap, e))
  {
    var b := EmitAll(cap, maxSessions, trace);
    RetainedAreMostRecent(cap, maxSessions, trace);
    RecencyDistinct(trace);
    WithoutDistinct(b.order, e.sessionId);
    DistinctSnoc(Without(b.order, e.sessionId), e.sessionId);
  }

  lemma RestrictAll(b: BusState)
    requires Covers(b)
    ensures Restrict(b.buffers, b.order[0..]) == b.buffers && b.order[0..] == b.order && Distinct(b.order)
  {
  }

  /** Deleting the oldest key is dropping the head of the order. */
  lemma RestrictTail(all: map<SessionId, seq<SeqEvent>>, order: seq<SessionId>, k: nat)
    requires k < |order| && Distinct(order)
    ensures order[k..][0] == order[k] && order[k..][1..] == order[k + 1..]
    ensures var r := Restrict(all, order[k..]);
      Restrict(all, order[k + 1..]) == map x | x in r && x != order[k] :: r[x]
  {
    assert order[k..] == [order[k]] + order[k + 1..];
    assert order[k] !in order[k + 1..];
  }

  class EventBus {
    const cap: nat
    const maxSessions: nat
    var seqs: map<SessionId, nat>
    var buffers: map<SessionId, seq<SeqEvent>>
    var order: seq<SessionId>
    /** Everything emitted so far. */
    ghost var trace: seq<Event>

    function State(): BusState
      reads this
    {
      BusState(seqs, buffers, order)
    }

    ghost predicate Valid()
      reads this
    {
      State() == EmitAll(cap, maxSessions, trace)
    }

    constructor (cap: nat, maxSessions: nat)
      ensures Valid() && this.cap == cap && this.maxSessions == maxSessions && trace == []
    {
      this.cap, this.maxSessions := cap, maxSessions;
      seqs, buffers, order, trace := map[], map[], [], [];
    }

    /** The first part of `emit`: push, splice, delete and re-insert. */
    method PushAndTouch(e: Event, n: nat)
      requires n == Head(State(), e.sessionId) + 1
      modifies `seqs, `buffers, `order
      ensures State() == Buffered(old(State()), cap, e)
    {
      var buf := Buffer(State(), e.sessionId) + [SeqEvent(n, e)];
      if |buf| > cap {
        buf := buf[|buf| - cap..];
      }
      seqs := seqs[e.sessionId := n];
      order := Without(order, e.sessionId) + [e.sessionId];
      buffers := buffers[e.sessionId := buf];
    }

    /** The eviction loop of `emit`: while over the limit, drop the oldest session's buffer. */
    method Evict()
      requires Covers(State())
      modifies `order, `buffers
      ensures State() == Trimmed(old(State()), maxSessions)
    {
      ghost var all, was, k := buffers, order, 0;
      RestrictAll(State());
      while |order| > maxSessions
        invariant 0 <= k <= |was| && (k == 0 || k + maxSessions <= |was|)
        invariant order == was[k..]
        invariant buffers == Restrict(all, was[k..])
      {
        RestrictTail(all, was, k);
        var oldest := order[0];
        buffers := map x | x in buffers && x != oldest :: buffers[x];
        order := order[1..];
        k := k + 1;
      }
      assert order == LastN(was, maxSessions);
    }

    /** `emit`, up to the calls of the listeners. */
    method Emit(e: Event) returns (n: nat)
      requires Valid()
      modifies this
      ensures Valid() && trace == old(trace) + [e]
      ensures n == |HistoryOf(old(trace), e.sessionId)| + 1 == Head(State(), e.sessionId)
      ensures forall id ::
        Buffer(State(), id) == Numbered(HistoryOf(trace, id), Gone(cap, maxSessions, trace, id))
      ensures cap >= 1 && maxSessions >= 1 ==> EndsWith(Buffer(State(), e.sessionId), SeqEvent(n, e))
    {
      BuffersAreContiguous(cap, maxSessions, trace, e.sessionId);
      n := Head(State(), e.sessionId) + 1;
      PushAndTouch(e, n);
      BufferedCovers(cap, maxSessions, trace, e);
      Evict();
      EmitAllSnoc(cap, maxSessions, trace, e);
      trace := trace + [e];
      AllBuffersAreExact(cap, maxSessions, trace);
      if cap >= 1 && maxSessions >= 1 {
        EmittedIsRetained(cap, maxSessions, old(trace), e);
      }
    }

    method Replay(id: SessionId, after: nat) returns (r: ReplayResult)
      requires Valid()
      ensures r == ReplaySince(State(), id, after)
      ensures RepliesFrom(HistoryOf(trace, id), Gone(cap, maxSessions, trace, id), after, r)
    {
      r := ReplaySince(State(), id, after);
      ReplayIsExact(cap, maxSessions, trace, id, after);
    }

    /** `v.filter(…)` over one buffer. */
    method KeepWellFormed(raw: seq<Option<SeqEvent>>) returns (kept: seq<SeqEvent>)
      ensures kept == WellFormedEvents(raw)
    {
      kept := [];
      for i := 0 to |raw|
        invariant kept + WellFormedEvents(raw[i..]) == WellFormedEvents(raw)
      {
        WellFormedStep(raw, i);
        if raw[i].Some? {
          kept := kept + [raw[i].value];
        }
      }
    }

    /** The sequence heads of the snapshot that are numbers. */
    method HydrateSeqs(s: Snapshot)
      modifies `seqs
      ensures seqs == Hydrated(cap, s).seqs
    {
      seqs := map[];
      var left := s.seqs.Keys;
      while left != {}
        invariant left <= s.seqs.Keys
        invariant seqs == map id | id in s.seqs && s.seqs[id].Some? && id !in left :: s.seqs[id].value
      {
        var id :| id in left;
        if s.seqs[id].Some? {
          seqs := seqs[id := s.seqs[id].value];
        }
        left := left - {id};
      }
    }

    /** One entry of the snapshot's buffers; `done` are the entries before it. */
    method HydrateBuffer(s: Snapshot, id: SessionId, ghost done: set<SessionId>)
      requires buffers == HydratedBuffers(cap, s, done)
      modifies `buffers, `order
      ensures buffers == HydratedBuffers(cap, s, done + {id})
      ensures order == old(order) + if id in s.buffers && s.buffers[id].Some? then [id] else []
    {
      if id in s.buffers && s.buffers[id].Some? {
        var kept := KeepWellFormed(s.buffers[id].value);
        buffers, order := buffers[id := SliceLast(kept, cap)], order + [id];
      }
    }

    /** The buffers of the snapshot that are arrays, in entry order. */
    method HydrateBuffers(s: Snapshot)
      requires forall id :: id in s.buffers ==> id in s.order
      modifies `buffers, `order
      ensures buffers == Hydrated(cap, s).buffers && order == Hydrated(cap, s).order
    {
      buffers, order := map[], [];
      ghost var done: set<SessionId> := {};
      assert s.order[0..] == s.order;
      for i := 0 to |s.order|
        invariant forall k :: 0 <= k < i ==> s.order[k] in done
        invariant order + KeepListed(s.order[i..], s.buffers) == KeepListed(s.order, s.buffers)
        invariant buffers == HydratedBuffers(cap, s, done)
      {
        KeepListedStep(s, i, order);
        HydrateBuffer(s, s.order[i], done);
        done := done + {s.order[i]};
      }
      HydratedAll(cap, s, done);
    }

    /**
     Boot-time restore. Malformed values are dropped and the last events of each buffer kept; the snapshot of a bus that
     has seen `from` brings that bus back, valid and with its history.
     */
    method Hydrate(s: Snapshot, ghost from: Option<seq<Event>>)
      requires forall id :: id in s.buffers ==> id in s.order
      modifies this
      ensures State() == Hydrated(cap, s) && RestoredFrom(State(), cap, s)
      ensures from.Some? && s == TakeSnapshot(EmitAll(cap, maxSessions, from.value)) ==> Valid() && trace == from.value
    {
      HydrateSeqs(s);
      HydrateBuffers(s);
      HydratedRestores(cap, s);
      if from.Some? && s == TakeSnapshot(EmitAll(cap, maxSessions, from.value)) {
        HydrateSnapshot(cap, maxSessions, from.value);
        trace := from.value;
      }
    }
  }
}
