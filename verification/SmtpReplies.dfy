/** Incremental SMTP reply framing (multi-line replies, section 4.2.1 of RFC 5321). */
module SmtpReplies {
  import opened Wrappers

  // ----- the framing of a whole stream

  /** `indexOf('\n', offset)`. */
  function NewlineFrom(s: string, offset: nat): (r: Option<nat>)
    requires offset <= |s|
    ensures r.Some? ==> offset <= r.value < |s| && s[r.value] == '\n'
    decreases |s| - offset
  {
    if offset == |s| then None
    else if s[offset] == '\n' then Some(offset)
    else NewlineFrom(s, offset + 1)
  }

  predicate IsDigit(c: char) {
    '0' <= c <= '9'
  }

  /** The line from `from` up to its line feed at `nl` matches `/^\d{3} /`: it is the last line of a reply. */
  predicate IsFinalLine(s: string, from: nat, nl: nat)
    requires from <= nl < |s|
  {
    nl + 1 - from >= 4 && IsDigit(s[from]) && IsDigit(s[from + 1]) && IsDigit(s[from + 2]) && s[from + 3] == ' '
  }

  /** The index just past the first complete reply from `offset` on: continuation lines, then a final line. */
  function ReplyEndFrom(s: string, offset: nat): (r: Option<nat>)
    requires offset <= |s|
    ensures r.Some? ==> offset < r.value <= |s|
    decreases |s| - offset
  {
    match NewlineFrom(s, offset)
    case None => None
    case Some(nl) => if IsFinalLine(s, offset, nl) then Some(nl + 1) else ReplyEndFrom(s, nl + 1)
  }

  function ReplyEnd(s: string): (r: Option<nat>)
    ensures r.Some? ==> 1 <= r.value <= |s|
  {
    ReplyEndFrom(s, 0)
  }

  /** The complete replies of a stream, in order. */
  function Replies(s: string): seq<string>
    decreases |s|
  {
    match ReplyEnd(s)
    case None => []
    case Some(n) => [s[..n]] + Replies(s[n..])
  }

  function Concat(parts: seq<string>): string {
    if |parts| == 0 then "" else parts[0] + Concat(parts[1..])
  }

  // ----- the socket

  /** One moment in the life of a connection. */
  datatype Input = Data(chunk: string) | Read | SocketError | Close | End

  /** `waiters` and the settled readers are numbered in the order of their `readReply` calls. */
  datatype Socket = Socket(buffer: string, waiters: seq<nat>, failed: bool, ended: bool, asked: nat,
                           resolved: seq<(nat, string)>, rejected: set<nat>)

  const FRESH := Socket("", [], false, false, 0, [], {})

  /** The first n characters of the buffer go to the first waiter. */
  function Deliver(k: Socket, n: nat): Socket
    requires |k.waiters| > 0 && n <= |k.buffer|
  {
    k.(buffer := k.buffer[n..], waiters := k.waiters[1..], resolved := k.resolved + [(k.waiters[0], k.buffer[..n])])
  }

  function Drain(k: Socket): Socket
    decreases |k.waiters|
  {
    if |k.waiters| == 0 then k
    else match ReplyEnd(k.buffer)
      case None => k
      case Some(n) => Drain(Deliver(k, n))
  }

  function FailWaiters(k: Socket): Socket {
    k.(waiters := [], rejected := k.rejected + set w | w in k.waiters)
  }

  function Next(k: Socket, i: Input): Socket {
    match i
    case Data(chunk) => Drain(k.(buffer := k.buffer + chunk))
    case Read =>
      if k.failed then k.(asked := k.asked + 1, rejected := k.rejected + {k.asked})
      else Drain(k.(asked := k.asked + 1, waiters := k.waiters + [k.asked]))
    case SocketError => FailWaiters(k.(failed := true))
    case Close => FailWaiters(k.(ended := true))
    case End => k.(ended := true)
  }

  function RunFrom(es: seq<Input>): Socket {
    if |es| == 0 then FRESH else Next(RunFrom(es[..|es| - 1]), es[|es| - 1])
  }

  function Incoming(i: Input): string {
    match i case Data(chunk) => chunk case _ => ""
  }

  /** Everything the server sent. */
  function Received(es: seq<Input>): string {
    if |es| == 0 then ""
    else Received(es[..|es| - 1]) + Incoming(es[|es| - 1])
  }

  function ReadCount(es: seq<Input>): nat {
    if |es| == 0 then 0 else ReadCount(es[..|es| - 1]) + (if es[|es| - 1].Read? then 1 else 0)
  }

  function Texts(resolved: seq<(nat, string)>): (r: seq<string>)
    ensures |r| == |resolved| && forall i :: 0 <= i < |r| ==> r[i] == resolved[i].1
  {
    seq(|resolved|, i requires 0 <= i < |resolved| => resolved[i].1)
  }

  // ----- a complete reply does not depend on what follows it

  lemma {:induction false} NewlinePrefix(s: string, t: string, offset: nat)
    requires offset <= |s| && NewlineFrom(s, offset).Some?
    ensures NewlineFrom(s + t, offset) == NewlineFrom(s, offset)
    decreases |s| - offset
  {
    if s[offset] != '\n' {
      NewlinePrefix(s, t, offset + 1);
    }
  }

  lemma {:induction false} ReplyFromPrefix(s: string, t: string, offset: nat)
    requires offset <= |s| && ReplyEndFrom(s, offset).Some?
    ensures ReplyEndFrom(s + t, offset) == ReplyEndFrom(s, offset)
    decreases |s| - offset
  {
    NewlinePrefix(s, t, offset);
    var nl := NewlineFrom(s, offset).value;
    if !IsFinalLine(s, offset, nl) {
      ReplyFromPrefix(s, t, nl + 1);
    }
  }

  lemma ReplyEndPrefix(s: string, t: string)
    requires ReplyEnd(s).Some?
    ensures ReplyEnd(s + t) == ReplyEnd(s)
  {
    ReplyFromPrefix(s, t, 0);
  }

  lemma {:induction false} NewlineCut(s: string, k: nat, offset: nat)
    requires offset <= k <= |s| && NewlineFrom(s, offset).Some? && NewlineFrom(s, offset).value < k
    ensures NewlineFrom(s[..k], offset) == NewlineFrom(s, offset)
    decreases k - offset
  {
    if s[offset] != '\n' {
      NewlineCut(s, k, offset + 1);
    }
  }

  lemma {:induction false} ReplyFromCut(s: string, k: nat, offset: nat)
    requires offset <= |s| && ReplyEndFrom(s, offset) == Some(k)
    ensures ReplyEndFrom(s[..k], offset) == Some(k)
    decreases k - offset
  {
    var nl := NewlineFrom(s, offset).value;
    NewlineCut(s, k, offset);
    if !IsFinalLine(s, offset, nl) {
      ReplyFromCut(s, k, nl + 1);
    }
  }

  lemma ReplyEndExact(s: string)
    requires ReplyEnd(s).Some?
    ensures ReplyEnd(s[..ReplyEnd(s).value]) == ReplyEnd(s)
  {
    ReplyFromCut(s, ReplyEnd(s).value, 0);
  }

  /** Exactly one complete reply. */
  predicate IsReply(s: string) {
    ReplyEnd(s) == Some(|s|)
  }

  lemma FirstReply(reply: string, tail: string)
    requires IsReply(reply)
    ensures Replies(reply + tail) == [reply] + Replies(tail)
  {
    ReplyEndPrefix(reply, tail);
    assert (reply + tail)[..|reply|] == reply && (reply + tail)[|reply|..] == tail;
  }

  lemma {:induction false} RepliesOfConcat(parts: seq<string>, rest: string)
    requires forall i :: 0 <= i < |parts| ==> IsReply(parts[i])
    ensures Replies(Concat(parts) + rest) == parts + Replies(rest)
  {
    if |parts| == 0 {
      assert Concat(parts) + rest == rest;
    } else {
      ConcatCons(parts, rest);
      assert IsReply(parts[0]);
      FirstReply(parts[0], Concat(parts[1..]) + rest);
      RepliesOfConcat(parts[1..], rest);
      ConsAppend(parts, Replies(rest));
    }
  }

  lemma ConcatCons(parts: seq<string>, rest: string)
    requires |parts| > 0
    ensures Concat(parts) + rest == parts[0] + (Concat(parts[1..]) + rest)
  {
  }

  lemma ConsAppend(parts: seq<string>, rest: seq<string>)
    requires |parts| > 0
    ensures [parts[0]] + (parts[1..] + rest) == parts + rest
  {
  }

  lemma {:induction false} ConcatSnoc(parts: seq<string>, s: string)
    ensures Concat(parts + [s]) == Concat(parts) + s
  {
    if |parts| > 0 {
      assert (parts + [s])[1..] == parts[1..] + [s];
      ConcatSnoc(parts[1..], s);
    } else {
      assert [s][1..] == [];
    }
  }

  // ----- what every run keeps

  /** What was delivered are complete replies, and with the buffer they are all that came in. */
  ghost predicate Framed(received: string, k: Socket) {
    && (forall i :: 0 <= i < |k.resolved| ==> IsReply(k.resolved[i].1))
    && received == Concat(Texts(k.resolved)) + k.buffer
  }

  /** Nobody waits for a reply that is already complete. */
  predicate Settled(k: Socket) {
    |k.waiters| > 0 ==> ReplyEnd(k.buffer).None?
  }

  /** While nothing has failed, replies went to the readers in the order of their calls, and the rest still wait. */
  ghost predicate InOrder(k: Socket) {
    && |k.resolved| + |k.waiters| == k.asked
    && (forall i :: 0 <= i < |k.resolved| ==> k.resolved[i].0 == i)
    && (forall i :: 0 <= i < |k.waiters| ==> k.waiters[i] == |k.resolved| + i)
  }

  lemma DeliverFrames(received: string, k: Socket)
    requires Framed(received, k) && |k.waiters| > 0 && ReplyEnd(k.buffer).Some?
    ensures Framed(received, Deliver(k, ReplyEnd(k.buffer).value))
  {
    var n := ReplyEnd(k.buffer).value;
    ReplyEndExact(k.buffer);
    assert Texts(Deliver(k, n).resolved) == Texts(k.resolved) + [k.buffer[..n]];
    ConcatSnoc(Texts(k.resolved), k.buffer[..n]);
    assert k.buffer == k.buffer[..n] + k.buffer[n..];
  }

  lemma {:induction false} DrainFrames(received: string, k: Socket)
    requires Framed(received, k)
    ensures Framed(received, Drain(k)) && Settled(Drain(k)) && Drain(k).asked == k.asked
    ensures InOrder(k) ==> InOrder(Drain(k))
    decreases |k.waiters|
  {
    if |k.waiters| > 0 && ReplyEnd(k.buffer).Some? {
      DeliverFrames(received, k);
      DrainFrames(received, Deliver(k, ReplyEnd(k.buffer).value));
    }
  }

  predicate NoFailure(es: seq<Input>) {
    forall i :: 0 <= i < |es| ==> es[i].Data? || es[i].Read? || es[i].End?
  }

  lemma NextFrames(received: string, k: Socket, i: Input)
    requires Framed(received, k) && Settled(k)
    ensures Framed(received + Incoming(i), Next(k, i)) && Settled(Next(k, i))
    ensures InOrder(k) && !k.failed && (i.Data? || i.Read? || i.End?) ==> InOrder(Next(k, i)) && !Next(k, i).failed
  {
    match i
    case Data(chunk) =>
      ReceivedMore(received, k, chunk);
      DrainKeeps(received + chunk, k.(buffer := k.buffer + chunk));
    case _ =>
      ReadFrames(received, k);
      assert received + "" == received;
  }

  lemma ReadFrames(received: string, k: Socket)
    requires Framed(received, k)
    ensures Framed(received, Next(k, Read)) && (Settled(k) ==> Settled(Next(k, Read)))
    ensures InOrder(k) && !k.failed ==> InOrder(Next(k, Read)) && !Next(k, Read).failed
  {
    DrainKeeps(received, k.(asked := k.asked + 1, waiters := k.waiters + [k.asked]));
  }

  lemma ReceivedMore(received: string, k: Socket, chunk: string)
    requires Framed(received, k)
    ensures Framed(received + chunk, k.(buffer := k.buffer + chunk))
  {
    assert received + chunk == Concat(Texts(k.resolved)) + (k.buffer + chunk);
  }

  lemma DrainKeeps(received: string, k: Socket)
    requires Framed(received, k)
    ensures Framed(received, Drain(k)) && Settled(Drain(k)) && Drain(k).failed == k.failed
    ensures InOrder(k) ==> InOrder(Drain(k))
  {
    DrainFrames(received, k);
    DrainFailed(k);
  }

  lemma {:induction false} DrainFailed(k: Socket)
    ensures Drain(k).failed == k.failed
    decreases |k.waiters|
  {
    if |k.waiters| > 0 && ReplyEnd(k.buffer).Some? {
      DrainFailed(Deliver(k, ReplyEnd(k.buffer).value));
    }
  }

  lemma {:induction false} RunFrames(es: seq<Input>)
    ensures Framed(Received(es), RunFrom(es)) && Settled(RunFrom(es))
    ensures NoFailure(es) ==> InOrder(RunFrom(es)) && !RunFrom(es).failed
  {
    if |es| > 0 {
      RunFrames(es[..|es| - 1]);
      NextFrames(Received(es[..|es| - 1]), RunFrom(es[..|es| - 1]), es[|es| - 1]);
    }
  }

  lemma {:induction false} RunReads(es: seq<Input>)
    ensures RunFrom(es).asked == ReadCount(es)
  {
    if |es| > 0 {
      RunReads(es[..|es| - 1]);
      var k := RunFrom(es[..|es| - 1]);
      match es[|es| - 1]
      case Data(chunk) => DrainReads(k.(buffer := k.buffer + chunk));
      case Read => DrainReads(k.(asked := k.asked + 1, waiters := k.waiters + [k.asked]));
      case _ =>
    }
  }

  lemma {:induction false} DrainReads(k: Socket)
    ensures Drain(k).asked == k.asked
    decreases |k.waiters|
  {
    if |k.waiters| > 0 && ReplyEnd(k.buffer).Some? {
      DrainReads(Deliver(k, ReplyEnd(k.buffer).value));
    }
  }

  // ----- main results

  /**
   However the stream is split into chunks, wherever reads, errors and closes fall: the i-th resolved reply is the i-th
   reply of the whole stream, delivered text and buffer are what was received, and no complete reply is kept from a
   waiting reader.
   */
  lemma ResolvedAreTheFirstReplies(es: seq<Input>)
    ensures var k, all := RunFrom(es), Replies(Received(es));
      && |k.resolved| <= |all| && Texts(k.resolved) == all[..|k.resolved|]
      && Received(es) == Concat(Texts(k.resolved)) + k.buffer
      && (|k.waiters| > 0 ==> |k.resolved| == |all|)
  {
    var k := RunFrom(es);
    RunFrames(es);
    RepliesOfConcat(Texts(k.resolved), k.buffer);
    assert Replies(Received(es)) == Texts(k.resolved) + Replies(k.buffer);
  }

  /**
   While nothing fails, the i-th `readReply` gets the i-th reply of the stream, and exactly as many are answered as
   there are both reads and replies.
   */
  lemma EachReadGetsItsReply(es: seq<Input>)
    requires NoFailure(es)
    ensures var k, all := RunFrom(es), Replies(Received(es));
      && |k.resolved| == (if ReadCount(es) <= |all| then ReadCount(es) else |all|)
      && forall i :: 0 <= i < |k.resolved| ==> k.resolved[i] == (i, all[i])
  {
    var k, all := RunFrom(es), Replies(Received(es));
    RunFrames(es);
    RunReads(es);
    ResolvedAreTheFirstReplies(es);
    forall i | 0 <= i < |k.resolved| ensures k.resolved[i] == (i, all[i]) {
      assert Texts(k.resolved)[i] == all[i];
    }
  }

  /** So two conversations with the same stream and the same number of reads end the same, whatever the chunks. */
  lemma ChunkingDoesNotMatter(es: seq<Input>, fs: seq<Input>)
    requires NoFailure(es) && NoFailure(fs)
    requires Received(es) == Received(fs) && ReadCount(es) == ReadCount(fs)
    ensures RunFrom(es).resolved == RunFrom(fs).resolved && RunFrom(es).buffer == RunFrom(fs).buffer
  {
    EachReadGetsItsReply(es);
    EachReadGetsItsReply(fs);
    ResolvedAreTheFirstReplies(es);
    ResolvedAreTheFirstReplies(fs);
    var a, b := RunFrom(es), RunFrom(fs);
    assert a.resolved == b.resolved;
    var text := Concat(Texts(a.resolved));
    assert (text + a.buffer)[|text|..] == a.buffer && (text + b.buffer)[|text|..] == b.buffer;
  }

  // ----- the socket object

  method IndexOfNewline(s: string, offset: nat) returns (nl: int)
    requires offset <= |s|
    ensures nl == match NewlineFrom(s, offset) case None => -1 case Some(n) => n
  {
    nl := offset;
    while nl < |s|
      invariant offset <= nl <= |s| && NewlineFrom(s, nl) == NewlineFrom(s, offset)
      decreases |s| - nl
    {
      if s[nl] == '\n' { return; }
      nl := nl + 1;
    }
    nl := -1;
  }

  class RealSmtpSocket {
    var buffer: string
    var waiters: seq<nat>
    var failed: bool
    var ended: bool
    var asked: nat
    /** The settled promises. */
    var resolved: seq<(nat, string)>
    var rejected: set<nat>

    function AsSocket(): Socket
      reads this
    {
      Socket(buffer, waiters, failed, ended, asked, resolved, rejected)
    }

    constructor ()
      ensures AsSocket() == FRESH
    {
      buffer, waiters, failed, ended, asked, resolved, rejected := "", [], false, false, 0, [], {};
    }

    method CompleteReplyEnd() returns (end: int)
      ensures end == match ReplyEnd(buffer) case None => -1 case Some(n) => n
    {
      var offset := 0;
      while true
        invariant 0 <= offset <= |buffer| && ReplyEndFrom(buffer, offset) == ReplyEnd(buffer)
        decreases |buffer| - offset
      {
        var nl := IndexOfNewline(buffer, offset);
        if nl < 0 { return -1; }
        if IsFinalLine(buffer, offset, nl) { return nl + 1; }
        offset := nl + 1;
      }
    }

    method DrainWaiters()
      modifies this
      ensures AsSocket() == Drain(old(AsSocket()))
    {
      while |waiters| > 0
        invariant Drain(AsSocket()) == Drain(old(AsSocket()))
        decreases |waiters|
      {
        var end := CompleteReplyEnd();
        if end < 0 { return; }
        var reply := buffer[..end];
        buffer := buffer[end..];
        resolved := resolved + [(waiters[0], reply)];
        waiters := waiters[1..];
      }
    }

    method OnData(chunk: string)
      modifies this
      ensures AsSocket() == Next(old(AsSocket()), Data(chunk))
    {
      buffer := buffer + chunk;
      DrainWaiters();
    }

    method ReadReply()
      modifies this
      ensures AsSocket() == Next(old(AsSocket()), Read)
    {
      var id := asked;
      asked := asked + 1;
      if failed {
        rejected := rejected + {id};
        return;
      }
      waiters := waiters + [id];
      DrainWaiters();
    }

    method RejectWaiters()
      modifies this
      ensures AsSocket() == FailWaiters(old(AsSocket()))
    {
      var pending := waiters;
      waiters := [];
      for i := 0 to |pending|
        invariant AsSocket() == old(AsSocket()).(waiters := [], rejected := old(rejected) + set w | w in pending[..i])
      {
        assert pending[..i + 1] == pending[..i] + [pending[i]];
        rejected := rejected + {pending[i]};
      }
      assert pending[..|pending|] == pending;
    }

    method OnError()
      modifies this
      ensures AsSocket() == Next(old(AsSocket()), SocketError)
    {
      failed := true;
      RejectWaiters();
    }

    method OnClose()
      modifies this
      ensures AsSocket() == Next(old(AsSocket()), Close)
    {
      ended := true;
      RejectWaiters();
    }
  }
}
