/** Every `readReply` is settled at most once, and which ones are left waiting. */
module SmtpReaders {
  import opened Wrappers
  import opened SmtpReplies

  ghost predicate IsResolved(k: Socket, id: nat) {
    exists i :: 0 <= i < |k.resolved| && k.resolved[i].0 == id
  }

  /** A read is resolved, rejected or waiting: exactly one of them. */
  ghost predicate Partition(k: Socket) {
    && (forall id: nat :: id < k.asked <==> IsResolved(k, id) || id in k.rejected || id in k.waiters)
    && (forall id: nat :: id in k.waiters ==> !IsResolved(k, id) && id !in k.rejected)
    && (forall id: nat :: id in k.rejected ==> !IsResolved(k, id))
    && (forall i, j :: 0 <= i < j < |k.resolved| ==> k.resolved[i].0 != k.resolved[j].0)
    && (forall i, j :: 0 <= i < j < |k.waiters| ==> k.waiters[i] < k.waiters[j])
  }

  lemma DeliverResolves(k: Socket, n: nat, id: nat)
    requires |k.waiters| > 0 && n <= |k.buffer|
    ensures IsResolved(Deliver(k, n), id) <==> IsResolved(k, id) || id == k.waiters[0]
  {
    var k' := Deliver(k, n);
    if IsResolved(k, id) {
      var i :| 0 <= i < |k.resolved| && k.resolved[i].0 == id;
      assert k'.resolved[i].0 == id;
    }
    assert k'.resolved[|k.resolved|].0 == k.waiters[0];
  }

  lemma DeliverPartition(k: Socket, n: nat)
    requires Partition(k) && |k.waiters| > 0 && n <= |k.buffer|
    ensures Partition(Deliver(k, n))
  {
    var k' := Deliver(k, n);
    assert k.waiters == [k.waiters[0]] + k'.waiters;
    forall id: nat ensures IsResolved(k', id) <==> IsResolved(k, id) || id == k.waiters[0] {
      DeliverResolves(k, n, id);
    }
    forall i | 0 <= i < |k.resolved| ensures k.resolved[i].0 != k.waiters[0] {
      assert IsResolved(k, k.resolved[i].0) && k.waiters[0] in k.waiters;
    }
  }

  lemma {:induction false} DrainPartition(k: Socket)
    requires Partition(k)
    ensures Partition(Drain(k)) && Drain(k).rejected == k.rejected
    ensures forall w :: w in Drain(k).waiters ==> w in k.waiters
    decreases |k.waiters|
  {
    if |k.waiters| > 0 && ReplyEnd(k.buffer).Some? {
      var k' := Deliver(k, ReplyEnd(k.buffer).value);
      DeliverPartition(k, ReplyEnd(k.buffer).value);
      DrainPartition(k');
    }
  }

  lemma AskWaits(k: Socket)
    requires Partition(k)
    ensures Partition(k.(asked := k.asked + 1, waiters := k.waiters + [k.asked]))
  {
    var k' := k.(asked := k.asked + 1, waiters := k.waiters + [k.asked]);
    forall id: nat ensures IsResolved(k', id) <==> IsResolved(k, id) {
    }
    forall id: nat ensures id in k'.waiters <==> id in k.waiters || id == k.asked {
    }
    forall i | 0 <= i < |k.waiters| ensures k.waiters[i] < k.asked {
      assert k.waiters[i] in k.waiters;
    }
    assert !IsResolved(k, k.asked) && k.asked !in k.rejected;
  }

  lemma AskRejected(k: Socket)
    requires Partition(k)
    ensures Partition(k.(asked := k.asked + 1, rejected := k.rejected + {k.asked}))
  {
    var k' := k.(asked := k.asked + 1, rejected := k.rejected + {k.asked});
    forall id: nat ensures IsResolved(k', id) <==> IsResolved(k, id) {
    }
    assert !IsResolved(k, k.asked) && k.asked !in k.waiters;
  }

  /** Other fields do not matter. */
  lemma SamePartition(k: Socket, k': Socket)
    requires Partition(k) && k' == k.(buffer := k'.buffer, failed := k'.failed, ended := k'.ended)
    ensures Partition(k')
  {
    forall id: nat ensures IsResolved(k', id) <==> IsResolved(k, id) {
    }
  }

  lemma FailPartition(k: Socket)
    requires Partition(k)
    ensures Partition(FailWaiters(k)) && FailWaiters(k).waiters == []
  {
    forall id: nat ensures IsResolved(FailWaiters(k), id) <==> IsResolved(k, id) {
    }
  }

  lemma NextPartition(k: Socket, i: Input)
    requires Partition(k)
    ensures Partition(Next(k, i))
  {
    match i
    case Data(chunk) =>
      SamePartition(k, k.(buffer := k.buffer + chunk));
      DrainPartition(k.(buffer := k.buffer + chunk));
    case Read =>
      if k.failed {
        AskRejected(k);
      } else {
        AskWaits(k);
        DrainPartition(k.(asked := k.asked + 1, waiters := k.waiters + [k.asked]));
      }
    case SocketError =>
      SamePartition(k, k.(failed := true));
      FailPartition(k.(failed := true));
    case Close =>
      SamePartition(k, k.(ended := true));
      FailPartition(k.(ended := true));
    case End => SamePartition(k, k.(ended := true));
  }

  /** Whatever happens on the connection, each read asked for is in exactly one state, and settled at most once. */
  lemma {:induction false} EveryReadIsAccountedFor(es: seq<Input>)
    ensures Partition(RunFrom(es)) && RunFrom(es).asked == ReadCount(es)
  {
    RunReads(es);
    if |es| > 0 {
      EveryReadIsAccountedFor(es[..|es| - 1]);
      NextPartition(RunFrom(es[..|es| - 1]), es[|es| - 1]);
    }
  }

  // ----- who waits after a failure

  predicate HasError(es: seq<Input>) {
    exists i :: 0 <= i < |es| && es[i] == SocketError
  }

  lemma ErrorStep(es: seq<Input>)
    requires |es| > 0
    ensures HasError(es) <==> HasError(es[..|es| - 1]) || es[|es| - 1] == SocketError
  {
    var init := es[..|es| - 1];
    if HasError(es) {
      var i :| 0 <= i < |es| && es[i] == SocketError;
      assert i < |init| ==> init[i] == SocketError;
    }
    if HasError(init) {
      var i :| 0 <= i < |init| && init[i] == SocketError;
      assert es[i] == SocketError;
    }
  }

  /** Once the socket has failed nobody waits: every read so far is settled, and later ones are rejected at once. */
  lemma {:induction false} NobodyWaitsAfterAnError(es: seq<Input>)
    ensures RunFrom(es).failed <==> HasError(es)
    ensures HasError(es) ==> RunFrom(es).waiters == []
  {
    if |es| > 0 {
      var init, k := es[..|es| - 1], RunFrom(es[..|es| - 1]);
      NobodyWaitsAfterAnError(init);
      ErrorStep(es);
      EveryReadIsAccountedFor(init);
      match es[|es| - 1]
      case Data(chunk) =>
        DrainFailed(k.(buffer := k.buffer + chunk));
        NoneDrained(k.(buffer := k.buffer + chunk));
      case Read => DrainFailed(k.(asked := k.asked + 1, waiters := k.waiters + [k.asked]));
      case _ =>
    }
  }

  lemma NoneDrained(k: Socket)
    ensures k.waiters == [] ==> Drain(k) == k
  {
  }

  /** A close settles every read asked before it. */
  lemma {:induction false} OnlyLaterReadsWaitAfterAClose(es: seq<Input>, more: seq<Input>)
    ensures forall w :: w in RunFrom(es + [Close] + more).waiters ==> w >= ReadCount(es)
    decreases |more|
  {
    var closed := es + [Close];
    if |more| == 0 {
      assert closed + more == closed;
      RunSnoc(es, Close);
    } else {
      var init, i := more[..|more| - 1], more[|more| - 1];
      assert closed + more == closed + init + [i];
      OnlyLaterReadsWaitAfterAClose(es, init);
      RunSnoc(closed + init, i);
      EveryReadIsAccountedFor(closed + init);
      CountGrows(es, [Close] + init);
      assert es + ([Close] + init) == closed + init;
      LaterStep(RunFrom(closed + init), i, ReadCount(es));
    }
  }

  lemma RunSnoc(es: seq<Input>, i: Input)
    ensures RunFrom(es + [i]) == Next(RunFrom(es), i)
  {
    assert (es + [i])[..|es|] == es;
  }

  lemma LaterStep(k: Socket, i: Input, n: nat)
    requires (forall w :: w in k.waiters ==> w >= n)
    ensures k.asked >= n ==> forall w :: w in Next(k, i).waiters ==> w >= n
  {
    match i
    case Data(chunk) => DrainShrinks(k.(buffer := k.buffer + chunk));
    case Read => DrainShrinks(k.(asked := k.asked + 1, waiters := k.waiters + [k.asked]));
    case _ =>
  }

  lemma {:induction false} DrainShrinks(k: Socket)
    ensures forall w :: w in Drain(k).waiters ==> w in k.waiters
    decreases |k.waiters|
  {
    if |k.waiters| > 0 && ReplyEnd(k.buffer).Some? {
      DrainShrinks(Deliver(k, ReplyEnd(k.buffer).value));
    }
  }

  lemma {:induction false} CountGrows(es: seq<Input>, more: seq<Input>)
    ensures ReadCount(es + more) >= ReadCount(es)
    decreases |more|
  {
    if |more| == 0 {
      assert es + more == es;
    } else {
      assert (es + more)[..|es + more| - 1] == es + more[..|more| - 1];
      CountGrows(es, more[..|more| - 1]);
    }
  }

  /** But a read that comes after a close without an error waits: the close left no error behind to reject it with. */
  lemma ReadAfterCloseWaits()
    ensures RunFrom([Close, Read]).waiters == [0]
  {
    var k1, k2 := RunFrom([Close]), RunFrom([Close, Read]);
    assert [Close, Read][..1] == [Close] && [Close][..0] == [];
    assert k1 == FRESH.(ended := true);
    assert ReplyEnd("") == None;
  }
}
