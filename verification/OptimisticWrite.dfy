/**
 The session store as an object, and the read-modify-write loop that `updateResilient`, the token recorder,
 `appendExternalWrite`, `patchExternalWrite` and `chatAppend` all run against it.

 Interference is explicit: `windows(k)` are the commits other writers land between the k-th read and the
 write that follows it.
 */
module OptimisticWrite {
  import opened Wrappers
  import opened Session

  /** What a writer makes of the row it read: give an answer without writing, or write and answer if it commits. */
  datatype Decision<+A> = Stop(answer: A) | Put(write: Write, answer: A)

  datatype Result<+A> = Answered(answer: A) | Conflict

  function ApplyAll(row: Row, ws: seq<Write>): (r: Row)
    ensures r.version == row.version + |ws|
    decreases |ws|
  {
    if |ws| == 0 then row else ApplyAll(Apply(row, ws[0]), ws[1..])
  }

  /** The row as the k-th attempt reads it when no earlier attempt committed. */
  function RowAt(row: Row, windows: nat -> seq<Write>, k: nat): Row {
    if k == 0 then row else ApplyAll(RowAt(row, windows, k - 1), windows(k - 1))
  }

  class SessionStore {
    var row: Row

    constructor (row: Row)
      ensures this.row == row
    {
      this.row := row;
    }

    method Get() returns (r: Row)
      ensures r == row
    {
      r := row;
    }

    /** `update`, `recordApproval` or `recordVerification`: `None` is the version conflict, which writes nothing. */
    method Update(w: Write, expected: nat) returns (r: Option<Row>)
      modifies this
      ensures r == Commit(old(row), w, expected)
      ensures row == r.GetOr(old(row))
    {
      if row.version != expected {
        return None;
      }
      row := Apply(row, w);
      r := Some(row);
    }

    /** Other writers commit, each at the version it finds. */
    method Interfere(ws: seq<Write>)
      modifies this
      ensures row == ApplyAll(old(row), ws)
    {
      for i := 0 to |ws|
        invariant ApplyAll(row, ws[i..]) == ApplyAll(old(row), ws)
      {
        assert ws[i..][1..] == ws[i + 1..];
        row := Apply(row, ws[i]);
      }
    }
  }

  /** Attempt k is settled by the decision itself or by an undisturbed window. */
  predicate Settles<A>(row: Row, decide: Row -> Decision<A>, windows: nat -> seq<Write>, k: nat) {
    decide(RowAt(row, windows, k)).Stop? || windows(k) == []
  }

  /** The number of attempts that meet interference before one is settled, at most `limit`. */
  function Disturbed<A>(row: Row, decide: Row -> Decision<A>, windows: nat -> seq<Write>, k: nat, limit: nat): (n: nat)
    requires k <= limit
    ensures k <= n <= limit
    ensures forall j :: k <= j < n ==> !Settles(row, decide, windows, j)
    ensures n < limit ==> Settles(row, decide, windows, n)
    decreases limit - k
  {
    if k == limit || Settles(row, decide, windows, k) then k else Disturbed(row, decide, windows, k + 1, limit)
  }

  /** The k-th window and the write behind it, which commits exactly if the window is undisturbed. */
  method WriteAfterRead(store: SessionStore, ghost row0: Row, windows: nat -> seq<Write>, k: nat, w: Write, expected: nat)
    returns (committed: bool)
    requires store.row == RowAt(row0, windows, k) && expected == store.row.version
    modifies store
    ensures committed <==> windows(k) == []
    ensures store.row == if committed then Apply(RowAt(row0, windows, k), w) else RowAt(row0, windows, k + 1)
  {
    store.Interfere(windows(k));
    var out := store.Update(w, expected);
    committed := out.Some?;
  }

  /**
   The loop. It answers exactly when one of its `maxRetry + 1` attempts is settled; the first settled attempt
   wins, its write lands on top of every commit that came before, and a conflict means every attempt met one.
   */
  method ReadModifyWrite<A>(store: SessionStore, decide: Row -> Decision<A>, windows: nat -> seq<Write>, maxRetry: nat)
    returns (r: Result<A>)
    modifies store
    ensures var n := Disturbed(old(store.row), decide, windows, 0, maxRetry + 1);
      if n > maxRetry then
        && r == Conflict
        && store.row == RowAt(old(store.row), windows, maxRetry + 1)
      else
        var read := RowAt(old(store.row), windows, n);
        && r == Answered(decide(read).answer)
        && store.row == if decide(read).Put? then Apply(read, decide(read).write) else read
  {
    ghost var row0 := store.row;
    ghost var n := Disturbed(row0, decide, windows, 0, maxRetry + 1);
    var attempt := 0;
    while true
      invariant 0 <= attempt <= maxRetry
      invariant store.row == RowAt(row0, windows, attempt)
      invariant attempt <= n
      decreases maxRetry - attempt
    {
      var cur := store.Get();
      var d := decide(cur);
      if d.Stop? {
        assert Settles(row0, decide, windows, attempt);
        return Answered(d.answer);
      }
      var committed := WriteAfterRead(store, row0, windows, attempt, d.write, cur.version);
      assert committed <==> Settles(row0, decide, windows, attempt);
      if committed {
        return Answered(d.answer);
      }
      if attempt >= maxRetry {
        return Conflict;
      }
      attempt := attempt + 1;
    }
  }

  // ----- the pipeline's writers

  datatype Written = Committed | RunCancelled

  /** `updateResilient`: refuse a cancelled row, else re-apply the patch to the row just read. */
  function UpdateDecision(patch: Row -> Patch): Row -> Decision<Written> {
    (cur: Row) => if cur.status == Cancelled then Stop(RunCancelled) else Put(Generic(patch(cur)), Committed)
  }

  /** The same loop around `recordVerification`, always with the token Trace minted. */
  function TokenDecision(token: VerifyToken): Row -> Decision<Written> {
    (cur: Row) => if cur.status == Cancelled then Stop(RunCancelled) else Put(RecordVerification(token), Committed)
  }

  /** `chatAppend`, which tries twice. */
  function ChatDecision(turns: seq<ChatTurn>): Row -> Decision<Written> {
    (cur: Row) => Put(Generic(NO_PATCH.(chat := Some(LastN(cur.chat + turns, CHAT_TURNS_MAX)))), Committed)
  }

  /**
   `updateResilient`. On success the row is the patch on top of everything committed before it, so a column
   the patch does not name keeps what the interfering writers put there; a cancelled row is left as it is; a
   conflict needs a foreign commit in each of six windows.
   */
  method UpdateResilient(store: SessionStore, patch: Row -> Patch, windows: nat -> seq<Write>) returns (r: Result<Written>)
    modifies store
    ensures r == Answered(Committed) ==>
      exists k :: 0 <= k <= MAX_RESILIENT_WRITE_RETRY
        && RowAt(old(store.row), windows, k).status != Cancelled
        && store.row == Apply(RowAt(old(store.row), windows, k), Generic(patch(RowAt(old(store.row), windows, k))))
    ensures r == Answered(RunCancelled) ==>
      exists k :: 0 <= k <= MAX_RESILIENT_WRITE_RETRY
        && store.row == RowAt(old(store.row), windows, k) && store.row.status == Cancelled
    ensures r == Conflict ==> forall k :: 0 <= k <= MAX_RESILIENT_WRITE_RETRY ==> windows(k) != []
    ensures (exists k :: 0 <= k <= MAX_RESILIENT_WRITE_RETRY && windows(k) == []) ==> r.Answered?
  {
    ghost var row0 := store.row;
    r := ReadModifyWrite(store, UpdateDecision(patch), windows, MAX_RESILIENT_WRITE_RETRY);
    ghost var n := Disturbed(row0, UpdateDecision(patch), windows, 0, MAX_RESILIENT_WRITE_RETRY + 1);
    if n > MAX_RESILIENT_WRITE_RETRY {
      forall k | 0 <= k <= MAX_RESILIENT_WRITE_RETRY ensures windows(k) != [] {
        assert !Settles(row0, UpdateDecision(patch), windows, k);
      }
    }
  }

  /** The recorder of the VerifyToken: the very same token on top of everything committed before it, never on a cancelled row. */
  method RecordToken(store: SessionStore, token: VerifyToken, windows: nat -> seq<Write>) returns (r: Result<Written>)
    modifies store
    ensures r == Answered(Committed) ==>
      exists k :: 0 <= k <= MAX_RESILIENT_WRITE_RETRY && (
        var read := RowAt(old(store.row), windows, k);
        read.status != Cancelled && store.row == read.(verifyToken := Some(token), version := read.version + 1))
    ensures r == Answered(RunCancelled) ==>
      exists k :: 0 <= k <= MAX_RESILIENT_WRITE_RETRY
        && store.row == RowAt(old(store.row), windows, k) && store.row.status == Cancelled
    ensures r == Conflict ==> store.row == RowAt(old(store.row), windows, MAX_RESILIENT_WRITE_RETRY + 1)
  {
    r := ReadModifyWrite(store, TokenDecision(token), windows, MAX_RESILIENT_WRITE_RETRY);
  }

  /** `chatAppend`: the turns land after every turn committed before them, or are dropped after two disturbed attempts. */
  method ChatAppend(store: SessionStore, turns: seq<ChatTurn>, windows: nat -> seq<Write>) returns (r: Result<Written>)
    modifies store
    ensures r == Answered(Committed) ==>
      exists k :: 0 <= k <= 1 && (
        var read := RowAt(old(store.row), windows, k);
        store.row == read.(chat := LastN(read.chat + turns, CHAT_TURNS_MAX), version := read.version + 1))
    ensures r != Answered(Committed) ==>
      r == Conflict && windows(0) != [] && windows(1) != [] && store.row == RowAt(old(store.row), windows, 2)
  {
    ghost var row0 := store.row;
    r := ReadModifyWrite(store, ChatDecision(turns), windows, 1);
    if r == Conflict {
      assert !Settles(row0, ChatDecision(turns), windows, 0) && !Settles(row0, ChatDecision(turns), windows, 1);
    }
  }
}
