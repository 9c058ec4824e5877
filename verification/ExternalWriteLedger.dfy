/** The capped ledger of external writes: the status-aware append and the status-guarded patch. */
module ExternalWriteLedger {
  import opened Wrappers
  import opened Session
  import opened OptimisticWrite
  import opened ExternalWriteGate

  type Ledger = seq<WriteRecord>

  predicate IsTerminal(st: WriteStatus) {
    st == Executed || st == WriteFailed
  }

  predicate InFlight(r: WriteRecord) {
    !IsTerminal(r.status)
  }

  /** `findIndex`: the first record that satisfies the predicate. */
  function FindIndex(ws: Ledger, p: WriteRecord -> bool): (i: Option<nat>)
    ensures i.Some? ==> i.value < |ws| && p(ws[i.value]) && forall j :: 0 <= j < i.value ==> !p(ws[j])
    ensures i.None? ==> forall j :: 0 <= j < |ws| ==> !p(ws[j])
  {
    if |ws| == 0 then None
    else if p(ws[0]) then Some(0)
    else
      match FindIndex(ws[1..], p)
      case Some(i) =>
        assert forall j :: 1 <= j < |ws| ==> ws[j] == ws[1..][j - 1];
        Some(i + 1)
      case None =>
        assert forall j :: 1 <= j < |ws| ==> ws[j] == ws[1..][j - 1];
        None
  }

  function RemoveAt(ws: Ledger, i: nat): Ledger
    requires i < |ws|
  {
    ws[..i] + ws[i + 1..]
  }

  /** The ledger with room for one more: the oldest terminal record goes, or nobody does. */
  function MakeRoom(ws: Ledger): (kept: Option<Ledger>)
  {
    if |ws| < EXTERNAL_WRITES_MAX then Some(ws)
    else
      match FindIndex(ws, (r: WriteRecord) => IsTerminal(r.status))
      case Some(i) => Some(RemoveAt(ws, i))
      case None => None
  }

  /** Room is refused exactly when the ledger is full of writes that are still in flight. */
  lemma RefusedOnlyWhenAllInFlight(ws: Ledger)
    ensures MakeRoom(ws).None? <==> |ws| >= EXTERNAL_WRITES_MAX && forall i :: 0 <= i < |ws| ==> InFlight(ws[i])
    ensures MakeRoom(ws).Some? && |ws| <= EXTERNAL_WRITES_MAX ==> |MakeRoom(ws).value| < EXTERNAL_WRITES_MAX
  {
  }

  predicate IsOldestTerminal(ws: Ledger, i: nat) {
    i < |ws| && IsTerminal(ws[i].status) && forall j :: 0 <= j < i ==> InFlight(ws[j])
  }

  /** Making room keeps the order, and drops at most one record: the oldest terminal one, and only from a full ledger. */
  lemma MakeRoomKeeps(ws: Ledger)
    requires MakeRoom(ws).Some?
    ensures var kept := MakeRoom(ws).value;
      if |ws| < EXTERNAL_WRITES_MAX then kept == ws
      else exists i :: IsOldestTerminal(ws, i) && kept == RemoveAt(ws, i)
    ensures forall r :: r in ws && InFlight(r) ==> r in MakeRoom(ws).value
    ensures forall r :: r in MakeRoom(ws).value ==> r in ws
  {
    if |ws| >= EXTERNAL_WRITES_MAX {
      var i := FindIndex(ws, (r: WriteRecord) => IsTerminal(r.status)).value;
      assert ws == ws[..i] + [ws[i]] + ws[i + 1..];
    }
  }

  function FindWrite(ws: Ledger, id: string): Option<nat> {
    FindIndex(ws, (r: WriteRecord) => r.id == id)
  }

  /** `map(w => w.id === id ? to : w)`. */
  function ReplaceWrite(ws: Ledger, id: string, to: WriteRecord): (r: Ledger)
    ensures |r| == |ws| && forall i :: 0 <= i < |ws| ==> r[i] == if ws[i].id == id then to else ws[i]
  {
    seq(|ws|, i requires 0 <= i < |ws| => if ws[i].id == id then to else ws[i])
  }

  // ----- the two writers

  datatype AppendAnswer = Recorded(id: string) | TooManyPending

  /** `appendExternalWrite`, one attempt: dedupe first, then capacity. */
  function AppendDecision(record: WriteRecord, dedupe: Ledger -> Option<WriteRecord>): Row -> Decision<AppendAnswer> {
    (cur: Row) =>
      match dedupe(cur.externalWrites)
      case Some(dup) => Stop(Recorded(dup.id))
      case None =>
        match MakeRoom(cur.externalWrites)
        case None => Stop(TooManyPending)
        case Some(kept) => Put(Generic(NO_PATCH.(externalWrites := Some(kept + [record]))), Recorded(record.id))
  }

  /** `patchExternalWrite`, one attempt: only from the expected status. */
  function PatchDecision(id: string, from: WriteStatus, to: WriteRecord): Row -> Decision<bool> {
    (cur: Row) =>
      match FindWrite(cur.externalWrites, id)
      case Some(i) =>
        if cur.externalWrites[i].status != from then Stop(false)
        else Put(Generic(NO_PATCH.(externalWrites := Some(ReplaceWrite(cur.externalWrites, id, to)))), true)
      case None => Stop(false)
  }

  /** The recorder's idempotency check: a proposal with the same content that is still open. */
  function GithubDedupe(d: DigestFn, record: WriteRecord): Ledger -> Option<WriteRecord> {
    (ws: Ledger) =>
      match FindIndex(ws, (w: WriteRecord) => w.status == Proposed && Digest(d, w.(provider := GITHUB)) == Digest(d, record))
      case Some(i) => Some(ws[i])
      case None => None
  }

  function NoDedupe(): Ledger -> Option<WriteRecord> {
    (ws: Ledger) => None
  }

  const MAX_RETRY := 5

  /** `appendExternalWrite` under interference. A recorded new write is the last of a ledger within its cap. */
  method AppendExternalWrite(store: SessionStore, record: WriteRecord, dedupe: Ledger -> Option<WriteRecord>, windows: nat -> seq<Write>)
    returns (r: Result<AppendAnswer>)
    modifies store
    ensures r == Answered(TooManyPending) ==>
      |store.row.externalWrites| >= EXTERNAL_WRITES_MAX && forall w :: w in store.row.externalWrites ==> InFlight(w)
    ensures r.Answered? && r.answer.Recorded? ==>
      exists k :: 0 <= k <= MAX_RETRY && (
        var read := RowAt(old(store.row), windows, k).externalWrites;
        || (dedupe(read).Some? && r.answer.id == dedupe(read).value.id && store.row.externalWrites == read)
        || (dedupe(read).None? && r.answer.id == record.id && MakeRoom(read).Some?
            && store.row.externalWrites == MakeRoom(read).value + [record]))
    ensures r == Conflict ==> forall k :: 0 <= k <= MAX_RETRY ==> windows(k) != []
  {
    ghost var row0 := store.row;
    r := ReadModifyWrite(store, AppendDecision(record, dedupe), windows, MAX_RETRY);
    ghost var n := Disturbed(row0, AppendDecision(record, dedupe), windows, 0, MAX_RETRY + 1);
    if n > MAX_RETRY {
      forall k | 0 <= k <= MAX_RETRY ensures windows(k) != [] {
        assert !Settles(row0, AppendDecision(record, dedupe), windows, k);
      }
    } else {
      RefusedOnlyWhenAllInFlight(RowAt(row0, windows, n).externalWrites);
    }
  }

  /** `patchExternalWrite` under interference: it reports true exactly when the record went from `from` to `to`. */
  method PatchExternalWrite(store: SessionStore, id: string, from: WriteStatus, to: WriteRecord, windows: nat -> seq<Write>)
    returns (r: Result<bool>)
    modifies store
    ensures r == Answered(true) ==>
      exists k :: 0 <= k <= MAX_RETRY && (
        var read := RowAt(old(store.row), windows, k).externalWrites;
        && FindWrite(read, id).Some? && read[FindWrite(read, id).value].status == from
        && store.row.externalWrites == ReplaceWrite(read, id, to))
    ensures r == Answered(false) ==>
      var ws := store.row.externalWrites;
      FindWrite(ws, id).Some? ==> ws[FindWrite(ws, id).value].status != from
    ensures r == Conflict ==> forall k :: 0 <= k <= MAX_RETRY ==> windows(k) != []
  {
    ghost var row0 := store.row;
    r := ReadModifyWrite(store, PatchDecision(id, from, to), windows, MAX_RETRY);
    ghost var n := Disturbed(row0, PatchDecision(id, from, to), windows, 0, MAX_RETRY + 1);
    if n > MAX_RETRY {
      forall k | 0 <= k <= MAX_RETRY ensures windows(k) != [] {
        assert !Settles(row0, PatchDecision(id, from, to), windows, k);
      }
    }
  }
}
