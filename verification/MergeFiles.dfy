/** `mergeFiles`: overlay emitted files on a base application, and the edit-mode loop built on it. */
module MergeFiles {
  import opened Wrappers
  import opened Session

  /** A file list read as a map: the last entry for a path wins, as in `new Map(...)` and on disk. */
  function Lookup(fs: Files, path: string): Option<string> {
    if |fs| == 0 then None
    else if fs[|fs| - 1].filePath == path then Some(fs[|fs| - 1].content)
    else Lookup(fs[..|fs| - 1], path)
  }

  predicate HasPath(fs: Files, path: string) {
    exists i :: 0 <= i < |fs| && fs[i].filePath == path
  }

  function Override(fs: Files, f: RepoFile): RepoFile {
    match Lookup(fs, f.filePath)
    case Some(c) => RepoFile(f.filePath, c)
    case None => f
  }

  function OverrideAll(base: Files, emitted: Files): (r: Files)
    ensures |r| == |base| && forall i :: 0 <= i < |base| ==> r[i] == Override(emitted, base[i])
  {
    seq(|base|, i requires 0 <= i < |base| => Override(emitted, base[i]))
  }

  /** The emitted files whose path the base does not have, in emitted order. */
  function NewFiles(base: Files, emitted: Files): Files {
    if |emitted| == 0 then []
    else
      var rest := NewFiles(base, emitted[..|emitted| - 1]);
      if HasPath(base, emitted[|emitted| - 1].filePath) then rest else rest + [emitted[|emitted| - 1]]
  }

  /** The value `mergeFiles` returns; an absent base is the empty list. */
  function Merge(base: Files, emitted: Files): Files {
    if |base| == 0 then emitted else OverrideAll(base, emitted) + NewFiles(base, emitted)
  }

  method MergeFiles(base: Option<Files>, emitted: Files) returns (merged: Files)
    ensures merged == Merge(base.GetOr([]), emitted)
  {
    if base.None? || |base.value| == 0 {
      return emitted;
    }
    merged := OverrideAll(base.value, emitted);
    for i := 0 to |emitted|
      invariant merged == OverrideAll(base.value, emitted) + NewFiles(base.value, emitted[..i])
    {
      assert emitted[..i + 1][..i] == emitted[..i];
      if !HasPath(base.value, emitted[i].filePath) {
        merged := merged + [emitted[i]];
      }
    }
    assert emitted[..|emitted|] == emitted;
  }

  // ----- the map view

  lemma {:induction false} LookupHasPath(fs: Files, path: string)
    ensures Lookup(fs, path).Some? <==> HasPath(fs, path)
  {
    if |fs| > 0 {
      LookupHasPath(fs[..|fs| - 1], path);
      assert HasPath(fs, path) <==> fs[|fs| - 1].filePath == path || HasPath(fs[..|fs| - 1], path) by {
        if HasPath(fs, path) {
          var i :| 0 <= i < |fs| && fs[i].filePath == path;
          assert i < |fs| - 1 ==> fs[..|fs| - 1][i].filePath == path;
        }
        if HasPath(fs[..|fs| - 1], path) {
          var i :| 0 <= i < |fs| - 1 && fs[..|fs| - 1][i].filePath == path;
          assert fs[i].filePath == path;
        }
      }
    }
  }

  lemma {:induction false} LookupConcat(a: Files, b: Files, path: string)
    ensures Lookup(a + b, path) == Lookup(b, path).OrElse(Lookup(a, path))
  {
    if |b| == 0 {
      assert a + b == a;
    } else {
      assert (a + b)[..|a + b| - 1] == a + b[..|b| - 1];
      LookupConcat(a, b[..|b| - 1], path);
    }
  }

  lemma {:induction false} LookupOverrideAll(base: Files, emitted: Files, path: string)
    ensures Lookup(OverrideAll(base, emitted), path)
         == if HasPath(base, path) then Lookup(emitted, path).OrElse(Lookup(base, path)) else None
  {
    LookupHasPath(base, path);
    if |base| > 0 {
      var init := base[..|base| - 1];
      LookupOverrideAll(init, emitted, path);
      LookupHasPath(init, path);
      assert OverrideAll(base, emitted)[..|base| - 1] == OverrideAll(init, emitted);
    }
  }

  lemma {:induction false} LookupNewFiles(base: Files, emitted: Files, path: string)
    ensures Lookup(NewFiles(base, emitted), path) == if HasPath(base, path) then None else Lookup(emitted, path)
  {
    if |emitted| > 0 {
      var init := emitted[..|emitted| - 1];
      LookupNewFiles(base, init, path);
      if !HasPath(base, emitted[|emitted| - 1].filePath) {
        LookupConcat(NewFiles(base, init), [emitted[|emitted| - 1]], path);
      }
    }
  }

  /** `mergeFiles` is map override under last-wins lookup, for all inputs, duplicate paths included. */
  lemma MergeIsOverride(base: Files, emitted: Files, path: string)
    ensures Lookup(Merge(base, emitted), path) == Lookup(emitted, path).OrElse(Lookup(base, path))
  {
    if |base| > 0 {
      LookupConcat(OverrideAll(base, emitted), NewFiles(base, emitted), path);
      LookupOverrideAll(base, emitted, path);
      LookupNewFiles(base, emitted, path);
      LookupHasPath(base, path);
    }
  }

  lemma MergeAssociative(a: Files, b: Files, c: Files, path: string)
    ensures Lookup(Merge(Merge(a, b), c), path) == Lookup(Merge(a, Merge(b, c)), path)
  {
    MergeIsOverride(Merge(a, b), c, path);
    MergeIsOverride(a, b, path);
    MergeIsOverride(a, Merge(b, c), path);
    MergeIsOverride(b, c, path);
  }

  /** Merging the same emission again changes no lookup. */
  lemma MergeIdempotent(base: Files, emitted: Files, path: string)
    ensures Lookup(Merge(Merge(base, emitted), emitted), path) == Lookup(Merge(base, emitted), path)
  {
    MergeIsOverride(Merge(base, emitted), emitted, path);
    MergeIsOverride(base, emitted, path);
  }

  /** Edits stay in place: position by position the base paths come first, in base order. */
  lemma MergeKeepsOrder(base: Files, emitted: Files, i: nat)
    requires i < |base|
    ensures i < |Merge(base, emitted)| && Merge(base, emitted)[i].filePath == base[i].filePath
    ensures !HasPath(emitted, base[i].filePath) ==> Merge(base, emitted)[i] == base[i]
  {
    LookupHasPath(emitted, base[i].filePath);
  }

  /** `at` are the positions, in order, of exactly the emitted files that the base does not have. */
  ghost predicate NewAt(base: Files, emitted: Files, at: seq<nat>) {
    && (forall i :: 0 <= i < |at| ==> at[i] < |emitted| && !HasPath(base, emitted[at[i]].filePath))
    && (forall i, j :: 0 <= i < j < |at| ==> at[i] < at[j])
    && forall k :: 0 <= k < |emitted| && !HasPath(base, emitted[k].filePath) ==> k in at
  }

  /** The files at these positions. */
  ghost predicate Picks(emitted: Files, at: seq<nat>, fs: Files) {
    |at| == |fs| && forall i :: 0 <= i < |at| ==> at[i] < |emitted| && fs[i] == emitted[at[i]]
  }

  lemma {:induction false} NewFilesAt(base: Files, emitted: Files) returns (at: seq<nat>)
    ensures NewAt(base, emitted, at) && Picks(emitted, at, NewFiles(base, emitted))
  {
    if |emitted| == 0 {
      at := [];
    } else {
      var init, last := emitted[..|emitted| - 1], emitted[|emitted| - 1];
      var before := NewFilesAt(base, init);
      assert emitted == init + [last];
      at := OneMoreAt(base, init, last, before);
    }
  }

  lemma OneMoreAt(base: Files, init: Files, last: RepoFile, before: seq<nat>) returns (at: seq<nat>)
    requires NewAt(base, init, before) && Picks(init, before, NewFiles(base, init))
    ensures NewAt(base, init + [last], at) && Picks(init + [last], at, NewFiles(base, init + [last]))
  {
    PicksSnoc(init, last, before, NewFiles(base, init));
    NewFilesSnoc(base, init, last);
    if HasPath(base, last.filePath) {
      at := before;
      NewAtSame(base, init, last, before);
    } else {
      at := before + [|init|];
      NewAtOneMore(base, init, last, before);
    }
  }

  lemma NewFilesSnoc(base: Files, init: Files, last: RepoFile)
    ensures NewFiles(base, init + [last]) ==
            if HasPath(base, last.filePath) then NewFiles(base, init) else NewFiles(base, init) + [last]
  {
    assert (init + [last])[..|init|] == init;
  }

  lemma PicksSnoc(init: Files, last: RepoFile, at: seq<nat>, fs: Files)
    requires Picks(init, at, fs)
    ensures Picks(init + [last], at, fs) && Picks(init + [last], at + [|init|], fs + [last])
  {
  }

  lemma NewAtSame(base: Files, init: Files, last: RepoFile, at: seq<nat>)
    requires NewAt(base, init, at) && HasPath(base, last.filePath)
    ensures NewAt(base, init + [last], at)
  {
  }

  lemma NewAtOneMore(base: Files, init: Files, last: RepoFile, at: seq<nat>)
    requires NewAt(base, init, at) && !HasPath(base, last.filePath)
    ensures NewAt(base, init + [last], at + [|init|])
  {
    var at', all := at + [|init|], init + [last];
    assert at'[|at|] == |init|;
    forall k | 0 <= k < |init| && !HasPath(base, all[k].filePath) ensures k in at' {
      assert k in at;
    }
  }

  /** Behind the base come exactly the emitted files with new paths, in the order they were emitted. */
  lemma MergeAppendsNewFiles(base: Files, emitted: Files) returns (at: seq<nat>)
    requires |base| > 0
    ensures NewAt(base, emitted, at) && |Merge(base, emitted)| >= |base|
    ensures Picks(emitted, at, Merge(base, emitted)[|base|..])
  {
    at := NewFilesAt(base, emitted);
    assert Merge(base, emitted)[|base|..] == NewFiles(base, emitted);
  }

  // ----- the edit-mode iterate loop

  /** The critic's verdict on one candidate. */
  datatype Verdict = Approve | Critical | Reject

  datatype LoopResult = LoopResult(files: Files, approved: bool, protoCalls: nat)

  /** What Proto edits on call n: in edit mode the last rejected candidate, otherwise always nothing. */
  function BaseAfter(base: Files, emitted: nat -> Files, n: nat): Files {
    if n == 0 || |base| == 0 then base else Merge(BaseAfter(base, emitted, n - 1), emitted(n - 1))
  }

  lemma NextBase(base: Files, emitted: nat -> Files, n: nat)
    ensures BaseAfter(base, emitted, n + 1) == if |base| == 0 then base else Merge(BaseAfter(base, emitted, n), emitted(n))
  {
  }

  /** The content the path got in the last of the first n rounds that emitted it. */
  function LatestEmission(emitted: nat -> Files, n: nat, path: string): Option<string> {
    if n == 0 then None else Lookup(emitted(n - 1), path).OrElse(LatestEmission(emitted, n - 1, path))
  }

  /**
   Over any number of edit rounds the application is the base overridden by what was emitted, round by
   round: no base path disappears, and a base file that no round emitted keeps its content.
   */
  lemma {:induction false} EditedBase(base: Files, emitted: nat -> Files, n: nat, path: string)
    requires |base| > 0
    ensures Lookup(BaseAfter(base, emitted, n), path) == LatestEmission(emitted, n, path).OrElse(Lookup(base, path))
    ensures HasPath(base, path) ==> HasPath(BaseAfter(base, emitted, n), path)
  {
    if n > 0 {
      EditedBase(base, emitted, n - 1, path);
      MergeIsOverride(BaseAfter(base, emitted, n - 1), emitted(n - 1), path);
    }
    LookupHasPath(base, path);
    LookupHasPath(BaseAfter(base, emitted, n), path);
  }

  /**
   The produce loop of `runPipeline`: `emitted(k)` is what Proto returns on its k-th call and `verdict(k)` how
   that candidate is judged. With a base, the next attempt edits the rejected candidate.
   */
  method ProduceLoop(base: Files, emitted: nat -> Files, verdict: nat -> Verdict, budget: nat, requireResolution: bool)
    returns (r: LoopResult)
    ensures 1 <= r.protoCalls <= budget + 1
    ensures requireResolution ==> r.protoCalls == 1
    ensures forall k :: 0 <= k < r.protoCalls - 1 ==> verdict(k) == Reject
    ensures r.approved <==> verdict(r.protoCalls - 1) == Approve
    ensures !r.approved ==> requireResolution || verdict(r.protoCalls - 1) == Critical || r.protoCalls == budget + 1
    ensures |base| == 0 ==> r.files == emitted(r.protoCalls - 1)
    ensures |base| > 0 ==> r.files == BaseAfter(base, emitted, r.protoCalls)
  {
    var attempt := 0;
    var baseFiles := base;
    while true
      invariant 0 <= attempt <= budget
      invariant requireResolution ==> attempt == 0
      invariant forall k :: 0 <= k < attempt ==> verdict(k) == Reject
      invariant baseFiles == BaseAfter(base, emitted, attempt)
      invariant |base| > 0 ==> |baseFiles| > 0
      decreases budget - attempt
    {
      var candidate := MergeFiles(Some(baseFiles), emitted(attempt));
      if verdict(attempt) == Approve {
        return LoopResult(candidate, true, attempt + 1);
      }
      if verdict(attempt) == Critical || requireResolution || attempt >= budget {
        return LoopResult(candidate, false, attempt + 1);
      }
      NextBase(base, emitted, attempt);
      if |baseFiles| > 0 {
        baseFiles := candidate;
      }
      attempt := attempt + 1;
    }
  }

  /** The README merged in before verification overrides at most its own path. */
  lemma ReadmeMerge(files: Files, docs: RepoFile, path: string)
    ensures HasPath(files, path) ==> HasPath(Merge(files, [docs]), path)
    ensures path != docs.filePath ==> Lookup(Merge(files, [docs]), path) == Lookup(files, path)
    ensures Lookup(Merge(files, [docs]), docs.filePath) == Some(docs.content)
  {
    MergeIsOverride(files, [docs], path);
    MergeIsOverride(files, [docs], docs.filePath);
    LookupHasPath(files, path);
    LookupHasPath(Merge(files, [docs]), path);
  }
}
