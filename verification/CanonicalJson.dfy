/**
 `sortKeys`: the canonical form behind the external-write digest.

 The source sorts an object's keys and assigns them one by one to a fresh object. JavaScript adds two
 twists, both modelled: array-index keys always enumerate first and in numeric order, and assigning
 the key `__proto__` sets the prototype, so that member never reaches the printed text.
 */
module CanonicalJson {
  import opened JsonValue
  import opened JsonPrinter
  import opened JsonReader

  const PROTO: Text := Ascii("__proto__")

  // ----- property order

  /** `Array.prototype.sort` without a comparator: code unit by code unit. */
  predicate LexLess(a: Text, b: Text) {
    |b| > 0 && (|a| == 0 || a[0] < b[0] || (a[0] == b[0] && LexLess(a[1..], b[1..])))
  }

  predicate IsNumeral(k: Text) {
    && |k| > 0
    && (forall i :: 0 <= i < |k| ==> IsDigit(k[i]))
    && (|k| > 1 ==> k[0] != '0' as int)
  }

  function ToNat(k: Text): nat
    requires forall i :: 0 <= i < |k| ==> IsDigit(k[i])
  {
    if |k| == 0 then 0
    else
      assert IsDigit(k[|k| - 1]);
      10 * ToNat(k[..|k| - 1]) + (k[|k| - 1] - '0' as int)
  }

  /** An array index: a canonical decimal below 2^32 - 1. */
  predicate IsArrayIndex(k: Text) {
    IsNumeral(k) && ToNat(k) < 0xFFFF_FFFF
  }

  /** The order in which a JavaScript object filled in sorted key order enumerates its properties. */
  predicate OwnKeyLess(a: Text, b: Text) {
    if IsArrayIndex(a) && IsArrayIndex(b) then ToNat(a) < ToNat(b)
    else if IsArrayIndex(a) || IsArrayIndex(b) then IsArrayIndex(a)
    else LexLess(a, b)
  }

  predicate SortedMembers(ms: seq<Member>) {
    forall i, j :: 0 <= i < j < |ms| ==> OwnKeyLess(ms[i].key, ms[j].key)
  }

  predicate LexSorted(ms: seq<Member>) {
    forall i, j :: 0 <= i < j < |ms| ==> LexLess(ms[i].key, ms[j].key)
  }

  lemma LexIrreflexive(a: Text)
    ensures !LexLess(a, a)
  {
  }

  lemma {:induction false} LexTransitive(a: Text, b: Text, c: Text)
    requires LexLess(a, b) && LexLess(b, c)
    ensures LexLess(a, c)
  {
    if |a| > 0 && a[0] == b[0] == c[0] {
      LexTransitive(a[1..], b[1..], c[1..]);
    }
  }

  lemma {:induction false} LexTotal(a: Text, b: Text)
    ensures LexLess(a, b) || a == b || LexLess(b, a)
  {
    if |a| > 0 && |b| > 0 && a[0] == b[0] {
      LexTotal(a[1..], b[1..]);
      assert a == [a[0]] + a[1..] && b == [b[0]] + b[1..];
    }
  }

  lemma NumeralPositive(k: Text)
    requires forall i :: 0 <= i < |k| ==> IsDigit(k[i])
    requires |k| > 0 && k[0] != '0' as int
    ensures ToNat(k) > 0
  {
    if |k| > 1 {
      NumeralPositive(k[..|k| - 1]);
    }
  }

  lemma {:induction false} NumeralInjective(a: Text, b: Text)
    requires IsNumeral(a) && IsNumeral(b) && ToNat(a) == ToNat(b)
    ensures a == b
  {
    var p, d := SplitNumeral(a);
    var q, e := SplitNumeral(b);
    assert ToNat(p) == ToNat(q) && d == e;
    if |p| > 0 && |q| > 0 {
      NumeralInjective(p, q);
    }
  }

  /** A numeral is its last digit and, if there is more, a shorter positive numeral. */
  lemma SplitNumeral(k: Text) returns (p: Text, d: CodeUnit)
    requires IsNumeral(k)
    ensures k == p + [d] && IsDigit(d) && |p| == |k| - 1
    ensures forall i :: 0 <= i < |p| ==> IsDigit(p[i])
    ensures ToNat(k) == 10 * ToNat(p) + (d - '0' as int)
    ensures |p| > 0 ==> IsNumeral(p) && ToNat(p) > 0
  {
    p, d := k[..|k| - 1], k[|k| - 1];
    if |p| > 0 {
      assert p[0] == k[0];
      NumeralPositive(p);
    }
  }

  lemma OwnKeyTransitive(a: Text, b: Text, c: Text)
    requires OwnKeyLess(a, b) && OwnKeyLess(b, c)
    ensures OwnKeyLess(a, c)
  {
    if !IsArrayIndex(a) && !IsArrayIndex(b) && !IsArrayIndex(c) {
      LexTransitive(a, b, c);
    }
  }

  lemma OwnKeyAsymmetric(a: Text, b: Text)
    requires OwnKeyLess(a, b)
    ensures !OwnKeyLess(b, a) && a != b
  {
    LexIrreflexive(a);
    if LexLess(a, b) && LexLess(b, a) {
      LexTransitive(a, b, a);
    }
  }

  // ----- the source's loop

  function InsertLex(m: Member, ms: seq<Member>): seq<Member> {
    if |ms| == 0 || LexLess(m.key, ms[0].key) then [m] + ms else [ms[0]] + InsertLex(m, ms[1..])
  }

  /** `Object.keys(obj).sort()`, each key with its value. */
  function LexSort(ms: seq<Member>): seq<Member> {
    if |ms| == 0 then [] else InsertLex(ms[0], LexSort(ms[1..]))
  }

  function InsertIndex(m: Member, out: seq<Member>): seq<Member>
    requires IsArrayIndex(m.key)
  {
    if |out| == 0 || !IsArrayIndex(out[0].key) || ToNat(m.key) < ToNat(out[0].key) then [m] + out
    else [out[0]] + InsertIndex(m, out[1..])
  }

  /** `out[k] = v` for a key `out` does not own yet. */
  function Put(out: seq<Member>, m: Member): seq<Member> {
    if m.key == PROTO then out
    else if IsArrayIndex(m.key) then InsertIndex(m, out)
    else out + [m]
  }

  function Fill(out: seq<Member>, ms: seq<Member>): seq<Member>
    decreases |ms|
  {
    if |ms| == 0 then out else Fill(Put(out, ms[0]), ms[1..])
  }

  function SortKeys(v: Value): Value
    decreases v, 0
  {
    match v
    case Array(xs) => Array(SortItems(xs))
    case Object(ms) => Object(Fill([], LexSort(SortValues(ms))))
    case _ => v
  }

  function SortItems(xs: seq<Value>): (r: seq<Value>)
    ensures |r| == |xs| && forall i :: 0 <= i < |xs| ==> r[i] == SortKeys(xs[i])
    decreases xs, 1
  {
    if |xs| == 0 then [] else [SortKeys(xs[0])] + SortItems(xs[1..])
  }

  function SortValues(ms: seq<Member>): (r: seq<Member>)
    ensures |r| == |ms| && forall i :: 0 <= i < |ms| ==> r[i] == Member(ms[i].key, SortKeys(ms[i].value))
    decreases ms, 1
  {
    if |ms| == 0 then [] else [Member(ms[0].key, SortKeys(ms[0].value))] + SortValues(ms[1..])
  }

  lemma ConsLexSorted(m: Member, t: seq<Member>)
    requires LexSorted(t) && forall x :: x in t ==> LexLess(m.key, x.key)
    ensures LexSorted([m] + t)
  {
    var r := [m] + t;
    forall i, j | 0 <= i < j < |r| ensures LexLess(r[i].key, r[j].key) {
      assert r[j] == t[j - 1];
    }
  }

  lemma {:induction false} InsertLexProperties(m: Member, ms: seq<Member>)
    requires LexSorted(ms) && forall i :: 0 <= i < |ms| ==> ms[i].key != m.key
    ensures LexSorted(InsertLex(m, ms))
    ensures forall x :: x in InsertLex(m, ms) <==> x == m || x in ms
  {
    if |ms| == 0 {
    } else if LexLess(m.key, ms[0].key) {
      forall x | x in ms ensures LexLess(m.key, x.key) {
        if x != ms[0] {
          LexTransitive(m.key, ms[0].key, x.key);
        }
      }
      ConsLexSorted(m, ms);
    } else {
      InsertLexProperties(m, ms[1..]);
      LexTotal(m.key, ms[0].key);
      assert ms == [ms[0]] + ms[1..];
      ConsLexSorted(ms[0], InsertLex(m, ms[1..]));
    }
  }

  lemma {:induction false} LexSortProperties(ms: seq<Member>)
    requires DistinctKeys(ms)
    ensures LexSorted(LexSort(ms))
    ensures forall x :: x in LexSort(ms) <==> x in ms
  {
    if |ms| > 0 {
      LexSortProperties(ms[1..]);
      var t := LexSort(ms[1..]);
      forall i | 0 <= i < |t| ensures t[i].key != ms[0].key {
        assert t[i] in t;
      }
      InsertLexProperties(ms[0], t);
      assert ms == [ms[0]] + ms[1..];
    }
  }

  lemma ConsSorted(m: Member, t: seq<Member>)
    requires SortedMembers(t) && forall x :: x in t ==> OwnKeyLess(m.key, x.key)
    ensures SortedMembers([m] + t)
  {
    var r := [m] + t;
    forall i, j | 0 <= i < j < |r| ensures OwnKeyLess(r[i].key, r[j].key) {
      assert r[j] == t[j - 1];
    }
  }

  lemma {:induction false} InsertIndexProperties(m: Member, out: seq<Member>)
    requires IsArrayIndex(m.key) && SortedMembers(out) && m.key !in Keys(out)
    ensures SortedMembers(InsertIndex(m, out))
    ensures forall x :: x in InsertIndex(m, out) <==> x == m || x in out
  {
    if |out| == 0 {
    } else if !IsArrayIndex(out[0].key) || ToNat(m.key) < ToNat(out[0].key) {
      forall x | x in out ensures OwnKeyLess(m.key, x.key) {
        if x != out[0] {
          OwnKeyTransitive(m.key, out[0].key, x.key);
        }
      }
      ConsSorted(m, out);
    } else {
      assert out[0].key in Keys(out);
      if ToNat(m.key) == ToNat(out[0].key) {
        NumeralInjective(m.key, out[0].key);
      }
      assert forall i :: 0 <= i < |out[1..]| ==> out[1..][i] == out[i + 1];
      InsertIndexProperties(m, out[1..]);
      assert out == [out[0]] + out[1..];
      ConsSorted(out[0], InsertIndex(m, out[1..]));
    }
  }

  /** Every key still to come is beyond the ordinary keys already placed. */
  ghost predicate Ahead(out: seq<Member>, ms: seq<Member>) {
    forall i, j :: 0 <= i < |out| && 0 <= j < |ms| ==>
      out[i].key != ms[j].key && (!IsArrayIndex(out[i].key) ==> LexLess(out[i].key, ms[j].key))
  }

  lemma PutProperties(out: seq<Member>, m: Member)
    requires SortedMembers(out) && Ahead(out, [m])
    ensures SortedMembers(Put(out, m))
    ensures forall x :: x in Put(out, m) <==> x in out || (x == m && m.key != PROTO)
  {
    assert forall i :: 0 <= i < |out| ==> out[i].key != [m][0].key && (!IsArrayIndex(out[i].key) ==> LexLess(out[i].key, [m][0].key));
    if m.key != PROTO && IsArrayIndex(m.key) {
      InsertIndexProperties(m, out);
    }
  }

  lemma {:induction false} FillProperties(out: seq<Member>, ms: seq<Member>)
    requires SortedMembers(out) && LexSorted(ms) && Ahead(out, ms)
    ensures SortedMembers(Fill(out, ms))
    ensures forall x :: x in Fill(out, ms) <==> x in out || (x in ms && x.key != PROTO)
    decreases |ms|
  {
    if |ms| > 0 {
      var m, rest := ms[0], ms[1..];
      PutProperties(out, m);
      var next := Put(out, m);
      forall i, j | 0 <= i < |next| && 0 <= j < |rest|
        ensures next[i].key != rest[j].key && (!IsArrayIndex(next[i].key) ==> LexLess(next[i].key, rest[j].key))
      {
        assert next[i] in next && rest[j] == ms[j + 1];
        LexIrreflexive(m.key);
        if next[i] != m {
          var k :| 0 <= k < |out| && out[k] == next[i];
        }
      }
      FillProperties(next, rest);
      assert ms == [m] + rest;
    }
  }

  /** What `sortKeys` makes of an object: the same members, canonically ordered, without `__proto__`. */
  lemma SortedObject(ms: seq<Member>)
    requires DistinctKeys(ms)
    ensures var out := SortKeys(Object(ms)).members;
      && SortedMembers(out)
      && forall x :: x in out <==>
           exists i :: 0 <= i < |ms| && ms[i].key != PROTO && x == Member(ms[i].key, SortKeys(ms[i].value))
  {
    var vs := SortValues(ms);
    LexSortProperties(vs);
    FillProperties([], LexSort(vs));
    var out := SortKeys(Object(ms)).members;
    forall x ensures x in out <==>
           exists i :: 0 <= i < |ms| && ms[i].key != PROTO && x == Member(ms[i].key, SortKeys(ms[i].value))
    {
      if x in out {
        var i :| 0 <= i < |vs| && vs[i] == x;
        assert ms[i].key != PROTO && x == Member(ms[i].key, SortKeys(ms[i].value));
      }
      if i :| 0 <= i < |ms| && ms[i].key != PROTO && x == Member(ms[i].key, SortKeys(ms[i].value)) {
        assert vs[i] == x;
      }
    }
  }

  /** A set of members has only one sorted arrangement. */
  lemma {:induction false} SortedUnique(a: seq<Member>, b: seq<Member>)
    requires SortedMembers(a) && SortedMembers(b)
    requires forall x :: x in a <==> x in b
    ensures a == b
  {
    assert |b| > 0 ==> b[0] in b && b[0] in a;
    if |a| == 0 {
      assert |b| == 0;
    } else {
      assert a[0] in a && a[0] in b;
      assert b[0] in b && b[0] in a;
      if a[0] != b[0] {
        var j :| 0 <= j < |b| && b[j] == a[0];
        var i :| 0 <= i < |a| && a[i] == b[0];
        OwnKeyAsymmetric(a[0].key, a[i].key);
        assert false;
      }
      forall x ensures x in a[1..] <==> x in b[1..] {
        TailMembers(a, x);
        TailMembers(b, x);
      }
      SortedUnique(a[1..], b[1..]);
      assert a == [a[0]] + a[1..] && b == [b[0]] + b[1..];
    }
  }

  lemma TailMembers(a: seq<Member>, x: Member)
    requires |a| > 0 && SortedMembers(a)
    ensures x in a[1..] <==> x in a && x != a[0]
  {
    assert a == [a[0]] + a[1..];
    if x in a[1..] {
      var i :| 0 <= i < |a[1..]| && a[1..][i] == x;
      OwnKeyAsymmetric(a[0].key, a[i + 1].key);
    }
  }

  // ----- canonicity

  /** Equal up to the order of object keys, at every depth; array order counts. */
  predicate Equivalent(a: Value, b: Value)
    decreases a
  {
    match a
    case Array(xs) =>
      b.Array? && |xs| == |b.items| && forall i :: 0 <= i < |xs| ==> Equivalent(xs[i], b.items[i])
    case Object(ms) =>
      && b.Object? && Keys(ms) == Keys(b.members)
      && forall i, j :: 0 <= i < |ms| && 0 <= j < |b.members| && ms[i].key == b.members[j].key ==>
           Equivalent(ms[i].value, b.members[j].value)
    case _ => a == b
  }

  /** No object inside `v` owns a property called `__proto__`. */
  predicate NoProto(v: Value) {
    match v
    case Array(xs) => forall i :: 0 <= i < |xs| ==> NoProto(xs[i])
    case Object(ms) => forall i :: 0 <= i < |ms| ==> ms[i].key != PROTO && NoProto(ms[i].value)
    case _ => true
  }

  /** `v` with every `__proto__` member removed, at every depth. */
  function Strip(v: Value): Value
    decreases v, 0
  {
    match v
    case Array(xs) => Array(StripItems(xs))
    case Object(ms) => Object(StripMembers(ms))
    case _ => v
  }

  function StripItems(xs: seq<Value>): (r: seq<Value>)
    ensures |r| == |xs| && forall i :: 0 <= i < |xs| ==> r[i] == Strip(xs[i])
    decreases xs, 1
  {
    if |xs| == 0 then [] else [Strip(xs[0])] + StripItems(xs[1..])
  }

  function StripMembers(ms: seq<Member>): (r: seq<Member>)
    ensures forall x :: x in r <==> exists i :: 0 <= i < |ms| && ms[i].key != PROTO && x == Member(ms[i].key, Strip(ms[i].value))
    decreases ms, 1
  {
    if |ms| == 0 then []
    else
      var rest := StripMembers(ms[1..]);
      assert forall i :: 1 <= i < |ms| ==> ms[i] == ms[1..][i - 1];
      if ms[0].key == PROTO then rest else [Member(ms[0].key, Strip(ms[0].value))] + rest
  }

  /** The induction step of `SortKeysCanonical` for two objects. */
  ghost predicate ValuesAgree(ms: seq<Member>, ns: seq<Member>) {
    forall i, j :: 0 <= i < |ms| && 0 <= j < |ns| ==>
      (SortKeys(ms[i].value) == SortKeys(ns[j].value) <==> Equivalent(Strip(ms[i].value), Strip(ns[j].value)))
  }

  /** Position of the member of `ms` behind a member of its stripped form. */
  lemma StripOrigin(ms: seq<Member>, p: nat) returns (i: nat)
    requires p < |StripMembers(ms)|
    ensures i < |ms| && ms[i].key != PROTO && StripMembers(ms)[p] == Member(ms[i].key, Strip(ms[i].value))
  {
    var x := StripMembers(ms)[p];
    assert x in StripMembers(ms);
    i :| 0 <= i < |ms| && ms[i].key != PROTO && x == Member(ms[i].key, Strip(ms[i].value));
  }

  lemma StripImage(ms: seq<Member>, i: nat) returns (p: nat)
    requires i < |ms| && ms[i].key != PROTO
    ensures p < |StripMembers(ms)| && StripMembers(ms)[p] == Member(ms[i].key, Strip(ms[i].value))
  {
    var x := Member(ms[i].key, Strip(ms[i].value));
    assert x in StripMembers(ms);
    p :| 0 <= p < |StripMembers(ms)| && StripMembers(ms)[p] == x;
  }

  /** Every member of the one object has its counterpart in the other. */
  ghost predicate Covered(ms: seq<Member>, ns: seq<Member>) {
    forall i :: 0 <= i < |ms| && ms[i].key != PROTO ==>
      exists j :: 0 <= j < |ns| && ns[j].key == ms[i].key && SortKeys(ms[i].value) == SortKeys(ns[j].value)
  }

  lemma SortedSubset(ms: seq<Member>, ns: seq<Member>)
    requires DistinctKeys(ms) && DistinctKeys(ns)
    ensures Covered(ms, ns) <==>
      forall x :: x in SortKeys(Object(ms)).members ==> x in SortKeys(Object(ns)).members
  {
    SortedObject(ms);
    SortedObject(ns);
    var a, b := SortKeys(Object(ms)).members, SortKeys(Object(ns)).members;
    if Covered(ms, ns) {
      forall x | x in a ensures x in b {
        var i :| 0 <= i < |ms| && ms[i].key != PROTO && x == Member(ms[i].key, SortKeys(ms[i].value));
        var j :| 0 <= j < |ns| && ns[j].key == ms[i].key && SortKeys(ms[i].value) == SortKeys(ns[j].value);
        assert x == Member(ns[j].key, SortKeys(ns[j].value));
      }
    }
    if forall x :: x in a ==> x in b {
      forall i | 0 <= i < |ms| && ms[i].key != PROTO
        ensures exists j :: 0 <= j < |ns| && ns[j].key == ms[i].key && SortKeys(ms[i].value) == SortKeys(ns[j].value)
      {
        var x := Member(ms[i].key, SortKeys(ms[i].value));
        assert x in a && x in b;
        var j :| 0 <= j < |ns| && ns[j].key != PROTO && x == Member(ns[j].key, SortKeys(ns[j].value));
      }
    }
  }

  lemma EquivalentCovers(ms: seq<Member>, ns: seq<Member>)
    requires ValuesAgree(ms, ns)
    requires Equivalent(Object(StripMembers(ms)), Object(StripMembers(ns)))
    ensures Covered(ms, ns)
  {
    forall i | 0 <= i < |ms| && ms[i].key != PROTO
      ensures exists j :: 0 <= j < |ns| && ns[j].key == ms[i].key && SortKeys(ms[i].value) == SortKeys(ns[j].value)
    {
      var p := StripImage(ms, i);
      assert StripMembers(ms)[p].key in Keys(StripMembers(ns));
      var q :| 0 <= q < |StripMembers(ns)| && StripMembers(ns)[q].key == ms[i].key;
      var j := StripOrigin(ns, q);
      assert ns[j].key == ms[i].key;
    }
  }

  lemma EquivalentCoversBack(ms: seq<Member>, ns: seq<Member>)
    requires ValuesAgree(ms, ns)
    requires Equivalent(Object(StripMembers(ms)), Object(StripMembers(ns)))
    ensures Covered(ns, ms)
  {
    forall j | 0 <= j < |ns| && ns[j].key != PROTO
      ensures exists i :: 0 <= i < |ms| && ms[i].key == ns[j].key && SortKeys(ns[j].value) == SortKeys(ms[i].value)
    {
      var q := StripImage(ns, j);
      assert StripMembers(ns)[q].key in Keys(StripMembers(ms));
      var p :| 0 <= p < |StripMembers(ms)| && StripMembers(ms)[p].key == ns[j].key;
      var i := StripOrigin(ms, p);
      assert ms[i].key == ns[j].key;
    }
  }

  lemma StrippedKeys(ms: seq<Member>, ns: seq<Member>)
    requires Covered(ms, ns)
    ensures Keys(StripMembers(ms)) <= Keys(StripMembers(ns))
  {
    forall k | k in Keys(StripMembers(ms)) ensures k in Keys(StripMembers(ns)) {
      var p :| 0 <= p < |StripMembers(ms)| && StripMembers(ms)[p].key == k;
      var i := StripOrigin(ms, p);
      var j :| 0 <= j < |ns| && ns[j].key == ms[i].key && SortKeys(ms[i].value) == SortKeys(ns[j].value);
      var q := StripImage(ns, j);
    }
  }

  lemma CoversEquivalent(ms: seq<Member>, ns: seq<Member>)
    requires DistinctKeys(ns) && ValuesAgree(ms, ns) && Covered(ms, ns) && Covered(ns, ms)
    ensures Equivalent(Object(StripMembers(ms)), Object(StripMembers(ns)))
  {
    StrippedKeys(ms, ns);
    StrippedKeys(ns, ms);
    var a, b := StripMembers(ms), StripMembers(ns);
    forall p, q | 0 <= p < |a| && 0 <= q < |b| && a[p].key == b[q].key ensures Equivalent(a[p].value, b[q].value) {
      var i := StripOrigin(ms, p);
      var j := StripOrigin(ns, q);
      var j' :| 0 <= j' < |ns| && ns[j'].key == ms[i].key && SortKeys(ms[i].value) == SortKeys(ns[j'].value);
      assert j == j';
    }
  }

  lemma ObjectsCanonical(ms: seq<Member>, ns: seq<Member>)
    requires DistinctKeys(ms) && DistinctKeys(ns) && ValuesAgree(ms, ns)
    ensures SortKeys(Object(ms)) == SortKeys(Object(ns)) <==> Equivalent(Strip(Object(ms)), Strip(Object(ns)))
  {
    SortedSubset(ms, ns);
    SortedSubset(ns, ms);
    SortedObject(ms);
    SortedObject(ns);
    if Equivalent(Strip(Object(ms)), Strip(Object(ns))) {
      EquivalentCovers(ms, ns);
      EquivalentCoversBack(ms, ns);
      SortedUnique(SortKeys(Object(ms)).members, SortKeys(Object(ns)).members);
    }
    if SortKeys(Object(ms)) == SortKeys(Object(ns)) {
      CoversEquivalent(ms, ns);
    }
  }

  /** `sortKeys` identifies exactly the values that are equal up to key order once `__proto__` is gone. */
  lemma {:induction false} SortKeysCanonical(a: Value, b: Value)
    requires WellFormed(a) && WellFormed(b)
    ensures SortKeys(a) == SortKeys(b) <==> Equivalent(Strip(a), Strip(b))
    decreases a
  {
    match a {
      case Array(xs) =>
        if b.Array? && |xs| == |b.items| {
          forall i | 0 <= i < |xs| ensures SortKeys(xs[i]) == SortKeys(b.items[i]) <==> Equivalent(Strip(xs[i]), Strip(b.items[i])) {
            SortKeysCanonical(xs[i], b.items[i]);
          }
          SortItemsEqual(xs, b.items);
        }
      case Object(ms) =>
        if b.Object? {
          forall i, j | 0 <= i < |ms| && 0 <= j < |b.members|
            ensures SortKeys(ms[i].value) == SortKeys(b.members[j].value) <==> Equivalent(Strip(ms[i].value), Strip(b.members[j].value))
          {
            SortKeysCanonical(ms[i].value, b.members[j].value);
          }
          ObjectsCanonical(ms, b.members);
        }
      case _ =>
    }
  }

  lemma SortItemsEqual(xs: seq<Value>, ys: seq<Value>)
    requires |xs| == |ys|
    ensures SortItems(xs) == SortItems(ys) <==> forall i :: 0 <= i < |xs| ==> SortKeys(xs[i]) == SortKeys(ys[i])
  {
    assert forall i :: 0 <= i < |xs| ==> SortItems(xs)[i] == SortKeys(xs[i]) && SortItems(ys)[i] == SortKeys(ys[i]);
  }

  // ----- the digest's pre-image

  /** The text `digestExternalWrite` feeds to SHA-256. */
  function Preimage(provider: Text, action: Text, target: Value, payload: Value): Text {
    Print(Proposal(provider, action, SortKeys(target), SortKeys(payload)))
  }

  function Proposal(provider: Text, action: Text, target: Value, payload: Value): Value {
    Object([
      Member(Ascii("provider"), String(provider)), Member(Ascii("action"), String(action)),
      Member(Ascii("target"), target), Member(Ascii("payload"), payload)
    ])
  }

  lemma {:induction false} SortKeysWellFormed(v: Value)
    requires WellFormed(v)
    ensures WellFormed(SortKeys(v))
    decreases v
  {
    match v {
      case Array(xs) =>
        forall i | 0 <= i < |xs| ensures WellFormed(SortKeys(xs[i])) {
          SortKeysWellFormed(xs[i]);
        }
      case Object(ms) =>
        SortedObject(ms);
        var out := SortKeys(v).members;
        forall i | 0 <= i < |ms| ensures WellFormed(SortKeys(ms[i].value)) {
          SortKeysWellFormed(ms[i].value);
        }
        forall j | 0 <= j < |out| ensures WellFormed(out[j].value) {
          assert out[j] in out;
        }
        forall i, j | 0 <= i < j < |out| ensures out[i].key != out[j].key {
          OwnKeyAsymmetric(out[i].key, out[j].key);
        }
      case _ =>
    }
  }

  lemma PreimageFields(p: Text, a: Text, t: Value, l: Value)
    requires WellFormed(t) && WellFormed(l)
    ensures WellFormed(Proposal(p, a, t, l))
  {
    assert |Ascii("provider")| == 8 && |Ascii("action")| == 6 && |Ascii("target")| == 6 && |Ascii("payload")| == 7;
    assert Ascii("action")[0] == 'a' as int && Ascii("target")[0] == 't' as int;
  }

  lemma ProposalEqual(p1: Text, a1: Text, t1: Value, l1: Value, p2: Text, a2: Text, t2: Value, l2: Value)
    ensures Proposal(p1, a1, t1, l1) == Proposal(p2, a2, t2, l2) <==> p1 == p2 && a1 == a2 && t1 == t2 && l1 == l2
  {
    var v1, v2 := Proposal(p1, a1, t1, l1), Proposal(p2, a2, t2, l2);
    if v1 == v2 {
      assert v1.members[0] == v2.members[0] && v1.members[1] == v2.members[1];
      assert v1.members[2] == v2.members[2] && v1.members[3] == v2.members[3];
    }
  }

  /**
   The pre-image is a canonical form, on every input: two proposals have the same text exactly when
   provider and action agree and, `__proto__` members aside, target and payload are equal up to key order.
   */
  lemma PreimageCanonical(p1: Text, a1: Text, t1: Value, l1: Value, p2: Text, a2: Text, t2: Value, l2: Value)
    requires WellFormed(t1) && WellFormed(l1) && WellFormed(t2) && WellFormed(l2)
    ensures Preimage(p1, a1, t1, l1) == Preimage(p2, a2, t2, l2) <==>
      p1 == p2 && a1 == a2 && Equivalent(Strip(t1), Strip(t2)) && Equivalent(Strip(l1), Strip(l2))
  {
    SortKeysWellFormed(t1);
    SortKeysWellFormed(l1);
    SortKeysWellFormed(t2);
    SortKeysWellFormed(l2);
    var v1 := Proposal(p1, a1, SortKeys(t1), SortKeys(l1));
    var v2 := Proposal(p2, a2, SortKeys(t2), SortKeys(l2));
    PreimageFields(p1, a1, SortKeys(t1), SortKeys(l1));
    PreimageFields(p2, a2, SortKeys(t2), SortKeys(l2));
    PrintInjective(v1, v2);
    ProposalEqual(p1, a1, SortKeys(t1), SortKeys(l1), p2, a2, SortKeys(t2), SortKeys(l2));
    SortKeysCanonical(t1, t2);
    SortKeysCanonical(l1, l2);
  }

  /** Parsed again, the pre-image is an object of these four members and no other: what is hashed is what is meant. */
  lemma PreimageReads(provider: Text, action: Text, target: Value, payload: Value)
    requires WellFormed(target) && WellFormed(payload)
    ensures var read := ReadValue(Preimage(provider, action, target, payload));
      && read.Some? && read.value.1 == [] && read.value.0.Object? && |read.value.0.members| == 4
      && Member(Ascii("provider"), String(provider)) in read.value.0.members
      && Member(Ascii("action"), String(action)) in read.value.0.members
      && Member(Ascii("target"), SortKeys(target)) in read.value.0.members
      && Member(Ascii("payload"), SortKeys(payload)) in read.value.0.members
  {
    SortKeysWellFormed(target);
    SortKeysWellFormed(payload);
    PreimageFields(provider, action, SortKeys(target), SortKeys(payload));
    RoundTrip(Proposal(provider, action, SortKeys(target), SortKeys(payload)));
    var ms := Proposal(provider, action, SortKeys(target), SortKeys(payload)).members;
    assert ms[0] in ms && ms[1] in ms && ms[2] in ms && ms[3] in ms;
  }

  lemma {:induction false} StripNothing(v: Value)
    requires NoProto(v)
    ensures Strip(v) == v
    decreases v, 0
  {
    match v {
      case Array(xs) =>
        forall i | 0 <= i < |xs| ensures Strip(xs[i]) == xs[i] {
          StripNothing(xs[i]);
        }
        assert StripItems(xs) == xs;
      case Object(ms) => StripNoMembers(ms);
      case _ =>
    }
  }

  lemma {:induction false} StripNoMembers(ms: seq<Member>)
    requires forall i :: 0 <= i < |ms| ==> ms[i].key != PROTO && NoProto(ms[i].value)
    ensures StripMembers(ms) == ms
    decreases ms, 1
  {
    if |ms| > 0 {
      StripNothing(ms[0].value);
      StripNoMembers(ms[1..]);
      assert ms == [ms[0]] + ms[1..];
    }
  }

  /** Without `__proto__` keys the pre-image is canonical for the values themselves. */
  lemma PreimageCanonicalWithoutProto(p1: Text, a1: Text, t1: Value, l1: Value, p2: Text, a2: Text, t2: Value, l2: Value)
    requires WellFormed(t1) && WellFormed(l1) && WellFormed(t2) && WellFormed(l2)
    requires NoProto(t1) && NoProto(l1) && NoProto(t2) && NoProto(l2)
    ensures Preimage(p1, a1, t1, l1) == Preimage(p2, a2, t2, l2) <==>
      p1 == p2 && a1 == a2 && Equivalent(t1, t2) && Equivalent(l1, l2)
  {
    PreimageCanonical(p1, a1, t1, l1, p2, a2, t2, l2);
    StripNothing(t1);
    StripNothing(l1);
    StripNothing(t2);
    StripNothing(l2);
  }

  /** Why `__proto__` members are set aside: these two payloads differ and have the same pre-image. */
  lemma ProtoMemberIsNotDigested(provider: Text, action: Text, target: Value)
    ensures var plain, shadowed := Object([]), Object([Member(PROTO, Bool(true))]);
      && WellFormed(plain) && WellFormed(shadowed) && !Equivalent(plain, shadowed)
      && Preimage(provider, action, target, plain) == Preimage(provider, action, target, shadowed)
  {
    var plain, shadowed := Object([]), Object([Member(PROTO, Bool(true))]);
    assert shadowed.members[0].key == PROTO;
    assert PROTO in Keys(shadowed.members) && PROTO !in Keys(plain.members);
    assert SortValues(shadowed.members) == [Member(PROTO, Bool(true))];
    assert LexSort(SortValues(shadowed.members)) == [Member(PROTO, Bool(true))];
    assert Fill([], [Member(PROTO, Bool(true))]) == [];
  }

  // ----- the recursion with its loops

  lemma {:induction false} InsertCommutes(m: Member, ms: seq<Member>)
    ensures SortValues(InsertLex(m, ms)) == InsertLex(Member(m.key, SortKeys(m.value)), SortValues(ms))
  {
    if |ms| == 0 || LexLess(m.key, ms[0].key) {
      assert ([m] + ms)[1..] == ms;
    } else {
      InsertCommutes(m, ms[1..]);
      assert ([ms[0]] + InsertLex(m, ms[1..]))[1..] == InsertLex(m, ms[1..]);
      assert SortValues(ms)[1..] == SortValues(ms[1..]);
    }
  }

  /** Sorting the keys first or canonicalising the values first makes no difference. */
  lemma {:induction false} SortCommutes(ms: seq<Member>)
    ensures SortValues(LexSort(ms)) == LexSort(SortValues(ms))
    ensures forall x :: x in LexSort(ms) ==> x in ms
  {
    if |ms| > 0 {
      SortCommutes(ms[1..]);
      InsertCommutes(ms[0], LexSort(ms[1..]));
      InsertMembers(ms[0], LexSort(ms[1..]));
      assert SortValues(ms)[1..] == SortValues(ms[1..]);
    }
  }

  lemma {:induction false} InsertMembers(m: Member, ms: seq<Member>)
    ensures forall x :: x in InsertLex(m, ms) ==> x == m || x in ms
  {
    if |ms| > 0 && !LexLess(m.key, ms[0].key) {
      InsertMembers(m, ms[1..]);
    }
  }

  /** `sortKeys` as the source runs it: a recursion that fills a fresh array or object in a loop. */
  method Canonicalize(v: Value) returns (r: Value)
    ensures r == SortKeys(v)
    decreases v, 1
  {
    match v {
      case Array(xs) => r := CanonicalizeArray(xs);
      case Object(ms) => r := CanonicalizeObject(ms);
      case _ => r := v;
    }
  }

  method CanonicalizeArray(xs: seq<Value>) returns (r: Value)
    ensures r == SortKeys(Array(xs))
    decreases Array(xs), 0
  {
    var items := [];
    for i := 0 to |xs|
      invariant items == SortItems(xs)[..i]
    {
      var item := Canonicalize(xs[i]);
      items := items + [item];
    }
    r := Array(items);
  }

  method CanonicalizeObject(ms: seq<Member>) returns (r: Value)
    ensures r == SortKeys(Object(ms))
    decreases Object(ms), 0
  {
    SortCommutes(ms);
    var sorted, out := LexSort(ms), [];
    ghost var values := SortValues(sorted);
    for i := 0 to |sorted|
      invariant Fill(out, values[i..]) == Fill([], values)
    {
      MemberIsSmaller(sorted[i], ms);
      var copy := Canonicalize(sorted[i].value);
      FillStep(out, values, i);
      out := Put(out, Member(sorted[i].key, copy));
    }
    r := Object(out);
  }

  lemma MemberIsSmaller(m: Member, ms: seq<Member>)
    requires m in ms
    ensures Object(ms) decreases to m.value
  {
  }

  lemma FillStep(out: seq<Member>, values: seq<Member>, i: nat)
    requires i < |values|
    ensures Fill(out, values[i..]) == Fill(Put(out, values[i]), values[i + 1..])
  {
    assert values[i..][1..] == values[i + 1..];
  }
}
