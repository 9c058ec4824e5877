/** `deepFreeze`: freezes an object graph in place, cycles and sharing included. */
module DeepFreeze {

  datatype JsValue = Primitive | Ref(obj: JsObject)

  class JsObject {
    /** `Object.values`. */
    var values: seq<JsValue>
    var frozen: bool

    constructor (values: seq<JsValue>)
      ensures this.values == values && !frozen
    {
      this.values, frozen := values, false;
    }
  }

  class WeakSet {
    var members: set<JsObject>

    constructor ()
      ensures members == {}
    {
      members := {};
    }
  }

  /** The objects one step away. */
  ghost function Children(o: JsObject): set<JsObject>
    reads o`values
  {
    set v | v in o.values && v.Ref? :: v.obj
  }

  /** A finite graph: no reference leads out of it. */
  ghost predicate Graph(universe: set<JsObject>)
    reads universe`values
  {
    forall o :: o in universe ==> Children(o) <= universe
  }

  /** `x` is at most `n` steps from `o`. */
  ghost predicate Within(universe: set<JsObject>, o: JsObject, x: JsObject, n: nat)
    reads universe`values
    decreases n
  {
    o in universe && (o == x || (n > 0 && exists c :: c in Children(o) && Within(universe, c, x, n - 1)))
  }

  ghost predicate Reachable(universe: set<JsObject>, v: JsValue, x: JsObject)
    reads universe`values
  {
    v.Ref? && exists n: nat :: Within(universe, v.obj, x, n)
  }

  lemma ChildReachable(universe: set<JsObject>, o: JsObject, c: JsObject, x: JsObject)
    requires o in universe && c in Children(o) && Reachable(universe, Ref(c), x)
    ensures Reachable(universe, Ref(o), x)
  {
    var n: nat :| Within(universe, c, x, n);
    assert Within(universe, o, x, n + 1);
  }

  /** A set closed under references that contains the root contains everything reachable. */
  lemma {:induction false} ClosedContainsWithin(universe: set<JsObject>, s: set<JsObject>, o: JsObject, x: JsObject, n: nat)
    requires o in s && Within(universe, o, x, n)
    requires forall y :: y in s && y in universe ==> Children(y) <= s
    ensures x in s
    decreases n
  {
    if o != x {
      var c :| c in Children(o) && Within(universe, c, x, n - 1);
      ClosedContainsWithin(universe, s, c, x, n - 1);
    }
  }

  /** The walk, with the visited set it shares between its calls. */
  method Visit(v: JsValue, seen: WeakSet, ghost universe: set<JsObject>)
    requires Graph(universe) && (v.Ref? ==> v.obj in universe)
    requires seen.members <= universe
    modifies seen, universe`frozen
    ensures old(seen.members) <= seen.members <= universe
    ensures v.Ref? ==> v.obj in seen.members
    ensures forall x :: x in seen.members - old(seen.members) ==> Reachable(universe, v, x) && Children(x) <= seen.members
    ensures forall x :: x in universe ==> (x.frozen <==> old(x.frozen) || x in seen.members - old(seen.members))
    decreases universe - seen.members
  {
    if v.Primitive? || v.obj in seen.members { return; }
    var o := v.obj;
    seen.members := seen.members + {o};
    assert Within(universe, o, o, 0);
    for i := 0 to |o.values|
      invariant old(seen.members) + {o} <= seen.members <= universe
      invariant forall k :: 0 <= k < i && o.values[k].Ref? ==> o.values[k].obj in seen.members
      invariant forall x :: x in seen.members - old(seen.members) ==> Reachable(universe, v, x)
      invariant forall x :: x in seen.members - old(seen.members) && x != o ==> Children(x) <= seen.members
      invariant forall x :: x in universe ==>
        (x.frozen <==> old(x.frozen) || (x in seen.members - old(seen.members) && x != o))
    {
      ghost var before := seen.members;
      var child := o.values[i];
      assert child.Ref? ==> child.obj in Children(o);
      Visit(child, seen, universe);
      forall x | x in seen.members - before ensures Reachable(universe, v, x) {
        ChildReachable(universe, o, child.obj, x);
      }
    }
    o.frozen := true;
  }

  /**
   It ends on every finite graph, and afterwards exactly the objects reachable from the root are frozen, besides those
   that were frozen before.
   */
  method DeepFreeze(v: JsValue, ghost universe: set<JsObject>) returns (r: JsValue)
    requires Graph(universe) && (v.Ref? ==> v.obj in universe)
    modifies universe`frozen
    ensures r == v
    ensures forall x :: x in universe ==> (x.frozen <==> old(x.frozen) || Reachable(universe, v, x))
  {
    var seen := new WeakSet();
    Visit(v, seen, universe);
    forall x | x in universe && Reachable(universe, v, x) ensures x in seen.members {
      var n: nat :| Within(universe, v.obj, x, n);
      ClosedContainsWithin(universe, seen.members, v.obj, x, n);
    }
    r := v;
  }
}
