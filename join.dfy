/** `AttributeJoin`, the class built by `_create_attribute_mapping`: one
    set/map view over the two stores (`_left`, `_right`) that hold a
    self-referential relation such as `synonyms` or `related`. The stores
    are plain `Concepts` here. */
module Join {
  import opened Base
  import opened Entities
  import opened ConceptSet

  /** Size of the union of two key sets, by inclusion and exclusion. */
  lemma {:induction false} UnionSize(a: set<URI>, b: set<URI>)
    ensures |a + b| == |a| + |b| - |a * b|
    decreases |a|
  {
    if a != {} {
      var x :| x in a;
      var a' := a - {x};
      UnionSize(a', b);
      if x in b {
        assert a + b == a' + b;
        assert a * b == (a' * b) + {x};
      } else {
        assert a + b == (a' + b) + {x};
        assert a * b == a' * b;
      }
    }
  }

  class AttributeJoin {
    const left: Concepts
    const right: Concepts

    ghost predicate Valid()
      reads this, left, right
    {
      left != right && left.Valid() && right.Valid()
    }

    /** `__init__(concept)`: the view shares the concept's two stores. */
    constructor (leftStore: Concepts, rightStore: Concepts)
      requires leftStore != rightStore && leftStore.Valid() && rightStore.Valid()
      ensures left == leftStore && right == rightStore && Valid()
    {
      left := leftStore;
      right := rightStore;
    }

    /** `__iter__`: first folds the right store into the left one (on a
        shared key the right entry wins), then enumerates the left keys.
        The keys enumerated are exactly the contained ones, as many as
        `len` counts, and membership is unchanged by the fold. */
    method Iterate() returns (keys: set<URI>)
      requires Valid()
      modifies left
      ensures Valid()
      ensures left.items == old(left.items) + right.items
      ensures keys == left.items.Keys
      ensures keys == old(left.items).Keys + right.items.Keys
      ensures forall k :: k in keys <==> old(Contains(ByKey(k)))
      ensures forall x :: Contains(x) <==> old(Contains(x))
      ensures |keys| == old(Len())
    {
      left.UpdateFrom(right);
      keys := left.items.Keys;
    }

    /** `x in join`: present in either store. */
    function Contains(x: Probe): bool
      reads this, left, right
    {
      left.Contains(x) || right.Contains(x)
    }

    /** `len(join)`: the number of distinct keys over both stores. */
    function Len(): (n: nat)
      reads this, left, right
      ensures n == |left.items.Keys + right.items.Keys|
      ensures n == |left.items.Keys| + |right.items.Keys| - |left.items.Keys * right.items.Keys|
    {
      UnionSize(left.items.Keys, right.items.Keys);
      |left.items.Keys + right.items.Keys|
    }

    /** `add`: into the left store only. */
    method Add(v: Entity)
      requires Valid()
      modifies left
      ensures Valid()
      ensures left.items == old(left.items)[v.uri := v]
      ensures Contains(ByEntity(v)) && Get(v.uri) == Ok(v)
    {
      left.Add(v);
    }

    /** `discard`: from both stores. */
    method Discard(v: Entity)
      requires Valid()
      modifies left, right
      ensures Valid()
      ensures left.items == old(left.items) - {v.uri}
      ensures right.items == old(right.items) - {v.uri}
      ensures !Contains(ByEntity(v))
    {
      left.Discard(v);
      right.Discard(v);
    }

    /** `pop` reads `self._concepts`, which `__init__` never sets, so it
        always raises AttributeError before touching either store. */
    method Pop() returns (r: Result<Entity>)
      requires Valid()
      ensures r == Err(AttributeError)
    {
      r := Err(AttributeError);
    }

    /** The `pop` the code evidently means: take an entry from the left
        store, or from the right one when the left is empty (KeyError when
        both are), and remove its key from the other store too. */
    method PopIntended() returns (r: Result<Entity>)
      requires Valid()
      modifies left, right
      ensures Valid()
      ensures r.Ok? <==> old(left.items) != map[] || old(right.items) != map[]
      ensures r.Err? ==> r == Err(KeyError) && left.items == old(left.items) && right.items == old(right.items)
      ensures r.Ok? && old(left.items) != map[] ==>
                r.value.uri in old(left.items) && old(left.items)[r.value.uri] == r.value
      ensures r.Ok? && old(left.items) == map[] ==>
                r.value.uri in old(right.items) && old(right.items)[r.value.uri] == r.value
      ensures r.Ok? ==> left.items == old(left.items) - {r.value.uri} && right.items == old(right.items) - {r.value.uri}
    {
      var fromLeft := left.Pop();
      if fromLeft.Err? {
        r := right.Pop();
        if r.Ok? {
          left.Discard(r.value);
        }
      } else {
        r := fromLeft;
        right.Discard(r.value);
      }
    }

    /** `join[key]`: the left entry if there is one, else the right one. */
    function Get(key: URI): (r: Result<Entity>)
      reads this, left, right
      requires Valid()
      ensures key in left.items ==> r == Ok(left.items[key])
      ensures key !in left.items && key in right.items ==> r == Ok(right.items[key])
      ensures r.Err? <==> !Contains(ByKey(key))
      ensures r.Err? ==> r.error == KeyError
      ensures r.Ok? ==> r.value.uri == key
    {
      match left.Get(key)
      case Ok(v) => Ok(v)
      case Err(_) => right.Get(key)
    }

    /** `del join[key]`: removes the key from whichever stores hold it and
        raises KeyError only when neither does. */
    method Delete(key: URI) returns (r: Outcome)
      requires Valid()
      modifies left, right
      ensures Valid()
      ensures left.items == old(left.items) - {key}
      ensures right.items == old(right.items) - {key}
      ensures r.Fail? <==> key !in old(left.items) && key !in old(right.items)
      ensures r.Fail? ==> r.error == KeyError
      ensures !Contains(ByKey(key)) && Get(key) == Err(KeyError)
    {
      var deleted := false;
      var fromLeft := left.Delete(key);
      assert left.items == old(left.items) - {key};
      if fromLeft.Pass? {
        deleted := true;
      }
      assert deleted <==> key in old(left.items);
      var fromRight := right.Delete(key);
      assert right.items == old(right.items) - {key};
      if fromRight.Fail? && !deleted {
        return fromRight;
      }
      r := Pass;
    }

    /** `join == other`: store against store, not the unions. */
    function Equals(other: AttributeJoin): bool
      reads this, left, right, other, other.left, other.right
    {
      right.Equals(other.right) && left.Equals(other.left)
    }

    /** The `synonyms` / `related` setters of `Concept`: the left store
        becomes exactly `values`, the right store becomes empty. */
    method Assign(values: seq<Entity>)
      requires Valid()
      modifies left, right
      ensures Valid()
      ensures left.items == AddAll(map[], values)
      ensures right.items == map[]
      ensures forall v :: v in values ==> Contains(ByEntity(v))
      ensures Len() == |set v | v in values :: v.uri|
    {
      left.items := map[];
      left.Update(values);
      right.items := map[];
    }
  }

  /** Views that compare equal agree on every lookup, on membership and
      on size. (The converse fails: see `EqualityIsPerStore`.) */
  lemma EqualViewsAgree(j: AttributeJoin, o: AttributeJoin)
    requires j.Valid() && o.Valid() && j.Equals(o)
    ensures forall k :: j.Get(k) == o.Get(k)
    ensures forall x :: j.Contains(x) <==> o.Contains(x)
    ensures j.Len() == o.Len()
  {
    EqualsIsExtensional(j.left, o.left);
    EqualsIsExtensional(j.right, o.right);
  }

  /** Two views with the same union of keys, and even the same entries,
      can still compare unequal: equality distinguishes the stores. */
  method EqualityIsPerStore(c: Entity) returns (sameUnion: bool, equal: bool)
    ensures sameUnion && !equal
  {
    var l1 := new Concepts([c]);
    assert c in [c];
    assert c.uri in l1.items;
    var r1 := new Concepts([]);
    var l2 := new Concepts([]);
    assert c.uri !in l2.items;
    var r2 := new Concepts([c]);
    var j1 := new AttributeJoin(l1, r1);
    var j2 := new AttributeJoin(l2, r2);
    sameUnion := forall k | k in {c.uri} :: j1.Contains(ByKey(k)) == j2.Contains(ByKey(k));
    equal := j1.Equals(j2);
  }

  /** On a view holding one entry, `pop` as written fails with
      AttributeError, while the intended `pop` returns that entry and
      leaves the view empty. */
  method PopDiscrepancy(c: Entity) returns (asWritten: Result<Entity>, intended: Result<Entity>, left: nat)
    ensures asWritten == Err(AttributeError)
    ensures intended == Ok(c) && left == 0
  {
    var l := new Concepts([c]);
    assert c in [c];
    assert l.items == map[c.uri := c];
    var r := new Concepts([]);
    var j := new AttributeJoin(l, r);
    asWritten := j.Pop();
    intended := j.PopIntended();
    left := j.Len();
  }
}
