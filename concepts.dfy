/** `Concepts`: the set/map hybrid keyed by URI that backs every relation
    endpoint. */
module ConceptSet {
  import opened Base
  import opened Entities

  /** The map obtained by upserting `values` one after another into `m`
      (the effect of `update` over a sequence). */
  function AddAll(m: map<URI, Entity>, values: seq<Entity>): (r: map<URI, Entity>)
    ensures r.Keys == m.Keys + set v | v in values :: v.uri
    ensures WellKeyed(m) ==> WellKeyed(r)
    decreases |values|
  {
    if values == [] then m
    else
      var last := values[|values| - 1];
      assert values == values[..|values| - 1] + [last];
      AddAll(m, values[..|values| - 1])[last.uri := last]
  }

  /** Under each URI, `AddAll` stores the last value carrying it, and keys
      that no value carries keep their old entry. */
  lemma {:induction false} AddAllLastWins(m: map<URI, Entity>, values: seq<Entity>)
    ensures forall i :: 0 <= i < |values| && IsLastWithUri(values, i) ==>
              AddAll(m, values)[values[i].uri] == values[i]
    ensures forall k :: k in m && (forall v :: v in values ==> v.uri != k) ==>
              AddAll(m, values)[k] == m[k]
    decreases |values|
  {
    if values != [] {
      var init := values[..|values| - 1];
      var last := values[|values| - 1];
      assert values == init + [last];
      AddAllLastWins(m, init);
      forall i | 0 <= i < |values| && IsLastWithUri(values, i)
        ensures AddAll(m, values)[values[i].uri] == values[i]
      {
        if i < |init| {
          assert IsLastWithUri(init, i);
        }
      }
    }
  }

  /** No later element of `values` has the URI of `values[i]`. */
  predicate IsLastWithUri(values: seq<Entity>, i: nat)
    requires i < |values|
  {
    forall j :: i < j < |values| ==> values[j].uri != values[i].uri
  }

  class Concepts {
    var items: map<URI, Entity>

    ghost predicate Valid()
      reads this
    {
      WellKeyed(items)
    }

    /** `Concepts(values)`: an empty collection updated from `values`. */
    constructor (values: seq<Entity>)
      ensures Valid() && items == AddAll(map[], values)
    {
      items := map[];
      new;
      Update(values);
    }

    /** `x in concepts`: by the entity's URI, or by the bare key. */
    function Contains(x: Probe): bool
      reads this
    {
      KeyOf(x) in items
    }

    /** `len(concepts)` */
    function Len(): nat
      reads this
    {
      |items|
    }

    /** `add`: upsert by URI. The value is then contained and stored, and
        the size grows by one exactly when its URI was new. */
    method Add(v: Entity)
      requires Valid()
      modifies this
      ensures Valid()
      ensures items == old(items)[v.uri := v]
      ensures Contains(ByEntity(v)) && Get(v.uri) == Ok(v)
      ensures old(Contains(ByEntity(v))) ==> Len() == old(Len())
      ensures !old(Contains(ByEntity(v))) ==> Len() == old(Len()) + 1
    {
      items := items[v.uri := v];
    }

    /** `discard`: removes the entry with the entity's URI, if any. The
        value is then not contained, and the size drops by one exactly when
        it was. */
    method Discard(v: Entity)
      requires Valid()
      modifies this
      ensures Valid()
      ensures items == old(items) - {v.uri}
      ensures !Contains(ByEntity(v)) && Get(v.uri) == Err(KeyError)
      ensures Len() == old(Len()) - (if old(Contains(ByEntity(v))) then 1 else 0)
    {
      items := items - {v.uri};
      assert v.uri in old(items) ==> old(items).Keys == items.Keys + {v.uri};
    }

    /** `pop`: removes and returns some entry; on an empty collection
        `dict.popitem` raises KeyError. */
    method Pop() returns (r: Result<Entity>)
      requires Valid()
      modifies this
      ensures Valid()
      ensures old(items) == map[] ==> r == Err(KeyError) && items == old(items)
      ensures old(items) != map[] ==>
                && r.Ok? && r.value.uri in old(items) && old(items)[r.value.uri] == r.value
                && items == old(items) - {r.value.uri}
    {
      if items == map[] {
        return Err(KeyError);
      }
      var k :| k in items;
      r := Ok(items[k]);
      items := items - {k};
    }

    /** `concepts[key]` */
    function Get(key: URI): (r: Result<Entity>)
      reads this
      requires Valid()
      ensures r.Ok? <==> key in items
      ensures r.Ok? ==> r.value == items[key] && r.value.uri == key
      ensures r.Err? ==> r.error == KeyError
    {
      if key in items then Ok(items[key]) else Err(KeyError)
    }

    /** `del concepts[key]`: KeyError when the key is absent. */
    method Delete(key: URI) returns (r: Outcome)
      requires Valid()
      modifies this
      ensures Valid()
      ensures key in old(items) ==> r == Pass && items == old(items) - {key}
      ensures key !in old(items) ==> r == Fail(KeyError) && items == old(items)
      ensures !Contains(ByKey(key))
      ensures r.Pass? ==> Len() == old(Len()) - 1
    {
      if key !in items {
        return Fail(KeyError);
      }
      Discard(items[key]);
      r := Pass;
    }

    /** `update` from a sequence of entities: each one is added in turn. */
    method Update(values: seq<Entity>)
      requires Valid()
      modifies this
      ensures Valid()
      ensures items == AddAll(old(items), values)
    {
      var i := 0;
      while i < |values|
        invariant 0 <= i <= |values|
        invariant Valid()
        invariant items == AddAll(old(items), values[..i])
      {
        assert values[..i + 1][..i] == values[..i];
        Add(values[i]);
        i := i + 1;
      }
      assert values[..i] == values;
    }

    /** `update` from another keyed collection: its values are added, so on
        a shared key the other collection's entry wins. */
    method UpdateFrom(other: Concepts)
      requires Valid() && other.Valid()
      modifies this
      ensures Valid()
      ensures items == old(items) + old(other.items)
    {
      var source := other.items;
      var todo := source.Keys;
      ghost var done: set<URI> := {};
      while todo != {}
        invariant todo <= source.Keys && done == source.Keys - todo
        invariant Valid()
        invariant forall j :: j in items <==> j in old(items) || j in done
        invariant forall j :: j in done ==> items[j] == source[j]
        invariant forall j :: j in items && j !in done ==> items[j] == old(items)[j]
        decreases todo
      {
        var k :| k in todo;
        Add(source[k]);
        todo := todo - {k};
        done := done + {k};
      }
      assert items == old(items) + source;
    }

    /** `concepts == other` for another keyed collection. */
    function Equals(other: Concepts): bool
      reads this, other
    {
      items == other.items
    }

    /** `concepts == d` for a plain dictionary. */
    function EqualsMap(d: map<URI, Entity>): bool
      reads this
    {
      items == d
    }
  }

  /** `x in concepts` agrees with `concepts[key]`: a probe is contained
      exactly when looking up its key succeeds, and an entity is contained
      exactly when its URI is. */
  lemma ContainsAgreesWithGet(c: Concepts, x: Probe)
    requires c.Valid()
    ensures c.Contains(x) <==> c.Get(KeyOf(x)).Ok?
    ensures x.ByEntity? ==> (c.Contains(x) <==> c.Contains(ByKey(x.entity.uri)))
  {
  }

  /** Two collections compare equal exactly when every lookup gives the
      same answer in both; equal collections have the same size. */
  lemma EqualsIsExtensional(c: Concepts, d: Concepts)
    requires c.Valid() && d.Valid()
    ensures c.Equals(d) <==> forall k :: c.Get(k) == d.Get(k)
    ensures c.Equals(d) ==> c.Len() == d.Len() && d.Equals(c)
  {
    if forall k :: c.Get(k) == d.Get(k) {
      assert forall k :: k in c.items <==> c.Get(k).Ok?;
      assert c.items.Keys == d.items.Keys;
      forall k | k in c.items ensures c.items[k] == d.items[k] {
        assert c.Get(k) == d.Get(k);
      }
    }
  }

  /** A collection compares equal to a dictionary exactly when they have
      the same keys and every lookup returns the dictionary's entry. */
  lemma EqualsMapIsExtensional(c: Concepts, d: map<URI, Entity>)
    requires c.Valid()
    ensures c.EqualsMap(d) <==>
              (forall k :: c.Contains(ByKey(k)) <==> k in d) &&
              (forall k :: k in d ==> c.Get(k) == Ok(d[k]))
  {
    if (forall k :: c.Contains(ByKey(k)) <==> k in d) && (forall k :: k in d ==> c.Get(k) == Ok(d[k])) {
      assert c.items.Keys == d.Keys by {
        forall k ensures k in c.items <==> k in d {
          assert c.Contains(ByKey(k)) <==> k in c.items;
        }
      }
    }
  }

  /** Adding two entities with the same URI leaves one entry, the second. */
  method UpsertKeepsLast(x: Entity, y: Entity) returns (size: nat, stored: Result<Entity>)
    requires x.uri == y.uri
    ensures size == 1 && stored == Ok(y)
  {
    var c := new Concepts([]);
    c.Add(x);
    c.Add(y);
    size := c.Len();
    stored := c.Get(x.uri);
  }
}
