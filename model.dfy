/** The object model: every live entity, keyed by URI, and the relation
    collections between them (`broader`, `narrower`, the two physical
    stores of `related` and `synonyms`, scheme `concepts`, collection
    `members`, and their back-references).

    Each relationship in the source is declared with a back-reference, so
    the relationship layer updates the inverse collection whenever one side
    changes. The model makes that pairing explicit: an edge is always
    added or removed together with its flipped inverse (`Link`, `Unlink`).
    This pairing is what the relationship layer does; it is an assumption
    about that library, not code of the modelled file. */
module ObjectModel {
  import opened Base
  import opened Entities

  datatype Relation =
    | Broader | Narrower
    | RelatedLeft | RelatedRight
    | SynonymsLeft | SynonymsRight
    | Members | Collections
    | SchemeConcepts | Schemes

  /** The back-reference declared with each relationship. */
  function Inverse(r: Relation): (inv: Relation)
    ensures inv != r
  {
    match r
    case Broader => Narrower
    case Narrower => Broader
    case RelatedLeft => RelatedRight
    case RelatedRight => RelatedLeft
    case SynonymsLeft => SynonymsRight
    case SynonymsRight => SynonymsLeft
    case Members => Collections
    case Collections => Members
    case SchemeConcepts => Schemes
    case Schemes => SchemeConcepts
  }

  /** Each relationship is the back-reference of its back-reference. */
  lemma InverseIsInvolution()
    ensures forall r :: Inverse(Inverse(r)) == r
  {
  }

  /** The left store of the two views built by `_create_attribute_mapping`. */
  predicate IsJoinLeft(r: Relation) {
    r == RelatedLeft || r == SynonymsLeft
  }

  /** `target` is in the `rel` collection of `source`. */
  datatype Edge = Edge(rel: Relation, source: URI, target: URI)

  function Flip(e: Edge): Edge {
    Edge(Inverse(e.rel), e.target, e.source)
  }

  datatype Store = Store(entities: map<URI, Entity>, edges: set<Edge>)

  /** Every collection entry is mirrored by its back-reference. */
  ghost predicate Consistent(st: Store) {
    forall e {:trigger Flip(e)} :: e in st.edges ==> Flip(e) in st.edges
  }

  /** Every relation endpoint is a live entity. */
  ghost predicate Closed(st: Store) {
    forall e :: e in st.edges ==> e.source in st.entities && e.target in st.entities
  }

  /** The keys of the `rel` collection of `u`. */
  function Targets(st: Store, rel: Relation, u: URI): set<URI> {
    set e | e in st.edges && e.rel == rel && e.source == u :: e.target
  }

  /** The `rel` collection of `u` as its `Concepts` mapping. */
  function View(st: Store, rel: Relation, u: URI): map<URI, Entity> {
    map v | v in Targets(st, rel, u) && v in st.entities :: st.entities[v]
  }

  /** The keys the merged view over a left store and its right store holds. */
  function Joined(st: Store, left: Relation, u: URI): set<URI>
    requires IsJoinLeft(left)
  {
    Targets(st, left, u) + Targets(st, Inverse(left), u)
  }

  /** `getattr(a, rel).add(b)` with its back-reference. */
  function Link(st: Store, rel: Relation, a: URI, b: URI): (r: Store)
    ensures r.entities == st.entities
    ensures Consistent(st) ==> Consistent(r)
    ensures b in Targets(r, rel, a) && a in Targets(r, Inverse(rel), b)
    ensures forall e :: e in r.edges <==> e in st.edges || e == Edge(rel, a, b) || e == Edge(Inverse(rel), b, a)
  {
    InverseIsInvolution();
    var e := Edge(rel, a, b);
    Store(st.entities, st.edges + {e, Flip(e)})
  }

  /** `getattr(a, rel).discard(b)` with its back-reference. */
  function Unlink(st: Store, rel: Relation, a: URI, b: URI): (r: Store)
    ensures r.entities == st.entities
    ensures Consistent(st) ==> Consistent(r)
    ensures b !in Targets(r, rel, a) && a !in Targets(r, Inverse(rel), b)
    ensures forall e :: e in r.edges <==> e in st.edges && e != Edge(rel, a, b) && e != Edge(Inverse(rel), b, a)
  {
    InverseIsInvolution();
    var e := Edge(rel, a, b);
    Store(st.entities, st.edges - {e, Flip(e)})
  }

  /** `a.synonyms.discard(b)` (or `related`): `b` leaves both stores of
      `a`, and the back-references take `a` out of both stores of `b`;
      every other edge stays. */
  function JoinDiscard(st: Store, left: Relation, a: URI, b: URI): (r: Store)
    requires IsJoinLeft(left)
    ensures r.entities == st.entities
    ensures Consistent(st) ==> Consistent(r)
    ensures b !in Joined(r, left, a) && a !in Joined(r, left, b)
    ensures r.edges == st.edges - {Edge(left, a, b), Edge(Inverse(left), b, a), Edge(Inverse(left), a, b), Edge(left, b, a)}
  {
    InverseIsInvolution();
    Unlink(Unlink(st, left, a, b), Inverse(left), a, b)
  }

  /** Under the back-reference pairing the merged view is symmetric:
      `b in a.related` exactly when `a in b.related` (and so for synonyms). */
  lemma JoinedIsSymmetric(st: Store, left: Relation, a: URI, b: URI)
    requires IsJoinLeft(left) && Consistent(st)
    ensures b in Joined(st, left, a) <==> a in Joined(st, left, b)
  {
    if b in Targets(st, left, a) {
      assert Edge(left, a, b) in st.edges;
      assert Flip(Edge(left, a, b)) in st.edges;
    }
    if b in Targets(st, Inverse(left), a) {
      assert Edge(Inverse(left), a, b) in st.edges;
      assert Flip(Edge(Inverse(left), a, b)) in st.edges;
    }
    if a in Targets(st, left, b) {
      assert Edge(left, b, a) in st.edges;
      assert Flip(Edge(left, b, a)) in st.edges;
    }
    if a in Targets(st, Inverse(left), b) {
      assert Edge(Inverse(left), b, a) in st.edges;
      assert Flip(Edge(Inverse(left), b, a)) in st.edges;
    }
  }

  /** `b in a.broader` exactly when `a in b.narrower`; likewise for every
      relationship and its back-reference. */
  lemma InverseIsMirrored(st: Store, rel: Relation, a: URI, b: URI)
    requires Consistent(st)
    ensures b in Targets(st, rel, a) <==> a in Targets(st, Inverse(rel), b)
  {
    if b in Targets(st, rel, a) {
      assert Flip(Edge(rel, a, b)) in st.edges;
    }
    if a in Targets(st, Inverse(rel), b) {
      assert Flip(Edge(Inverse(rel), b, a)) in st.edges;
    }
  }

  /** `e` belongs to one of the two stores of `a`, or is the
      back-reference of such an entry. */
  predicate Touches(e: Edge, left: Relation, a: URI) {
    (e.rel == left || e.rel == Inverse(left)) && (e.source == a || e.target == a)
  }

  /** The edges from `a` to each of `vs` in `rel`, together with their
      back-references, are closed under `Flip`. */
  lemma MirroredPairs(rel: Relation, a: URI, vs: set<URI>)
    ensures var es := (set v | v in vs :: Edge(rel, a, v)) + (set v | v in vs :: Edge(Inverse(rel), v, a));
            forall e :: e in es ==> Flip(e) in es
  {
    InverseIsInvolution();
    var es := (set v | v in vs :: Edge(rel, a, v)) + (set v | v in vs :: Edge(Inverse(rel), v, a));
    forall e | e in es ensures Flip(e) in es {
      if e.rel == rel && e.source == a && e.target in vs {
        assert Flip(e) == Edge(Inverse(rel), e.target, a);
      } else {
        assert e.target == a && e.source in vs;
        assert Flip(e) == Edge(rel, a, e.source);
      }
    }
  }

  /** Taking out and putting in sets of edges each closed under `Flip`
      keeps a consistent store consistent. */
  lemma SwapKeepsConsistent(st: Store, dropped: set<Edge>, added: set<Edge>)
    requires forall e :: e in dropped ==> Flip(e) in dropped
    requires forall e :: e in added ==> Flip(e) in added
    ensures Consistent(st) ==> Consistent(Store(st.entities, (st.edges - dropped) + added))
  {
    InverseIsInvolution();
    var r := Store(st.entities, (st.edges - dropped) + added);
    if Consistent(st) {
      forall e | e in r.edges ensures Flip(e) in r.edges {
        if e !in added {
          assert Flip(e) in st.edges;
          assert Flip(Flip(e)) == e;
        }
      }
    }
  }

  /** Assigning `values` to the `rel` collection of `a`: every old entry
      is discarded and every value added, each change carried to the
      back-reference. Afterwards `a` holds exactly `values` there, and an
      edge that is neither in that collection nor a back-reference to `a`
      is kept. */
  function Replace(st: Store, rel: Relation, a: URI, values: set<URI>): (r: Store)
    ensures r.entities == st.entities
    ensures Consistent(st) ==> Consistent(r)
    ensures Targets(r, rel, a) == values
    ensures forall e: Edge :: !(e.rel == rel && e.source == a) && !(e.rel == Inverse(rel) && e.target == a) ==>
              (e in r.edges <==> e in st.edges)
  {
    InverseIsInvolution();
    var previous := Targets(st, rel, a);
    var dropped := (set v | v in previous :: Edge(rel, a, v)) + (set v | v in previous :: Edge(Inverse(rel), v, a));
    var added := (set v | v in values :: Edge(rel, a, v)) + (set v | v in values :: Edge(Inverse(rel), v, a));
    var r := Store(st.entities, (st.edges - dropped) + added);
    assert forall v :: v in values ==> Edge(rel, a, v) in added;
    MirroredPairs(rel, a, previous);
    MirroredPairs(rel, a, values);
    SwapKeepsConsistent(st, dropped, added);
    r
  }

  /** The `synonyms` / `related` setter on `a`: `_left = values`, then
      `_right = {}`, each assignment carried to the back-references of the
      entities involved. A self-entry is therefore lost again: the second
      assignment discards `a` from the right store of `a`, whose
      back-reference is the left entry. */
  function JoinAssign(st: Store, left: Relation, a: URI, values: set<URI>): (r: Store)
    requires IsJoinLeft(left)
    ensures r.entities == st.entities
    ensures Consistent(st) ==> Consistent(r)
    ensures Targets(r, left, a) == values - {a}
    ensures Targets(r, Inverse(left), a) == {}
    ensures Joined(r, left, a) == values - {a}
    // edges outside the two stores of `a` and their back-references are untouched
    ensures forall e: Edge :: !Touches(e, left, a) ==> (e in r.edges <==> e in st.edges)
  {
    InverseIsInvolution();
    var st1 := Replace(st, left, a, values);
    var r := Replace(st1, Inverse(left), a, {});
    assert Targets(r, left, a) == values - {a} by {
      forall v ensures v in Targets(r, left, a) <==> v in values - {a} {
        if v != a {
          assert Edge(left, a, v) in r.edges <==> Edge(left, a, v) in st1.edges;
        } else {
          assert Edge(left, a, a) == Flip(Edge(Inverse(left), a, a));
          assert a in values ==> Edge(Inverse(left), a, a) in st1.edges;
          assert Edge(left, a, a) !in r.edges;
        }
      }
    }
    r
  }

  /** `ConceptScheme.__eq__`: uri, title, description and `concepts`.
      Against an entity without `title` or without `concepts` the
      attribute lookup raises AttributeError, which is not caught. The
      relations of `a` are read in `st`, those of `other` in `st'`. */
  function SchemeEquals(st: Store, a: Entity, st': Store, other: Entity): (r: Result<bool>)
    requires a.ConceptScheme?
    ensures !other.ConceptScheme? ==> r == Err(AttributeError)
    ensures other.ConceptScheme? ==>
              r.Ok? && (r.value <==> a == other && View(st, SchemeConcepts, a.uri) == View(st', SchemeConcepts, other.uri))
  {
    if !other.ConceptScheme? then Err(AttributeError)
    else Ok(a.uri == other.uri && a.title == other.title && a.description == other.description
            && View(st, SchemeConcepts, a.uri) == View(st', SchemeConcepts, other.uri))
  }

  /** `Collection.__eq__`: uri, title, description, `members` and date;
      an entity lacking one of them compares unequal. The relations of `a`
      are read in `st`, those of `other` in `st'`. */
  function CollectionEquals(st: Store, a: Entity, st': Store, other: Entity): (r: bool)
    requires a.Collection?
    ensures r <==> other == a && View(st, Members, a.uri) == View(st', Members, other.uri)
  {
    other.Collection? &&
    a.uri == other.uri && a.title == other.title && a.description == other.description
    && View(st, Members, a.uri) == View(st', Members, other.uri) && a.date == other.date
  }

  /** Unlike concept equality, which reads no relation at all, collection
      equality reads `members`: once a live object is added to a
      collection's members, the collection no longer equals its former
      self. */
  lemma EqualityScope(st: Store, k: Entity, m: URI)
    requires k.Collection? && k.uri in st.entities && st.entities[k.uri] == k
    requires m in st.entities && m !in Targets(st, Members, k.uri)
    ensures CollectionEquals(st, k, st, k)
    ensures !CollectionEquals(st, k, Link(st, Members, k.uri, m), k)
  {
    var st1 := Link(st, Members, k.uri, m);
    assert m in View(st1, Members, k.uri);
    assert m !in View(st, Members, k.uri);
  }

  /** A collection's equality with itself across an edit depends only on
      its own members: editing the relations of anything else keeps it. */
  lemma CollectionEqualsFrame(st: Store, st': Store, k: Entity)
    requires k.Collection? && st'.entities == st.entities
    requires forall e: Edge :: e.rel == Members && e.source == k.uri ==> (e in st'.edges <==> e in st.edges)
    ensures CollectionEquals(st, k, st', k)
  {
    assert Targets(st, Members, k.uri) == Targets(st', Members, k.uri) by {
      forall v ensures v in Targets(st, Members, k.uri) <==> v in Targets(st', Members, k.uri) {
        assert Edge(Members, k.uri, v) in st.edges <==> Edge(Members, k.uri, v) in st'.edges;
      }
    }
  }
}
