/** `RDFBuilder`: writes objects of the object model, and everything they
    reach through their relations, into an RDF graph. An object whose type
    triple is already in the graph is skipped, and an object's type triple
    is added before any of its relations is followed; together these make
    the recursion terminate on cyclic relations. */
module Builder {
  import opened Base
  import opened Rdf
  import opened Entities
  import opened ObjectModel

  /** `skos:<class name>` of an object. */
  function ClassIri(e: Entity): (r: URI)
    ensures e.Concept? <==> r == SKOS_CONCEPT
    ensures e.Collection? <==> r == SKOS_COLLECTION
    ensures e.ConceptScheme? <==> r == SKOS_CONCEPT_SCHEME
  {
    match e
    case Concept(_, _, _, _, _, _) => SKOS_CONCEPT
    case ConceptScheme(_, _, _) => SKOS_CONCEPT_SCHEME
    case Collection(_, _, _, _) => SKOS_COLLECTION
  }

  function TypeTriple(u: URI, cls: URI): Triple {
    Triple(u, RDF_TYPE, Iri(cls))
  }

  /** The test of `objectInGraph` on a triple sequence. */
  predicate Typed(ts: seq<Triple>, e: Entity) {
    TypeTriple(e.uri, ClassIri(e)) in ts
  }

  /** `objectInGraph(obj, graph)`: the object's type triple, named after
      its own class, is in the graph. */
  function ObjectInGraph(e: Entity, g: Graph): bool
    reads g
  {
    g.Contains(TypeTriple(e.uri, ClassIri(e)))
  }

  /** `rdflib.Literal(value)` of an optional attribute: None becomes the
      literal "None". */
  function Plain(v: Option<string>): Node {
    Lit(match v case Some(s) => s case None => "None", None)
  }

  /** The relations the builder follows: the four of `buildConcept`
      (iterating `synonyms` and `related` yields their left stores only)
      and a collection's `members`. */
  predicate Followed(rel: Relation) {
    rel == SynonymsLeft || rel == RelatedLeft || rel == Broader || rel == Narrower || rel == Members
  }

  /** The predicate the builder writes for each followed relation. */
  function EdgePredicate(rel: Relation): URI
    requires Followed(rel)
  {
    match rel
    case SynonymsLeft => SKOS_EXACT_MATCH
    case RelatedLeft => SKOS_RELATED
    case Broader => SKOS_BROADER
    case Narrower => SKOS_NARROWER
    case Members => SKOS_MEMBER
  }

  /** The predicates the builder writes. */
  const BUILT: set<URI> := {RDF_TYPE, SKOS_NOTATION, SKOS_PREF_LABEL, SKOS_DEFINITION, SKOS_ALT_LABEL, SKOS_NOTE,
                            SKOS_EXACT_MATCH, SKOS_RELATED, SKOS_BROADER, SKOS_NARROWER, SKOS_MEMBER,
                            DC_TITLE, DC_DESCRIPTION, DC_DATE}

  /** The literal-valued predicates of the builder other than `dc:date`:
      each is written, and none is `rdf:type` or `dc:date`. */
  lemma ScalarPredicates()
    ensures forall p :: p in [SKOS_NOTATION, SKOS_PREF_LABEL, SKOS_DEFINITION, SKOS_ALT_LABEL, SKOS_NOTE,
                              DC_TITLE, DC_DESCRIPTION] ==>
              p in BUILT && p != RDF_TYPE && p != DC_DATE
  {
  }

  /** A triple the builder may write for the store `st`: about one of its
      objects, with one of the builder's predicates; a type triple names
      `skos:Concept` or `skos:Collection` (the only classes the builder
      writes), and a `dc:date` triple carries the date of a collection
      that has one. */
  predicate Emittable(st: Store, t: Triple) {
    && t.s in st.entities && t.p in BUILT
    && (t.p == RDF_TYPE ==> t.o == Iri(SKOS_CONCEPT) || t.o == Iri(SKOS_COLLECTION))
    && (t.p == DC_DATE ==>
          var e := st.entities[t.s];
          e.Collection? && e.date.Some? && t.o == Lit(e.date.value.iso, None))
  }

  /** The kinds the relationship layer enforces: the four relations
      `buildConcept` follows and a collection's `members` hold concepts,
      and a concept's `collections` hold collections. */
  ghost predicate WellKinded(st: Store) {
    && (forall rel, u, v :: Followed(rel) && v in View(st, rel, u) ==> st.entities[v].Concept?)
    && (forall u, v :: v in View(st, Collections, u) ==> st.entities[v].Collection?)
  }

  /** The builder never writes a concept scheme's type triple, so a scheme
      it finds untyped stays untyped. */
  lemma SchemeNeverTyped(st: Store, ts0: seq<Triple>, ts1: seq<Triple>, e: Entity)
    requires AddsOnly(st, ts0, ts1) && e.ConceptScheme?
    ensures Typed(ts1, e) ==> Typed(ts0, e)
  {
  }

  /** The builder never writes a `dc:date` triple for a collection
      without a date. */
  lemma NoDateWithoutOne(st: Store, ts0: seq<Triple>, ts1: seq<Triple>, u: URI)
    requires AddsOnly(st, ts0, ts1) && u in st.entities && st.entities[u].Collection? && st.entities[u].date.None?
    ensures forall n :: Triple(u, DC_DATE, n) in ts1 ==> Triple(u, DC_DATE, n) in ts0
  {
  }

  /** Everything `ts1` adds to `ts0` is emittable. */
  ghost predicate AddsOnly(st: Store, ts0: seq<Triple>, ts1: seq<Triple>) {
    forall t :: t in ts1 ==> t in ts0 || Emittable(st, t)
  }

  /** The objects of the store whose type triple is not yet in `ts`: the
      measure of the builder's recursion. */
  function Untyped(ts: seq<Triple>, st: Store): set<URI> {
    set u | u in st.entities && !Typed(ts, st.entities[u])
  }

  lemma PrefixKeeps(ts0: seq<Triple>, ts1: seq<Triple>)
    requires ts0 <= ts1
    ensures forall t :: t in ts0 ==> t in ts1
  {
    forall t | t in ts0
      ensures t in ts1
    {
      var i :| 0 <= i < |ts0| && ts0[i] == t;
      assert ts1[i] == t;
    }
  }

  /** A growing graph never gains untyped objects, and typing the object
      under `u` strictly shrinks the measure. */
  lemma UntypedShrinks(ts0: seq<Triple>, ts1: seq<Triple>, st: Store, u: URI)
    requires ts0 <= ts1 && u in st.entities
    requires !Typed(ts0, st.entities[u]) && Typed(ts1, st.entities[u])
    ensures Untyped(ts1, st) < Untyped(ts0, st)
  {
    PrefixKeeps(ts0, ts1);
    assert u in Untyped(ts0, st) && u !in Untyped(ts1, st);
  }

  lemma UntypedMonotone(ts0: seq<Triple>, ts1: seq<Triple>, st: Store)
    requires ts0 <= ts1
    ensures Untyped(ts1, st) <= Untyped(ts0, st)
  {
    PrefixKeeps(ts0, ts1);
  }

  /** The measure stays strictly below the one at `anchor` while the
      graph grows. */
  lemma UntypedStaysBelow(anchor: seq<Triple>, ts0: seq<Triple>, ts1: seq<Triple>, st: Store)
    requires ts0 <= ts1 && Untyped(ts0, st) < Untyped(anchor, st)
    ensures Untyped(ts1, st) < Untyped(anchor, st)
  {
    UntypedMonotone(ts0, ts1, st);
    var x :| x in Untyped(anchor, st) && x !in Untyped(ts0, st);
    assert x !in Untyped(ts1, st);
  }

  /** Every object of the `rel` collection of `u` is linked from `u` by
      the relation's predicate and is typed in `ts`. */
  ghost predicate EdgesEmitted(ts: seq<Triple>, st: Store, u: URI, rel: Relation)
    requires Followed(rel)
  {
    forall v :: v in View(st, rel, u) ==>
      Triple(u, EdgePredicate(rel), Iri(v)) in ts && Typed(ts, st.entities[v])
  }

  /** Every collection of `u` is typed in `ts`. */
  ghost predicate CollectionsTyped(ts: seq<Triple>, st: Store, u: URI) {
    forall v :: v in View(st, Collections, u) ==> Typed(ts, st.entities[v])
  }

  /** The relation part of what `buildConcept` writes for `u`: the edges
      of its four relations, in the order the source follows them, and the
      types of its collections. */
  ghost predicate RelationsEmitted(ts: seq<Triple>, st: Store, u: URI) {
    && EdgesEmitted(ts, st, u, SynonymsLeft)
    && EdgesEmitted(ts, st, u, RelatedLeft)
    && EdgesEmitted(ts, st, u, Broader)
    && EdgesEmitted(ts, st, u, Narrower)
    && CollectionsTyped(ts, st, u)
  }

  /** What `buildConcept` writes for the concept `e`: its type, its five
      scalar attributes, one edge per related concept in each of the four
      relations, and (through the recursion) the types of everything it
      reaches. */
  ghost predicate ConceptEmitted(ts: seq<Triple>, st: Store, e: Entity)
    requires e.Concept?
  {
    ConceptScalars(ts, e) && RelationsEmitted(ts, st, e.uri)
  }

  /** What `buildCollection` writes for the collection `e`: its type, its
      title and description, its date only when it has one, and one
      `skos:member` edge per member, each member typed. */
  ghost predicate CollectionEmitted(ts: seq<Triple>, st: Store, e: Entity)
    requires e.Collection?
  {
    var u := e.uri;
    && TypeTriple(u, SKOS_COLLECTION) in ts
    && Triple(u, DC_TITLE, Lit(e.title, None)) in ts
    && Triple(u, DC_DESCRIPTION, Plain(e.description)) in ts
    && (e.date.Some? ==> Triple(u, DC_DATE, Lit(e.date.value.iso, None)) in ts)
    && EdgesEmitted(ts, st, u, Members)
  }

  lemma EdgesGrow(ts0: seq<Triple>, ts1: seq<Triple>, st: Store, u: URI, rel: Relation)
    requires Followed(rel) && ts0 <= ts1 && EdgesEmitted(ts0, st, u, rel)
    ensures EdgesEmitted(ts1, st, u, rel)
  {
    PrefixKeeps(ts0, ts1);
  }

  /** Once written, the triples of a concept stay written as the graph
      grows. */
  lemma ConceptEmittedGrows(ts0: seq<Triple>, ts1: seq<Triple>, st: Store, e: Entity)
    requires e.Concept? && ts0 <= ts1 && ConceptEmitted(ts0, st, e)
    ensures ConceptEmitted(ts1, st, e)
  {
    PrefixKeeps(ts0, ts1);
    EdgesGrow(ts0, ts1, st, e.uri, SynonymsLeft);
    EdgesGrow(ts0, ts1, st, e.uri, RelatedLeft);
    EdgesGrow(ts0, ts1, st, e.uri, Broader);
    EdgesGrow(ts0, ts1, st, e.uri, Narrower);
  }

  /** `graph.add(t)` for a triple the builder may write. */
  method Emit(g: Graph, ghost st: Store, ghost ts0: seq<Triple>, t: Triple)
    requires g.Valid() && ts0 <= g.triples && AddsOnly(st, ts0, g.triples) && Emittable(st, t)
    modifies g
    ensures g.Valid() && old(g.triples) <= g.triples && ts0 <= g.triples && AddsOnly(st, ts0, g.triples)
    ensures g.triples == if t in old(g.triples) then old(g.triples) else old(g.triples) + [t]
  {
    g.Add(t);
  }

  /** `buildConcept(graph, concept)` for the object stored under `u`. */
  method BuildConcept(g: Graph, st: Store, u: URI) returns (r: Outcome)
    requires g.Valid() && WellKeyed(st.entities) && u in st.entities
    modifies g
    decreases Untyped(g.triples, st), 4
    ensures g.Valid() && old(g.triples) <= g.triples && AddsOnly(st, old(g.triples), g.triples)
    ensures r.Fail? ==> r.error == AttributeError
    ensures Typed(old(g.triples), st.entities[u]) ==> r.Pass? && g.triples == old(g.triples)
    ensures !Typed(old(g.triples), st.entities[u]) ==> TypeTriple(u, SKOS_CONCEPT) in g.triples
    ensures !Typed(old(g.triples), st.entities[u]) && st.entities[u].Concept? ==>
              g.triples[|old(g.triples)|] == TypeTriple(u, SKOS_CONCEPT)
    ensures !Typed(old(g.triples), st.entities[u]) && !st.entities[u].Concept? ==>
              r == Fail(AttributeError) &&
              forall t :: t in g.triples <==> t in old(g.triples) || t == TypeTriple(u, SKOS_CONCEPT)
    ensures r.Pass? ==> Typed(g.triples, st.entities[u])
    ensures r.Pass? && !Typed(old(g.triples), st.entities[u]) ==> ConceptEmitted(g.triples, st, st.entities[u])
    ensures WellKinded(st) && st.entities[u].Concept? ==> r.Pass?
  {
    var e := st.entities[u];
    if ObjectInGraph(e, g) {
      return Pass;
    }
    ghost var ts0 := g.triples;
    Emit(g, st, ts0, TypeTriple(u, SKOS_CONCEPT));
    if !e.Concept? {
      return Fail(AttributeError);
    }
    ghost var typed := g.triples;
    EmitScalars(g, st, ts0, e);
    ghost var ts1 := g.triples;
    assert ts0 + [TypeTriple(u, SKOS_CONCEPT)] == typed <= ts1;
    assert ts1[|ts0|] == TypeTriple(u, SKOS_CONCEPT);
    UntypedShrinks(ts0, ts1, st, u);
    r := BuildRelations(g, st, u, ts0);
    if r.Fail? {
      return;
    }
    ScalarsGrow(ts1, g.triples, e);
  }

  /** The type and the five scalar triples of a concept. */
  ghost predicate ConceptScalars(ts: seq<Triple>, e: Entity)
    requires e.Concept?
  {
    var u := e.uri;
    && TypeTriple(u, SKOS_CONCEPT) in ts
    && Triple(u, SKOS_NOTATION, Plain(e.notation)) in ts
    && Triple(u, SKOS_PREF_LABEL, Lit(e.prefLabel, None)) in ts
    && Triple(u, SKOS_DEFINITION, Plain(e.definition)) in ts
    && Triple(u, SKOS_ALT_LABEL, Plain(e.altLabel)) in ts
    && Triple(u, SKOS_NOTE, Plain(e.note)) in ts
  }

  /** The five scalar `graph.add` calls of `buildConcept`. */
  method EmitScalars(g: Graph, ghost st: Store, ghost ts0: seq<Triple>, e: Entity)
    requires e.Concept? && e.uri in st.entities
    requires g.Valid() && ts0 <= g.triples && AddsOnly(st, ts0, g.triples)
    requires TypeTriple(e.uri, SKOS_CONCEPT) in g.triples
    modifies g
    ensures g.Valid() && old(g.triples) <= g.triples && ts0 <= g.triples && AddsOnly(st, ts0, g.triples)
    ensures ConceptScalars(g.triples, e)
  {
    ScalarPredicates();
    var u := e.uri;
    EmitOne(g, st, ts0, Triple(u, SKOS_NOTATION, Plain(e.notation)));
    EmitOne(g, st, ts0, Triple(u, SKOS_PREF_LABEL, Lit(e.prefLabel, None)));
    EmitOne(g, st, ts0, Triple(u, SKOS_DEFINITION, Plain(e.definition)));
    EmitOne(g, st, ts0, Triple(u, SKOS_ALT_LABEL, Plain(e.altLabel)));
    EmitOne(g, st, ts0, Triple(u, SKOS_NOTE, Plain(e.note)));
  }

  lemma ScalarsGrow(ts0: seq<Triple>, ts1: seq<Triple>, e: Entity)
    requires e.Concept? && ts0 <= ts1 && ConceptScalars(ts0, e)
    ensures ConceptScalars(ts1, e)
  {
    PrefixKeeps(ts0, ts1);
  }

  /** The four relation loops and the collections loop of `buildConcept`,
      for a concept whose type triple has just been written. */
  method BuildRelations(g: Graph, st: Store, u: URI, ghost ts0: seq<Triple>) returns (r: Outcome)
    requires g.Valid() && WellKeyed(st.entities) && u in st.entities && st.entities[u].Concept?
    requires ts0 <= g.triples && AddsOnly(st, ts0, g.triples)
    requires Untyped(g.triples, st) < Untyped(ts0, st)
    modifies g
    decreases Untyped(ts0, st), 3
    ensures g.Valid() && old(g.triples) <= g.triples && AddsOnly(st, ts0, g.triples)
    ensures r.Fail? ==> r.error == AttributeError
    ensures r.Pass? ==> RelationsEmitted(g.triples, st, u)
    ensures WellKinded(st) ==> r.Pass?
  {
    ghost var t0 := g.triples;
    r := BuildEdgePair(g, st, u, SynonymsLeft, RelatedLeft, ts0);
    if r.Fail? {
      return;
    }
    ghost var t1 := g.triples;
    UntypedStaysBelow(ts0, t0, t1, st);
    r := BuildEdgePair(g, st, u, Broader, Narrower, ts0);
    if r.Fail? {
      return;
    }
    ghost var t2 := g.triples;
    UntypedStaysBelow(ts0, t1, t2, st);
    r := BuildCollections(g, st, u, ts0);
    if r.Fail? {
      return;
    }
    RelationsAssemble(t1, t1, t2, t2, g.triples, st, u);
  }

  /** Two of the relation loops of `buildConcept`, one after the other. */
  method BuildEdgePair(g: Graph, st: Store, u: URI, rel1: Relation, rel2: Relation, ghost ts0: seq<Triple>)
    returns (r: Outcome)
    requires g.Valid() && WellKeyed(st.entities) && u in st.entities
    requires Followed(rel1) && Followed(rel2)
    requires ts0 <= g.triples && AddsOnly(st, ts0, g.triples)
    requires Untyped(g.triples, st) < Untyped(ts0, st)
    modifies g
    decreases Untyped(ts0, st), 2
    ensures g.Valid() && old(g.triples) <= g.triples && AddsOnly(st, ts0, g.triples)
    ensures r.Fail? ==> r.error == AttributeError
    ensures r.Pass? ==> EdgesEmitted(g.triples, st, u, rel1) && EdgesEmitted(g.triples, st, u, rel2)
    ensures WellKinded(st) ==> r.Pass?
  {
    ghost var t0 := g.triples;
    r := BuildEdges(g, st, u, rel1, ts0);
    if r.Fail? {
      return;
    }
    ghost var t1 := g.triples;
    UntypedStaysBelow(ts0, t0, t1, st);
    r := BuildEdges(g, st, u, rel2, ts0);
    if r.Fail? {
      return;
    }
    EdgesGrow(t1, g.triples, st, u, rel1);
  }

  /** The edges each relation loop wrote survive the later loops. */
  lemma RelationsAssemble(t1: seq<Triple>, t2: seq<Triple>, t3: seq<Triple>, t4: seq<Triple>, t5: seq<Triple>,
                          st: Store, u: URI)
    requires t1 <= t2 <= t3 <= t4 <= t5
    requires EdgesEmitted(t1, st, u, SynonymsLeft) && EdgesEmitted(t2, st, u, RelatedLeft)
    requires EdgesEmitted(t3, st, u, Broader) && EdgesEmitted(t4, st, u, Narrower)
    requires CollectionsTyped(t5, st, u)
    ensures RelationsEmitted(t5, st, u)
  {
    EdgesGrow(t1, t5, st, u, SynonymsLeft);
    EdgesGrow(t2, t5, st, u, RelatedLeft);
    EdgesGrow(t3, t5, st, u, Broader);
    EdgesGrow(t4, t5, st, u, Narrower);
  }

  /** `for uri, x in concept.<rel>.items(): graph.add((node, P, uri));
      self.buildConcept(graph, x)`, and the same loop over a collection's
      `members`; the iteration order is left open. */
  method BuildEdges(g: Graph, st: Store, u: URI, rel: Relation, ghost ts0: seq<Triple>) returns (r: Outcome)
    requires g.Valid() && WellKeyed(st.entities) && u in st.entities
    requires Followed(rel)
    requires ts0 <= g.triples && AddsOnly(st, ts0, g.triples)
    requires Untyped(g.triples, st) < Untyped(ts0, st)
    modifies g
    decreases Untyped(ts0, st), 1
    ensures g.Valid() && old(g.triples) <= g.triples && AddsOnly(st, ts0, g.triples)
    ensures r.Fail? ==> r.error == AttributeError
    ensures r.Pass? ==> EdgesEmitted(g.triples, st, u, rel)
    ensures WellKinded(st) ==> r.Pass?
  {
    var targets := View(st, rel, u).Keys;
    assert targets <= st.entities.Keys;
    var todo := targets;
    ghost var done: set<URI> := {};
    while todo != {}
      invariant todo <= targets && done == targets - todo
      invariant g.Valid() && old(g.triples) <= g.triples && AddsOnly(st, ts0, g.triples)
      invariant forall v :: v in done ==>
                  v in st.entities && Triple(u, EdgePredicate(rel), Iri(v)) in g.triples && Typed(g.triples, st.entities[v])
      decreases todo
    {
      var v :| v in todo;
      ghost var before := g.triples;
      UntypedStaysBelow(ts0, old(g.triples), before, st);
      r := EdgeStep(g, st, u, rel, v, ts0);
      if r.Fail? {
        assert WellKinded(st) ==> st.entities[v].Concept?;
        return;
      }
      EdgesAmongGrow(before, g.triples, st, u, rel, done, v);
      todo := todo - {v};
      done := done + {v};
    }
    r := Pass;
  }

  /** The edges and types written for the targets handled so far survive
      the next step, which adds those of `v`. */
  lemma EdgesAmongGrow(ts0: seq<Triple>, ts1: seq<Triple>, st: Store, u: URI, rel: Relation, done: set<URI>, v: URI)
    requires Followed(rel) && ts0 <= ts1 && v in st.entities
    requires Triple(u, EdgePredicate(rel), Iri(v)) in ts1 && Typed(ts1, st.entities[v])
    requires forall w :: w in done ==>
               w in st.entities && Triple(u, EdgePredicate(rel), Iri(w)) in ts0 && Typed(ts0, st.entities[w])
    ensures forall w :: w in done + {v} ==>
              w in st.entities && Triple(u, EdgePredicate(rel), Iri(w)) in ts1 && Typed(ts1, st.entities[w])
  {
    PrefixKeeps(ts0, ts1);
  }

  /** One iteration of `BuildEdges`: the edge to `v`, then `v` itself. */
  method EdgeStep(g: Graph, st: Store, u: URI, rel: Relation, v: URI, ghost ts0: seq<Triple>) returns (r: Outcome)
    requires g.Valid() && WellKeyed(st.entities) && u in st.entities && v in st.entities
    requires Followed(rel)
    requires ts0 <= g.triples && AddsOnly(st, ts0, g.triples)
    requires Untyped(g.triples, st) < Untyped(ts0, st)
    modifies g
    decreases Untyped(ts0, st), 0
    ensures g.Valid() && old(g.triples) <= g.triples && AddsOnly(st, ts0, g.triples)
    ensures r.Fail? ==> r.error == AttributeError
    ensures r.Pass? ==> Triple(u, EdgePredicate(rel), Iri(v)) in g.triples && Typed(g.triples, st.entities[v])
    ensures WellKinded(st) && st.entities[v].Concept? ==> r.Pass?
  {
    ghost var before := g.triples;
    Emit(g, st, ts0, Triple(u, EdgePredicate(rel), Iri(v)));
    ghost var mid := g.triples;
    assert Triple(u, EdgePredicate(rel), Iri(v)) in mid;
    UntypedStaysBelow(ts0, before, mid, st);
    r := BuildConcept(g, st, v);
    if r.Fail? {
      return;
    }
    PrefixKeeps(mid, g.triples);
  }

  /** `for c in concept.collections.values(): self.buildCollection(graph, c)` */
  method BuildCollections(g: Graph, st: Store, u: URI, ghost ts0: seq<Triple>) returns (r: Outcome)
    requires g.Valid() && WellKeyed(st.entities) && u in st.entities
    requires ts0 <= g.triples && AddsOnly(st, ts0, g.triples)
    requires Untyped(g.triples, st) < Untyped(ts0, st)
    modifies g
    decreases Untyped(ts0, st), 1
    ensures g.Valid() && old(g.triples) <= g.triples && AddsOnly(st, ts0, g.triples)
    ensures r.Fail? ==> r.error == AttributeError
    ensures r.Pass? ==> CollectionsTyped(g.triples, st, u)
    ensures WellKinded(st) ==> r.Pass?
  {
    var targets := View(st, Collections, u).Keys;
    assert targets <= st.entities.Keys;
    var todo := targets;
    ghost var done: set<URI> := {};
    while todo != {}
      invariant todo <= targets && done == targets - todo
      invariant g.Valid() && old(g.triples) <= g.triples && AddsOnly(st, ts0, g.triples)
      invariant forall v :: v in done ==> v in st.entities && Typed(g.triples, st.entities[v])
      decreases todo
    {
      var v :| v in todo;
      ghost var before := g.triples;
      assert Untyped(g.triples, st) < Untyped(ts0, st) by {
        UntypedStaysBelow(ts0, old(g.triples), g.triples, st);
      }
      r := CollectionStep(g, st, v, ts0);
      if r.Fail? {
        assert WellKinded(st) ==> st.entities[v].Collection?;
        return;
      }
      TypedAmongGrows(before, g.triples, st, done, v);
      todo := todo - {v};
      done := done + {v};
    }
    r := Pass;
  }

  lemma TypedAmongGrows(ts0: seq<Triple>, ts1: seq<Triple>, st: Store, done: set<URI>, v: URI)
    requires ts0 <= ts1 && v in st.entities && Typed(ts1, st.entities[v])
    requires forall w :: w in done ==> w in st.entities && Typed(ts0, st.entities[w])
    ensures forall w :: w in done + {v} ==> w in st.entities && Typed(ts1, st.entities[w])
  {
    PrefixKeeps(ts0, ts1);
  }

  /** One iteration of `BuildCollections`: the collection `v`. */
  method CollectionStep(g: Graph, st: Store, v: URI, ghost ts0: seq<Triple>) returns (r: Outcome)
    requires g.Valid() && WellKeyed(st.entities) && v in st.entities
    requires ts0 <= g.triples && AddsOnly(st, ts0, g.triples)
    requires Untyped(g.triples, st) < Untyped(ts0, st)
    modifies g
    decreases Untyped(ts0, st), 0
    ensures g.Valid() && old(g.triples) <= g.triples && AddsOnly(st, ts0, g.triples)
    ensures r.Fail? ==> r.error == AttributeError
    ensures r.Pass? ==> Typed(g.triples, st.entities[v])
    ensures WellKinded(st) && st.entities[v].Collection? ==> r.Pass?
  {
    ghost var before := g.triples;
    r := BuildCollection(g, st, v);
    assert forall t :: t in g.triples ==> t in before || Emittable(st, t);
  }

  /** `buildCollection(graph, collection)` for the object stored under
      `u`. A concept fails at `title`; a concept scheme writes its title
      and description, passes the date (reading `date` raises
      AttributeError, which is caught) and fails at `members`. */
  method BuildCollection(g: Graph, st: Store, u: URI) returns (r: Outcome)
    requires g.Valid() && WellKeyed(st.entities) && u in st.entities
    modifies g
    decreases Untyped(g.triples, st), 4
    ensures g.Valid() && old(g.triples) <= g.triples && AddsOnly(st, old(g.triples), g.triples)
    ensures r.Fail? ==> r.error == AttributeError
    ensures Typed(old(g.triples), st.entities[u]) ==> r.Pass? && g.triples == old(g.triples)
    ensures !Typed(old(g.triples), st.entities[u]) ==> TypeTriple(u, SKOS_COLLECTION) in g.triples
    ensures !Typed(old(g.triples), st.entities[u]) && st.entities[u].Collection? ==>
              g.triples[|old(g.triples)|] == TypeTriple(u, SKOS_COLLECTION)
    ensures !Typed(old(g.triples), st.entities[u]) && st.entities[u].Concept? ==>
              r == Fail(AttributeError) &&
              forall t :: t in g.triples <==> t in old(g.triples) || t == TypeTriple(u, SKOS_COLLECTION)
    ensures !Typed(old(g.triples), st.entities[u]) && st.entities[u].ConceptScheme? ==>
              var e := st.entities[u];
              r == Fail(AttributeError) &&
              forall t :: t in g.triples <==>
                t in old(g.triples) || t == TypeTriple(u, SKOS_COLLECTION) ||
                t == Triple(u, DC_TITLE, Lit(e.title, None)) || t == Triple(u, DC_DESCRIPTION, Plain(e.description))
    ensures r.Pass? ==> Typed(g.triples, st.entities[u])
    ensures r.Pass? && !Typed(old(g.triples), st.entities[u]) ==> CollectionEmitted(g.triples, st, st.entities[u])
    ensures st.entities[u].Collection? && st.entities[u].date.None? ==>
              forall n :: Triple(u, DC_DATE, n) in g.triples ==> Triple(u, DC_DATE, n) in old(g.triples)
    ensures WellKinded(st) && st.entities[u].Collection? ==> r.Pass?
  {
    var e := st.entities[u];
    if ObjectInGraph(e, g) {
      return Pass;
    }
    ghost var ts0 := g.triples;
    Emit(g, st, ts0, TypeTriple(u, SKOS_COLLECTION));
    if e.Concept? {
      return Fail(AttributeError);
    }
    ghost var typed := g.triples;
    r := CollectionBody(g, st, u, ts0);
    PrefixKeeps(typed, g.triples);
  }

  /** The rest of `buildCollection` once the type triple of an object that
      is not a concept has been written: its head, then its members. */
  method CollectionBody(g: Graph, st: Store, u: URI, ghost ts0: seq<Triple>) returns (r: Outcome)
    requires g.Valid() && WellKeyed(st.entities) && u in st.entities && !st.entities[u].Concept?
    requires !Typed(ts0, st.entities[u])
    requires g.triples == if TypeTriple(u, SKOS_COLLECTION) in ts0 then ts0 else ts0 + [TypeTriple(u, SKOS_COLLECTION)]
    requires AddsOnly(st, ts0, g.triples)
    modifies g
    decreases Untyped(ts0, st), 3
    ensures g.Valid() && old(g.triples) <= g.triples && AddsOnly(st, ts0, g.triples)
    ensures r.Fail? ==> r.error == AttributeError
    ensures st.entities[u].ConceptScheme? ==>
              var e := st.entities[u];
              r == Fail(AttributeError) &&
              forall t :: t in g.triples <==>
                t in old(g.triples) || t == Triple(u, DC_TITLE, Lit(e.title, None)) || t == Triple(u, DC_DESCRIPTION, Plain(e.description))
    ensures r.Pass? ==> st.entities[u].Collection? && CollectionEmitted(g.triples, st, st.entities[u])
    ensures st.entities[u].Collection? && st.entities[u].date.None? ==>
              forall n :: Triple(u, DC_DATE, n) in g.triples ==> Triple(u, DC_DATE, n) in ts0
    ensures WellKinded(st) && st.entities[u].Collection? ==> r.Pass?
  {
    var e := st.entities[u];
    ghost var typed := g.triples;
    r := EmitHead(g, st, ts0, e);
    if r.Fail? {
      return;
    }
    ghost var ts1 := g.triples;
    assert typed <= ts1;
    assert ts1[|ts0|] == TypeTriple(u, SKOS_COLLECTION);
    UntypedShrinks(ts0, ts1, st, u);
    r := BuildEdges(g, st, u, Members, ts0);
    if r.Fail? {
      return;
    }
    HeadGrows(ts1, g.triples, e);
    if e.date.None? {
      NoDateWithoutOne(st, ts0, g.triples, u);
    }
  }

  /** The type, title, description and date triples of a collection. */
  ghost predicate CollectionHead(ts: seq<Triple>, e: Entity)
    requires e.Collection?
  {
    var u := e.uri;
    && TypeTriple(u, SKOS_COLLECTION) in ts
    && Triple(u, DC_TITLE, Lit(e.title, None)) in ts
    && Triple(u, DC_DESCRIPTION, Plain(e.description)) in ts
    && (e.date.Some? ==> Triple(u, DC_DATE, Lit(e.date.value.iso, None)) in ts)
  }

  /** The title, description and date part of `buildCollection`, on a
      collection or a concept scheme. */
  method EmitHead(g: Graph, ghost st: Store, ghost ts0: seq<Triple>, e: Entity) returns (r: Outcome)
    requires !e.Concept? && e.uri in st.entities && st.entities[e.uri] == e
    requires g.Valid() && ts0 <= g.triples && AddsOnly(st, ts0, g.triples)
    requires TypeTriple(e.uri, SKOS_COLLECTION) in g.triples
    modifies g
    ensures g.Valid() && old(g.triples) <= g.triples && ts0 <= g.triples && AddsOnly(st, ts0, g.triples)
    ensures r.Pass? <==> e.Collection?
    ensures r.Fail? ==> r.error == AttributeError
    ensures e.Collection? ==> CollectionHead(g.triples, e)
    ensures e.Collection? ==>
              forall t :: t in g.triples <==>
                t in old(g.triples) || t == Triple(e.uri, DC_TITLE, Lit(e.title, None)) ||
                t == Triple(e.uri, DC_DESCRIPTION, Plain(e.description)) ||
                (e.date.Some? && t == Triple(e.uri, DC_DATE, Lit(e.date.value.iso, None)))
    ensures e.ConceptScheme? ==>
              forall t :: t in g.triples <==>
                t in old(g.triples) || t == Triple(e.uri, DC_TITLE, Lit(e.title, None)) ||
                t == Triple(e.uri, DC_DESCRIPTION, Plain(e.description))
  {
    var u := e.uri;
    EmitTitles(g, st, ts0, e);
    if e.ConceptScheme? {
      return Fail(AttributeError);
    }
    if e.date.Some? {
      EmitOne(g, st, ts0, Triple(u, DC_DATE, Lit(e.date.value.iso, None)));
    }
    r := Pass;
  }

  /** The title and description triples `buildCollection` writes first. */
  method EmitTitles(g: Graph, ghost st: Store, ghost ts0: seq<Triple>, e: Entity)
    requires !e.Concept? && e.uri in st.entities
    requires g.Valid() && ts0 <= g.triples && AddsOnly(st, ts0, g.triples)
    modifies g
    ensures g.Valid() && old(g.triples) <= g.triples && ts0 <= g.triples && AddsOnly(st, ts0, g.triples)
    ensures forall t :: t in g.triples <==>
              t in old(g.triples) || t == Triple(e.uri, DC_TITLE, Lit(e.title, None)) ||
              t == Triple(e.uri, DC_DESCRIPTION, Plain(e.description))
  {
    ScalarPredicates();
    EmitOne(g, st, ts0, Triple(e.uri, DC_TITLE, Lit(e.title, None)));
    EmitOne(g, st, ts0, Triple(e.uri, DC_DESCRIPTION, Plain(e.description)));
  }

  /** `Emit`, stated as membership only. */
  method EmitOne(g: Graph, ghost st: Store, ghost ts0: seq<Triple>, t: Triple)
    requires g.Valid() && ts0 <= g.triples && AddsOnly(st, ts0, g.triples) && Emittable(st, t)
    modifies g
    ensures g.Valid() && old(g.triples) <= g.triples && ts0 <= g.triples && AddsOnly(st, ts0, g.triples)
    ensures forall x :: x in g.triples <==> x in old(g.triples) || x == t
  {
    ghost var before := g.triples;
    Emit(g, st, ts0, t);
    EmitMembers(before, g.triples, t);
  }

  /** What one `graph.add` leaves in the graph, as membership. */
  lemma EmitMembers(before: seq<Triple>, after: seq<Triple>, t: Triple)
    requires after == if t in before then before else before + [t]
    ensures forall x :: x in after <==> x in before || x == t
  {
  }

  lemma HeadGrows(ts0: seq<Triple>, ts1: seq<Triple>, e: Entity)
    requires e.Collection? && ts0 <= ts1 && CollectionHead(ts0, e)
    ensures CollectionHead(ts1, e)
  {
    PrefixKeeps(ts0, ts1);
  }

  /** `build(objects, graph)`: objects with a `prefLabel` (concepts) go to
      `buildConcept`, all others to `buildCollection`; the first failure
      ends the build. */
  method Build(g: Graph, st: Store, objects: seq<URI>) returns (r: Outcome)
    requires g.Valid() && WellKeyed(st.entities)
    requires forall i :: 0 <= i < |objects| ==> objects[i] in st.entities
    modifies g
    ensures g.Valid() && old(g.triples) <= g.triples && AddsOnly(st, old(g.triples), g.triples)
    ensures r.Fail? ==> r.error == AttributeError
    ensures r.Pass? ==> forall i :: 0 <= i < |objects| ==> Typed(g.triples, st.entities[objects[i]])
    ensures WellKinded(st) && (forall i :: 0 <= i < |objects| ==> !st.entities[objects[i]].ConceptScheme?) ==> r.Pass?
    ensures (exists i :: 0 <= i < |objects| && st.entities[objects[i]].ConceptScheme? &&
                         !Typed(old(g.triples), st.entities[objects[i]])) ==> r.Fail?
  {
    for i := 0 to |objects|
      invariant g.Valid() && old(g.triples) <= g.triples && AddsOnly(st, old(g.triples), g.triples)
      invariant forall j :: 0 <= j < i ==> Typed(g.triples, st.entities[objects[j]])
    {
      ghost var before := g.triples;
      if st.entities[objects[i]].Concept? {
        r := BuildConcept(g, st, objects[i]);
      } else {
        r := BuildCollection(g, st, objects[i]);
      }
      if r.Fail? {
        return;
      }
      PrefixKeeps(before, g.triples);
    }
    forall i | 0 <= i < |objects| && st.entities[objects[i]].ConceptScheme?
      ensures Typed(old(g.triples), st.entities[objects[i]])
    {
      SchemeNeverTyped(st, old(g.triples), g.triples, st.entities[objects[i]]);
    }
    r := Pass;
  }

  /** `build(objects)` with no graph: a new, empty graph is built. */
  method BuildNew(st: Store, objects: seq<URI>) returns (g: Graph, r: Outcome)
    requires WellKeyed(st.entities)
    requires forall i :: 0 <= i < |objects| ==> objects[i] in st.entities
    ensures fresh(g) && g.Valid()
    ensures forall t :: t in g.triples ==> Emittable(st, t)
    ensures r.Fail? ==> r.error == AttributeError
    ensures r.Pass? ==> forall i :: 0 <= i < |objects| ==> Typed(g.triples, st.entities[objects[i]])
    ensures WellKinded(st) && (forall i :: 0 <= i < |objects| ==> !st.entities[objects[i]].ConceptScheme?) ==> r.Pass?
    ensures (exists i :: 0 <= i < |objects| && st.entities[objects[i]].ConceptScheme?) ==> r.Fail?
  {
    g := new Graph();
    r := Build(g, st, objects);
  }
}
