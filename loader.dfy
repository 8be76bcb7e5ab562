/** `RDFLoader`: turning a (resolved) graph into the object model, and the
    mapping views over the result.

    Loading is specified by the folds `CreateAll` (materialise one entity
    per typed subject), `WireAll` (add one relation edge per triple) and
    their composition `LoadGraph`; the loader's loops are proved to
    compute exactly these. */
module Loader {
  import opened Base
  import opened Rdf
  import opened Entities
  import opened Labels
  import opened Resolver
  import opened ObjectModel
  import opened ConceptSet

  const TITLE_PREDICATES: seq<URI> := [DCTERMS_TITLE, DC_TITLE]
  const DESCRIPTION_PREDICATES: seq<URI> := [DCTERMS_DESCRIPTION, DC_DESCRIPTION]
  const DATE_PREDICATES: seq<URI> := [DCTERMS_DATE, DC_DATE]

  /** The relations `_loadConcepts` wires, in the order of its `attrs`
      table; `related` and `synonyms` add to the left store. */
  const CONCEPT_ATTRS: seq<(URI, Relation)> :=
    [(SKOS_NARROWER, Narrower), (SKOS_BROADER, Broader), (SKOS_RELATED, RelatedLeft),
     (SKOS_EXACT_MATCH, SynonymsLeft), (OWL_SAME_AS, SynonymsLeft)]

  /** The relation `_loadCollections` wires. */
  const COLLECTION_ATTRS: seq<(URI, Relation)> := [(SKOS_MEMBER, Members)]

  /** The default `_loadConcepts` hands to `_preferredLabel`: one entry
      with no property whose value is "". */
  const DEFAULT_LABEL: seq<Labelled> := [Labelled(None, Lit("", None))]

  // ---- materialisation ----

  datatype Kind = ConceptKind | SchemeKind | CollectionKind

  function KindOf(e: Entity): Kind {
    match e
    case Concept(_, _, _, _, _, _) => ConceptKind
    case ConceptScheme(_, _, _) => SchemeKind
    case Collection(_, _, _, _) => CollectionKind
  }

  function Normalised(subjects: seq<URI>, normalise: string -> string): set<URI> {
    set s | s in subjects :: normalise(s)
  }

  lemma NormalisedStep(subjects: seq<URI>, normalise: string -> string, i: nat)
    requires i < |subjects|
    ensures Normalised(subjects[..i + 1], normalise) == Normalised(subjects[..i], normalise) + {normalise(subjects[i])}
  {
    assert subjects[..i + 1] == subjects[..i] + [subjects[i]];
  }

  /** `_iterateType(graph, cls)`, normalised. */
  function TypedUris(g: seq<Triple>, normalise: string -> string, cls: URI): set<URI> {
    Normalised(Subjects(g, RDF_TYPE, Iri(cls)), normalise)
  }

  /** The label `_loadConcepts` may take for `s`: an eligible prefLabel;
      else, when there is none, an eligible rdfs:label; else "". */
  ghost predicate LabelFrom(g: seq<Triple>, s: URI, lang: Option<string>, v: string) {
    || (exists t :: Eligible(g, s, SKOS_PREF_LABEL, lang, Lit(v, t)))
    || ((forall n :: !Eligible(g, s, SKOS_PREF_LABEL, lang, n)) &&
        exists t :: Eligible(g, s, RDFS_LABEL, lang, Lit(v, t)))
    || ((forall n :: !Eligible(g, s, SKOS_PREF_LABEL, lang, n) && !Eligible(g, s, RDFS_LABEL, lang, n)) &&
        v == "")
  }

  /** The `Concept` `_loadConcepts` creates for subject `s`: the label is
      the value of the first entry `_preferredLabel` returns, and a URI
      reference there has no value (AttributeError). What the concept holds
      is stated by `ConceptCreation`. */
  function MakeConcept(g: seq<Triple>, normalise: string -> string, s: URI, lang: Option<string>): (r: Result<Entity>)
    ensures r.Ok? ==> r.value.Concept? && r.value.uri == normalise(s)
    ensures r.Err? ==> r.error == AttributeError
  {
    var labels :- PreferredLabel(g, s, lang, DEFAULT_LABEL);
    var first := labels[0].node;
    if first.Iri? then Err(AttributeError)
    else
      Ok(Concept(normalise(s), first.lexical,
                 ValueForLang(g, s, SKOS_DEFINITION, lang),
                 Some(TextOr(Value(g, s, SKOS_NOTATION))),
                 ValueForLang(g, s, SKOS_ALT_LABEL, lang),
                 Some(TextOr(Value(g, s, SKOS_NOTE)))))
  }

  /** The concept created for `s`: an eligible prefLabel, else an eligible
      rdfs:label, else ""; definition and altLabel per language; notation
      and note are `str(graph.value(...))`, so a missing one is the text
      "None". */
  lemma ConceptCreation(g: seq<Triple>, normalise: string -> string, s: URI, lang: Option<string>)
    ensures var r := MakeConcept(g, normalise, s, lang);
            && (r.Ok? ==> LabelFrom(g, s, lang, r.value.prefLabel))
            && (r.Ok? ==> r.value.definition == ValueForLang(g, s, SKOS_DEFINITION, lang) &&
                          r.value.altLabel == ValueForLang(g, s, SKOS_ALT_LABEL, lang))
            && (r.Ok? ==> r.value.notation == Some(TextOr(Value(g, s, SKOS_NOTATION))) &&
                          r.value.note == Some(TextOr(Value(g, s, SKOS_NOTE))))
  {
    if PreferredLabel(g, s, lang, DEFAULT_LABEL).Ok? {
      PreferredLabelChoice(g, s, lang, DEFAULT_LABEL);
    }
  }

  /** Creating the concept for `s` fails only because a label object of
      `s` is a URI, and always succeeds when all of them are literals. */
  lemma ConceptCreationFails(g: seq<Triple>, normalise: string -> string, s: URI, lang: Option<string>)
    ensures var r := MakeConcept(g, normalise, s, lang);
            && (r.Err? ==> exists n :: (Triple(s, SKOS_PREF_LABEL, n) in g || Triple(s, RDFS_LABEL, n) in g) && n.Iri?)
            && ((forall n :: Triple(s, SKOS_PREF_LABEL, n) in g || Triple(s, RDFS_LABEL, n) in g ==> n.Lit?) ==> r.Ok?)
  {
    var labels := PreferredLabel(g, s, lang, DEFAULT_LABEL);
    if labels.Ok? {
      PreferredLabelChoice(g, s, lang, DEFAULT_LABEL);
      var first := labels.value[0].node;
      assert first == Lit("", None) || Triple(s, SKOS_PREF_LABEL, first) in g || Triple(s, RDFS_LABEL, first) in g;
    }
  }

  /** The `Collection` `_loadCollections` creates for subject `s`; its
      attributes are stated by `CollectionCreation`. */
  function MakeCollection(g: seq<Triple>, normalise: string -> string, parseDate: string -> Option<Date>, s: URI): (r: Entity)
    ensures r.Collection? && r.uri == normalise(s)
  {
    var date := ValueFromPredicates(g, s, DATE_PREDICATES);
    Collection(normalise(s),
               TextOr(ValueFromPredicates(g, s, TITLE_PREDICATES)),
               Some(TextOr(ValueFromPredicates(g, s, DESCRIPTION_PREDICATES))),
               if date.Some? then parseDate(Text(date.value)) else None)
  }

  /** The collection created for `s`: dcterms wins over dc for each of
      title, description and date. A title or description neither
      predicate yields is the text "None"; the date is parsed only when one
      is present, and is absent otherwise. */
  lemma CollectionCreation(g: seq<Triple>, normalise: string -> string, parseDate: string -> Option<Date>, s: URI)
    ensures var r := MakeCollection(g, normalise, parseDate, s);
            var t1, t2 := Value(g, s, DCTERMS_TITLE), Value(g, s, DC_TITLE);
            var d1, d2 := Value(g, s, DCTERMS_DESCRIPTION), Value(g, s, DC_DESCRIPTION);
            var a1, a2 := Value(g, s, DCTERMS_DATE), Value(g, s, DC_DATE);
            && (Yields(t1) ==> r.title == Text(t1.value))
            && (!Yields(t1) && Yields(t2) ==> r.title == Text(t2.value))
            && (!Yields(t1) && !Yields(t2) ==> r.title == "None")
            && (Yields(d1) ==> r.description == Some(Text(d1.value)))
            && (!Yields(d1) && Yields(d2) ==> r.description == Some(Text(d2.value)))
            && (!Yields(d1) && !Yields(d2) ==> r.description == Some("None"))
            && (Yields(a1) ==> r.date == parseDate(Text(a1.value)))
            && (!Yields(a1) && Yields(a2) ==> r.date == parseDate(Text(a2.value)))
            && (!Yields(a1) && !Yields(a2) ==> r.date.None?)
  {
    FirstOfTwo(g, s, DCTERMS_TITLE, DC_TITLE);
    FirstOfTwo(g, s, DCTERMS_DESCRIPTION, DC_DESCRIPTION);
    FirstOfTwo(g, s, DCTERMS_DATE, DC_DATE);
  }

  /** The `ConceptScheme` `_loadConceptSchemes` creates for subject `s`;
      its attributes are stated by `SchemeCreation`. */
  function MakeScheme(g: seq<Triple>, normalise: string -> string, s: URI): (r: Entity)
    ensures r.ConceptScheme? && r.uri == normalise(s)
  {
    ConceptScheme(normalise(s),
                  TextOr(ValueFromPredicates(g, s, TITLE_PREDICATES)),
                  Some(TextOr(ValueFromPredicates(g, s, DESCRIPTION_PREDICATES))))
  }

  /** The scheme created for `s`: title and description as for a
      collection. */
  lemma SchemeCreation(g: seq<Triple>, normalise: string -> string, s: URI)
    ensures var r := MakeScheme(g, normalise, s);
            var t1, t2 := Value(g, s, DCTERMS_TITLE), Value(g, s, DC_TITLE);
            var d1, d2 := Value(g, s, DCTERMS_DESCRIPTION), Value(g, s, DC_DESCRIPTION);
            && (Yields(t1) ==> r.title == Text(t1.value))
            && (!Yields(t1) && Yields(t2) ==> r.title == Text(t2.value))
            && (!Yields(t1) && !Yields(t2) ==> r.title == "None")
            && (Yields(d1) ==> r.description == Some(Text(d1.value)))
            && (!Yields(d1) && Yields(d2) ==> r.description == Some(Text(d2.value)))
            && (!Yields(d1) && !Yields(d2) ==> r.description == Some("None"))
  {
    FirstOfTwo(g, s, DCTERMS_TITLE, DC_TITLE);
    FirstOfTwo(g, s, DCTERMS_DESCRIPTION, DC_DESCRIPTION);
  }

  /** The creation loop of each `_load*` method: `cache[uri] = make(s)` for
      every subject in order, stopping at the first failure. */
  function CreateAll(subjects: seq<URI>, m: map<URI, Entity>, make: URI -> Result<Entity>): Result<map<URI, Entity>> {
    if subjects == [] then Ok(m)
    else
      var e :- make(subjects[0]);
      CreateAll(subjects[1..], m[e.uri := e], make)
  }

  /** The creation loop fails exactly when `make` fails on one of the
      subjects. */
  lemma {:induction false} CreateAllFails(subjects: seq<URI>, m: map<URI, Entity>, make: URI -> Result<Entity>)
    ensures CreateAll(subjects, m, make).Err? <==> exists s :: s in subjects && make(s).Err?
  {
    if subjects != [] && make(subjects[0]).Ok? {
      var e := make(subjects[0]).value;
      CreateAllFails(subjects[1..], m[e.uri := e], make);
      assert forall s :: s in subjects ==> s == subjects[0] || s in subjects[1..];
    }
  }

  /** When `make` builds an entity of one kind under the normalised
      subject, a successful creation loop caches exactly the normalised
      subjects on top of `m`, each with an entity of that kind, keeps every
      other entry of `m`, and stores every entity under its own URI. The
      entity under each normalised subject is what `make` built for one of
      the subjects normalising to it. */
  lemma {:induction false} CreateAllShape(subjects: seq<URI>, m: map<URI, Entity>, make: URI -> Result<Entity>,
                                          normalise: string -> string, kind: Kind)
    requires forall s :: make(s).Ok? ==> make(s).value.uri == normalise(s) && KindOf(make(s).value) == kind
    requires CreateAll(subjects, m, make).Ok?
    ensures var r := CreateAll(subjects, m, make).value;
            && r.Keys == m.Keys + Normalised(subjects, normalise)
            && (forall s :: s in subjects ==> KindOf(r[normalise(s)]) == kind)
            && (forall k :: k in m && k !in Normalised(subjects, normalise) ==> r[k] == m[k])
            && (WellKeyed(m) ==> WellKeyed(r))
            && (forall k :: k in Normalised(subjects, normalise) ==>
                  exists s :: s in subjects && normalise(s) == k && make(s) == Ok(r[k]))
  {
    CreateAllKeys(subjects, m, make, normalise, kind);
    CreateAllOrigin(subjects, m, make, normalise);
  }

  lemma {:induction false} CreateAllKeys(subjects: seq<URI>, m: map<URI, Entity>, make: URI -> Result<Entity>,
                                         normalise: string -> string, kind: Kind)
    requires forall s :: make(s).Ok? ==> make(s).value.uri == normalise(s) && KindOf(make(s).value) == kind
    requires CreateAll(subjects, m, make).Ok?
    ensures var r := CreateAll(subjects, m, make).value;
            && r.Keys == m.Keys + Normalised(subjects, normalise)
            && (forall s :: s in subjects ==> KindOf(r[normalise(s)]) == kind)
            && (forall k :: k in m && k !in Normalised(subjects, normalise) ==> r[k] == m[k])
            && (WellKeyed(m) ==> WellKeyed(r))
  {
    if subjects != [] {
      var e := make(subjects[0]).value;
      var rest := subjects[1..];
      CreateAllKeys(rest, m[e.uri := e], make, normalise, kind);
      assert CreateAll(subjects, m, make) == CreateAll(rest, m[e.uri := e], make);
      assert forall s :: s in subjects ==> s == subjects[0] || s in rest;
      assert Normalised(subjects, normalise) == {normalise(subjects[0])} + Normalised(rest, normalise);
    }
  }

  lemma {:induction false} CreateAllOrigin(subjects: seq<URI>, m: map<URI, Entity>, make: URI -> Result<Entity>,
                                           normalise: string -> string)
    requires forall s :: make(s).Ok? ==> make(s).value.uri == normalise(s)
    requires CreateAll(subjects, m, make).Ok?
    ensures var r := CreateAll(subjects, m, make).value;
            forall k :: k in Normalised(subjects, normalise) ==>
              k in r && exists s :: s in subjects && normalise(s) == k && make(s) == Ok(r[k])
  {
    if subjects != [] {
      var e := make(subjects[0]).value;
      var rest := subjects[1..];
      CreateAllOrigin(rest, m[e.uri := e], make, normalise);
      var r := CreateAll(rest, m[e.uri := e], make).value;
      assert CreateAll(subjects, m, make) == Ok(r);
      forall k | k in Normalised(subjects, normalise)
        ensures k in r && exists s :: s in subjects && normalise(s) == k && make(s) == Ok(r[k])
      {
        if k in Normalised(rest, normalise) {
          var s :| s in rest && normalise(s) == k && make(s) == Ok(r[k]);
          assert s in subjects;
        } else {
          var s :| s in subjects && normalise(s) == k;
          assert s == subjects[0];
          CreateAllKeeps(rest, m[e.uri := e], make, normalise, k);
          assert subjects[0] in subjects;
        }
      }
    }
  }

  /** An entry whose key no remaining subject normalises to survives. */
  lemma {:induction false} CreateAllKeeps(subjects: seq<URI>, m: map<URI, Entity>, make: URI -> Result<Entity>,
                                          normalise: string -> string, k: URI)
    requires forall s :: make(s).Ok? ==> make(s).value.uri == normalise(s)
    requires CreateAll(subjects, m, make).Ok? && k in m && k !in Normalised(subjects, normalise)
    ensures k in CreateAll(subjects, m, make).value && CreateAll(subjects, m, make).value[k] == m[k]
  {
    if subjects != [] {
      var e := make(subjects[0]).value;
      assert subjects[0] in subjects;
      assert forall s :: s in subjects[1..] ==> s in subjects;
      CreateAllKeeps(subjects[1..], m[e.uri := e], make, normalise, k);
    }
  }

  // ---- wiring ----

  /** The relation collections each kind of entity has. */
  predicate HasRelation(e: Entity, rel: Relation) {
    match e
    case Concept(_, _, _, _, _, _) => rel !in {Members, SchemeConcepts}
    case Collection(_, _, _, _) => rel == Members
    case ConceptScheme(_, _, _) => rel == SchemeConcepts
  }

  /** One step of a wiring loop for the pair (subject uri `s`, object uri
      `o`): skipped when `o` is not cached; the subject lookup raises
      KeyError; an entity without the relation raises AttributeError; the
      relationship accepts only concepts. */
  function Wire(st: Store, rel: Relation, s: URI, o: URI): (r: Result<Store>)
    ensures r.Err? <==> Faulty(st.entities, rel, (s, o))
    ensures o !in st.entities ==> r == Ok(st)
    ensures r == Err(KeyError) <==> o in st.entities && s !in st.entities
    ensures r.Ok? && o in st.entities ==> r.value == Link(st, rel, s, o)
  {
    if o !in st.entities then Ok(st)
    else if s !in st.entities then Err(KeyError)
    else if !HasRelation(st.entities[s], rel) then Err(AttributeError)
    else if !st.entities[o].Concept? then Err(Rejected)
    else Ok(Link(st, rel, s, o))
  }

  /** A pair whose step fails. */
  predicate Faulty(entities: map<URI, Entity>, rel: Relation, q: (URI, URI)) {
    q.1 in entities &&
    (q.0 !in entities || !HasRelation(entities[q.0], rel) || !entities[q.1].Concept?)
  }

  /** The forward edges the pairs whose object is among the cached `keys`
      contribute. */
  function Linked(keys: set<URI>, rel: Relation, pairs: seq<(URI, URI)>): set<Edge> {
    set q | q in pairs && q.1 in keys :: Edge(rel, q.0, q.1)
  }

  /** Their back-references. */
  function Backlinked(keys: set<URI>, rel: Relation, pairs: seq<(URI, URI)>): set<Edge> {
    set q | q in pairs && q.1 in keys :: Edge(Inverse(rel), q.1, q.0)
  }

  /** The inner wiring loop over the pairs of one predicate. Entities are
      never created by wiring; it fails exactly when some pair with a
      cached object is faulty; otherwise it adds exactly one edge and its
      back-reference per such pair. */
  function WireAll(st: Store, rel: Relation, pairs: seq<(URI, URI)>): (r: Result<Store>)
    ensures r.Err? <==> exists q :: q in pairs && Faulty(st.entities, rel, q)
    ensures r.Ok? ==> r.value.entities == st.entities
    ensures r.Ok? ==> r.value.edges == st.edges + Linked(st.entities.Keys, rel, pairs) + Backlinked(st.entities.Keys, rel, pairs)
    decreases |pairs|
  {
    if pairs == [] then Ok(st)
    else
      var q := pairs[0];
      var st1 :- Wire(st, rel, q.0, q.1);
      assert st1.entities == st.entities;
      var r := WireAll(st1, rel, pairs[1..]);
      assert forall p :: p in pairs ==> p == q || p in pairs[1..];
      LinkedStep(st.entities.Keys, rel, pairs);
      r
  }

  /** A successful wiring loop keeps the store consistent and closed: each
      edge it adds comes with its back-reference, and both ends of a wired
      pair are cached. */
  lemma WireAllKeepsWellFormed(st: Store, rel: Relation, pairs: seq<(URI, URI)>)
    requires WireAll(st, rel, pairs).Ok?
    ensures Consistent(st) ==> Consistent(WireAll(st, rel, pairs).value)
    ensures Closed(st) ==> Closed(WireAll(st, rel, pairs).value)
  {
    var r := WireAll(st, rel, pairs).value;
    var keys := st.entities.Keys;
    if Consistent(st) {
      forall e | e in r.edges
        ensures Flip(e) in r.edges
      {
        if e in Linked(keys, rel, pairs) {
          var q :| q in pairs && q.1 in keys && e == Edge(rel, q.0, q.1);
          assert Flip(e) in Backlinked(keys, rel, pairs);
        } else if e in Backlinked(keys, rel, pairs) {
          var q :| q in pairs && q.1 in keys && e == Edge(Inverse(rel), q.1, q.0);
          InverseIsInvolution();
          assert Flip(e) in Linked(keys, rel, pairs);
        }
      }
    }
    if Closed(st) {
      forall e | e in r.edges
        ensures e.source in r.entities && e.target in r.entities
      {
        if e !in st.edges {
          var q :| q in pairs && q.1 in keys && (e == Edge(rel, q.0, q.1) || e == Edge(Inverse(rel), q.1, q.0));
          assert !Faulty(st.entities, rel, q);
        }
      }
    }
  }

  /** The edges of a list of pairs: those of its head, then of its tail. */
  lemma LinkedStep(keys: set<URI>, rel: Relation, pairs: seq<(URI, URI)>)
    requires pairs != []
    ensures Linked(keys, rel, pairs) ==
              (if pairs[0].1 in keys then {Edge(rel, pairs[0].0, pairs[0].1)} else {}) + Linked(keys, rel, pairs[1..])
    ensures Backlinked(keys, rel, pairs) ==
              (if pairs[0].1 in keys then {Edge(Inverse(rel), pairs[0].1, pairs[0].0)} else {}) + Backlinked(keys, rel, pairs[1..])
  {
    assert forall p :: p in pairs <==> p == pairs[0] || p in pairs[1..];
  }

  /** `graph.subject_objects(predicate)`, both ends normalised: one pair
      per triple with that predicate, and every such triple gives one. */
  function Pairs(g: seq<Triple>, normalise: string -> string, p: URI): (r: seq<(URI, URI)>)
    ensures |r| == |SubjectObjects(g, p)|
    ensures forall q :: q in r ==> exists s, o :: Triple(s, p, o) in g && q == (normalise(s), normalise(Text(o)))
    ensures forall s, o :: Triple(s, p, o) in g ==> (normalise(s), normalise(Text(o))) in r
  {
    var so := SubjectObjects(g, p);
    var r := seq(|so|, i requires 0 <= i < |so| => (normalise(so[i].0), normalise(Text(so[i].1))));
    assert forall i :: 0 <= i < |so| ==> r[i] == (normalise(so[i].0), normalise(Text(so[i].1)));
    forall q | q in r
      ensures exists s, o :: Triple(s, p, o) in g && q == (normalise(s), normalise(Text(o)))
    {
      var i :| 0 <= i < |r| && r[i] == q;
      assert so[i] in so;
    }
    forall s, o | Triple(s, p, o) in g
      ensures (normalise(s), normalise(Text(o))) in r
    {
      var i :| 0 <= i < |so| && so[i] == (s, o);
      assert r[i] == (normalise(s), normalise(Text(o)));
    }
    r
  }

  /** The edges the wiring loops add for the (predicate, relation) entries
      of `attrs` over a cache with the given keys: for each entry, one edge
      per pair of the predicate whose object is cached, and its
      back-reference. */
  function AttrEdges(keys: set<URI>, g: seq<Triple>, normalise: string -> string, attrs: seq<(URI, Relation)>): set<Edge>
    decreases |attrs|
  {
    if attrs == [] then {}
    else
      var pairs := Pairs(g, normalise, attrs[0].0);
      Linked(keys, attrs[0].1, pairs) + Backlinked(keys, attrs[0].1, pairs) + AttrEdges(keys, g, normalise, attrs[1..])
  }

  /** The outer wiring loop: each (predicate, relation) entry in order. */
  function WireAttrs(st: Store, g: seq<Triple>, normalise: string -> string, attrs: seq<(URI, Relation)>): Result<Store>
    decreases |attrs|
  {
    if attrs == [] then Ok(st)
    else
      var st1 :- WireAll(st, attrs[0].1, Pairs(g, normalise, attrs[0].0));
      WireAttrs(st1, g, normalise, attrs[1..])
  }

  /** The outer loop keeps the entities and adds exactly the edges of
      `AttrEdges`, and it fails exactly when some pair of some entry is
      faulty. */
  lemma WireAttrsResult(st: Store, g: seq<Triple>, normalise: string -> string, attrs: seq<(URI, Relation)>)
    ensures var r := WireAttrs(st, g, normalise, attrs);
            && (r.Err? <==> exists k, q :: 0 <= k < |attrs| && q in Pairs(g, normalise, attrs[k].0) && Faulty(st.entities, attrs[k].1, q))
            && (r.Ok? ==> r.value.entities == st.entities)
            && (r.Ok? ==> r.value.edges == st.edges + AttrEdges(st.entities.Keys, g, normalise, attrs))
  {
    if WireAttrs(st, g, normalise, attrs).Ok? {
      WireAttrsEdges(st, g, normalise, attrs);
    }
    WireAttrsFails(st, g, normalise, attrs);
  }

  lemma {:induction false} WireAttrsEdges(st: Store, g: seq<Triple>, normalise: string -> string, attrs: seq<(URI, Relation)>)
    requires WireAttrs(st, g, normalise, attrs).Ok?
    ensures WireAttrs(st, g, normalise, attrs).value.entities == st.entities
    ensures WireAttrs(st, g, normalise, attrs).value.edges == st.edges + AttrEdges(st.entities.Keys, g, normalise, attrs)
    decreases |attrs|
  {
    if attrs != [] {
      var w := WireAll(st, attrs[0].1, Pairs(g, normalise, attrs[0].0));
      WireAttrsEdges(w.value, g, normalise, attrs[1..]);
    }
  }

  lemma {:induction false} WireAttrsFails(st: Store, g: seq<Triple>, normalise: string -> string, attrs: seq<(URI, Relation)>)
    ensures WireAttrs(st, g, normalise, attrs).Err? <==>
            exists k, q :: 0 <= k < |attrs| && q in Pairs(g, normalise, attrs[k].0) && Faulty(st.entities, attrs[k].1, q)
    decreases |attrs|
  {
    if attrs != [] {
      var w := WireAll(st, attrs[0].1, Pairs(g, normalise, attrs[0].0));
      if w.Ok? {
        WireAttrsFails(w.value, g, normalise, attrs[1..]);
        if WireAttrs(st, g, normalise, attrs).Err? {
          var k, q :| 0 <= k < |attrs[1..]| && q in Pairs(g, normalise, attrs[1..][k].0) && Faulty(w.value.entities, attrs[1..][k].1, q);
          assert attrs[1..][k] == attrs[k + 1];
        }
        forall k, q | 0 <= k < |attrs| && q in Pairs(g, normalise, attrs[k].0) && Faulty(st.entities, attrs[k].1, q)
          ensures WireAttrs(st, g, normalise, attrs).Err?
        {
          if k > 0 {
            assert attrs[1..][k - 1] == attrs[k];
          }
        }
      } else {
        var q :| q in Pairs(g, normalise, attrs[0].0) && Faulty(st.entities, attrs[0].1, q);
      }
    }
  }

  /** Wiring a whole attribute table keeps a store consistent and closed. */
  lemma {:induction false} WireAttrsKeepsWellFormed(st: Store, g: seq<Triple>, normalise: string -> string,
                                                    attrs: seq<(URI, Relation)>)
    requires WireAttrs(st, g, normalise, attrs).Ok?
    ensures Consistent(st) ==> Consistent(WireAttrs(st, g, normalise, attrs).value)
    ensures Closed(st) ==> Closed(WireAttrs(st, g, normalise, attrs).value)
    decreases |attrs|
  {
    if attrs != [] {
      var pairs := Pairs(g, normalise, attrs[0].0);
      WireAllKeepsWellFormed(st, attrs[0].1, pairs);
      WireAttrsKeepsWellFormed(WireAll(st, attrs[0].1, pairs).value, g, normalise, attrs[1..]);
    }
  }

  ghost predicate WellFormed(st: Store) {
    WellKeyed(st.entities) && Consistent(st) && Closed(st)
  }

  function ConceptMaker(g: seq<Triple>, normalise: string -> string, lang: Option<string>): URI -> Result<Entity> {
    s => MakeConcept(g, normalise, s, lang)
  }

  function CollectionMaker(g: seq<Triple>, normalise: string -> string, parseDate: string -> Option<Date>): URI -> Result<Entity> {
    s => Ok(MakeCollection(g, normalise, parseDate, s))
  }

  function SchemeMaker(g: seq<Triple>, normalise: string -> string): URI -> Result<Entity> {
    s => Ok(MakeScheme(g, normalise, s))
  }

  /** `_loadConcepts` on an empty cache. */
  function ConceptPhase(g: seq<Triple>, normalise: string -> string, lang: Option<string>): Result<Store> {
    var m :- CreateAll(Subjects(g, RDF_TYPE, Iri(SKOS_CONCEPT)), map[], ConceptMaker(g, normalise, lang));
    WireAttrs(Store(m, {}), g, normalise, CONCEPT_ATTRS)
  }

  /** `_loadCollections` on the cache left by `_loadConcepts`. */
  function CollectionPhase(g: seq<Triple>, normalise: string -> string, parseDate: string -> Option<Date>, st: Store): Result<Store> {
    var m :- CreateAll(Subjects(g, RDF_TYPE, Iri(SKOS_COLLECTION)), st.entities, CollectionMaker(g, normalise, parseDate));
    WireAttrs(Store(m, st.edges), g, normalise, COLLECTION_ATTRS)
  }

  /** `_loadConceptSchemes`: schemes are created but not wired. */
  function SchemePhase(g: seq<Triple>, normalise: string -> string, st: Store): Result<Store> {
    var m :- CreateAll(Subjects(g, RDF_TYPE, Iri(SKOS_CONCEPT_SCHEME)), st.entities, SchemeMaker(g, normalise));
    Ok(Store(m, st.edges))
  }

  /** The three phases of `load` after resolution, in order. */
  function LoadGraph(g: seq<Triple>, normalise: string -> string, parseDate: string -> Option<Date>,
                     lang: Option<string>): Result<Store> {
    var st1 :- ConceptPhase(g, normalise, lang);
    var st2 :- CollectionPhase(g, normalise, parseDate, st1);
    SchemePhase(g, normalise, st2)
  }

  /** `_loadConcepts` caches exactly the typed concepts, each the concept
      `MakeConcept` builds for a subject typed `skos:Concept`, and wires
      them well-formed: the edges are exactly those of its `attrs` table
      between cached concepts. */
  lemma ConceptPhaseShape(g: seq<Triple>, normalise: string -> string, lang: Option<string>)
    requires ConceptPhase(g, normalise, lang).Ok?
    ensures var st := ConceptPhase(g, normalise, lang).value;
            && st.entities.Keys == TypedUris(g, normalise, SKOS_CONCEPT)
            && WellFormed(st)
            && (forall u :: u in st.entities ==> st.entities[u].Concept?)
            && (forall u :: u in st.entities ==>
                  exists s :: s in Subjects(g, RDF_TYPE, Iri(SKOS_CONCEPT)) && normalise(s) == u &&
                              MakeConcept(g, normalise, s, lang) == Ok(st.entities[u]))
            && st.edges == AttrEdges(TypedUris(g, normalise, SKOS_CONCEPT), g, normalise, CONCEPT_ATTRS)
  {
    var subjects := Subjects(g, RDF_TYPE, Iri(SKOS_CONCEPT));
    var make := ConceptMaker(g, normalise, lang);
    CreateAllShape(subjects, map[], make, normalise, ConceptKind);
    var m := CreateAll(subjects, map[], make).value;
    var r := WireAttrs(Store(m, {}), g, normalise, CONCEPT_ATTRS);
    assert ConceptPhase(g, normalise, lang) == r;
    WireAttrsResult(Store(m, {}), g, normalise, CONCEPT_ATTRS);
    WireAttrsKeepsWellFormed(Store(m, {}), g, normalise, CONCEPT_ATTRS);
    forall u | u in m ensures m[u].Concept? {
      var s :| s in subjects && normalise(s) == u;
    }
  }

  /** `_loadCollections` adds the typed collections on top of its input,
      each the collection `MakeCollection` builds for a subject typed
      `skos:Collection`, overwriting entries with the same URI, and keeps
      every other cached entry. */
  lemma CollectionPhaseEntities(g: seq<Triple>, normalise: string -> string, parseDate: string -> Option<Date>, st: Store)
    requires CollectionPhase(g, normalise, parseDate, st).Ok?
    ensures var r := CollectionPhase(g, normalise, parseDate, st).value;
            && r.entities.Keys == st.entities.Keys + TypedUris(g, normalise, SKOS_COLLECTION)
            && (forall u :: u in TypedUris(g, normalise, SKOS_COLLECTION) ==> r.entities[u].Collection?)
            && (forall u :: u in st.entities && u !in TypedUris(g, normalise, SKOS_COLLECTION) ==> r.entities[u] == st.entities[u])
            && (forall u :: u in TypedUris(g, normalise, SKOS_COLLECTION) ==>
                  exists s :: s in Subjects(g, RDF_TYPE, Iri(SKOS_COLLECTION)) && normalise(s) == u &&
                              r.entities[u] == MakeCollection(g, normalise, parseDate, s))
  {
    var subjects := Subjects(g, RDF_TYPE, Iri(SKOS_COLLECTION));
    var make := CollectionMaker(g, normalise, parseDate);
    CreateAllShape(subjects, st.entities, make, normalise, CollectionKind);
    var m := CreateAll(subjects, st.entities, make).value;
    assert CollectionPhase(g, normalise, parseDate, st) == WireAttrs(Store(m, st.edges), g, normalise, COLLECTION_ATTRS);
    WireAttrsResult(Store(m, st.edges), g, normalise, COLLECTION_ATTRS);
    forall u | u in TypedUris(g, normalise, SKOS_COLLECTION) ensures m[u].Collection? {
      var s :| s in subjects && normalise(s) == u;
    }
  }

  /** It adds exactly the `skos:member` edges whose member is cached, and
      keeps the store well-formed. */
  lemma CollectionPhaseWiring(g: seq<Triple>, normalise: string -> string, parseDate: string -> Option<Date>, st: Store)
    requires WellFormed(st) && CollectionPhase(g, normalise, parseDate, st).Ok?
    ensures var r := CollectionPhase(g, normalise, parseDate, st).value;
            && WellFormed(r)
            && r.edges == st.edges + AttrEdges(st.entities.Keys + TypedUris(g, normalise, SKOS_COLLECTION), g, normalise, COLLECTION_ATTRS)
  {
    var subjects := Subjects(g, RDF_TYPE, Iri(SKOS_COLLECTION));
    var make := CollectionMaker(g, normalise, parseDate);
    CreateAllShape(subjects, st.entities, make, normalise, CollectionKind);
    var m := CreateAll(subjects, st.entities, make).value;
    assert CollectionPhase(g, normalise, parseDate, st) == WireAttrs(Store(m, st.edges), g, normalise, COLLECTION_ATTRS);
    WireAttrsResult(Store(m, st.edges), g, normalise, COLLECTION_ATTRS);
    WireAttrsKeepsWellFormed(Store(m, st.edges), g, normalise, COLLECTION_ATTRS);
  }

  /** `_loadConceptSchemes` likewise, for the typed schemes, each built by
      `MakeScheme`; it adds no edges. */
  lemma SchemePhaseShape(g: seq<Triple>, normalise: string -> string, st: Store)
    requires WellFormed(st)
    ensures SchemePhase(g, normalise, st).Ok?
    ensures var r := SchemePhase(g, normalise, st).value;
            && r.entities.Keys == st.entities.Keys + TypedUris(g, normalise, SKOS_CONCEPT_SCHEME)
            && WellFormed(r)
            && (forall u :: u in TypedUris(g, normalise, SKOS_CONCEPT_SCHEME) ==> r.entities[u].ConceptScheme?)
            && (forall u :: u in st.entities && u !in TypedUris(g, normalise, SKOS_CONCEPT_SCHEME) ==> r.entities[u] == st.entities[u])
            && (forall u :: u in TypedUris(g, normalise, SKOS_CONCEPT_SCHEME) ==>
                  exists s :: s in Subjects(g, RDF_TYPE, Iri(SKOS_CONCEPT_SCHEME)) && normalise(s) == u &&
                              r.entities[u] == MakeScheme(g, normalise, s))
            && r.edges == st.edges
  {
    var subjects := Subjects(g, RDF_TYPE, Iri(SKOS_CONCEPT_SCHEME));
    var make := SchemeMaker(g, normalise);
    CreateAllFails(subjects, st.entities, make);
    CreateAllShape(subjects, st.entities, make, normalise, SchemeKind);
    var m := CreateAll(subjects, st.entities, make).value;
    forall u | u in TypedUris(g, normalise, SKOS_CONCEPT_SCHEME) ensures m[u].ConceptScheme? {
      var s :| s in subjects && normalise(s) == u;
    }
  }

  /** A successful load holds one entity per typed subject, built from
      the graph by the maker of its kind: a later phase overwrites an
      earlier one on a shared URI, so schemes win over collections and
      collections over concepts. The relations are exactly the edges the
      concept `attrs` table wires among the typed concepts, and the
      `skos:member` edges wired once collections are cached, each with its
      back-reference; since the load succeeded, no pair was rejected, so
      every member target was a concept when it was wired (a later phase
      may still replace it under the same URI). The result is
      well-formed. */
  lemma LoadGraphShape(g: seq<Triple>, normalise: string -> string, parseDate: string -> Option<Date>, lang: Option<string>)
    requires LoadGraph(g, normalise, parseDate, lang).Ok?
    ensures var st := LoadGraph(g, normalise, parseDate, lang).value;
            var cs := TypedUris(g, normalise, SKOS_CONCEPT);
            var ks := TypedUris(g, normalise, SKOS_COLLECTION);
            var ss := TypedUris(g, normalise, SKOS_CONCEPT_SCHEME);
            && st.entities.Keys == cs + ks + ss
            && WellFormed(st)
            && (forall u :: u in ss ==> st.entities[u].ConceptScheme?)
            && (forall u :: u in ks && u !in ss ==> st.entities[u].Collection?)
            && (forall u :: u in cs && u !in ks && u !in ss ==> st.entities[u].Concept?)
            && (forall u :: u in ss ==>
                  exists s :: s in Subjects(g, RDF_TYPE, Iri(SKOS_CONCEPT_SCHEME)) && normalise(s) == u &&
                              st.entities[u] == MakeScheme(g, normalise, s))
            && (forall u :: u in ks && u !in ss ==>
                  exists s :: s in Subjects(g, RDF_TYPE, Iri(SKOS_COLLECTION)) && normalise(s) == u &&
                              st.entities[u] == MakeCollection(g, normalise, parseDate, s))
            && (forall u :: u in cs && u !in ks && u !in ss ==>
                  exists s :: s in Subjects(g, RDF_TYPE, Iri(SKOS_CONCEPT)) && normalise(s) == u &&
                              MakeConcept(g, normalise, s, lang) == Ok(st.entities[u]))
            && st.edges == AttrEdges(cs, g, normalise, CONCEPT_ATTRS) + AttrEdges(cs + ks, g, normalise, COLLECTION_ATTRS)
  {
    ConceptPhaseShape(g, normalise, lang);
    var st1 := ConceptPhase(g, normalise, lang).value;
    CollectionPhaseEntities(g, normalise, parseDate, st1);
    CollectionPhaseWiring(g, normalise, parseDate, st1);
    var st2 := CollectionPhase(g, normalise, parseDate, st1).value;
    SchemePhaseShape(g, normalise, st2);
  }

  /** The part of `LoadGraphShape` the loader's state keeps: which URIs
      are cached, and that the relations are well formed. */
  lemma LoadGraphKeys(g: seq<Triple>, normalise: string -> string, parseDate: string -> Option<Date>,
                      lang: Option<string>, st: Store)
    requires LoadGraph(g, normalise, parseDate, lang) == Ok(st)
    ensures st.entities.Keys == TypedUris(g, normalise, SKOS_CONCEPT) + TypedUris(g, normalise, SKOS_COLLECTION) +
                                TypedUris(g, normalise, SKOS_CONCEPT_SCHEME)
    ensures WellFormed(st)
  {
    LoadGraphShape(g, normalise, parseDate, lang);
  }

  /** What a successful load computes: the flat URI sets, the store of
      every loaded object and its relations, and the cache. */
  datatype Loaded = Loaded(concepts: set<URI>, collections: set<URI>, schemes: set<URI>,
                           store: Store, cache: map<URI, Entity>)

  /** What the loader's fields need from a finished load: the cache holds
      exactly the typed entities, well-formed, and the entry points are a
      restriction of it to the URIs typed before resolution. */
  ghost predicate Installable(l: Loaded, c0: set<URI>, k0: set<URI>, s0: set<URI>) {
    && l.store.entities.Keys == l.concepts + l.collections + l.schemes
    && WellFormed(l.store)
    && c0 <= l.concepts && k0 <= l.collections && s0 <= l.schemes
    && IsRestriction(l.cache, l.store.entities, c0 + s0 + k0)
  }

  /** The map `{uri: m[uri] for uri in keys}`. */
  function Restrict(m: map<URI, Entity>, keys: set<URI>): map<URI, Entity> {
    map k | k in keys && k in m :: m[k]
  }

  /** `r` holds exactly the entries of `m` under `keys`. */
  ghost predicate IsRestriction(r: map<URI, Entity>, m: map<URI, Entity>, keys: set<URI>) {
    r.Keys == keys && keys <= m.Keys && forall k :: k in r ==> r[k] == m[k]
  }

  /** `dict((uri, cache[uri]) for uri in keys)` */
  method RestrictCache(m: map<URI, Entity>, keys: set<URI>) returns (r: map<URI, Entity>)
    requires keys <= m.Keys
    ensures IsRestriction(r, m, keys)
  {
    r := map[];
    var todo := keys;
    while todo != {}
      invariant todo <= keys
      invariant r.Keys == keys - todo && forall k :: k in r ==> r[k] == m[k]
      decreases todo
    {
      var k :| k in todo;
      r := r[k := m[k]];
      todo := todo - {k};
    }
  }

  /** `[cache[key] for key in keys]`, in some order of the keys. */
  method Select(m: map<URI, Entity>, keys: set<URI>) returns (values: seq<Entity>)
    requires keys <= m.Keys && WellKeyed(m)
    ensures AddAll(map[], values) == Restrict(m, keys)
    ensures forall v :: v in values ==> v.uri in keys && m[v.uri] == v
  {
    values := [];
    var todo := keys;
    while todo != {}
      invariant todo <= keys
      invariant AddAll(map[], values) == Restrict(m, keys - todo)
      invariant forall v :: v in values ==> v.uri in keys - todo && m[v.uri] == v
      decreases todo
    {
      var k :| k in todo;
      assert (values + [m[k]])[..|values|] == values;
      values := values + [m[k]];
      todo := todo - {k};
    }
  }

  class RDFLoader {
    const maxDepth: nat
    const flat: bool
    const normalise: string -> string
    /** `graph.parse(uri)`: the triples of the document at `uri`. */
    const fetch: URI -> seq<Triple>
    /** `_dcDateToDatetime` on a present value. */
    const parseDate: string -> Option<Date>

    /** `_concepts`, `_collections`, `_schemes`: typed before resolution. */
    var concepts: set<URI>
    var collections: set<URI>
    var schemes: set<URI>
    /** `_flat_concepts`, `_flat_collections`, `_flat_schemes`: all loaded. */
    var flatConcepts: set<URI>
    var flatCollections: set<URI>
    var flatSchemes: set<URI>
    /** `_flat_cache`: every loaded object. */
    var flatCache: map<URI, Entity>
    /** The relation collections of the loaded objects. */
    var relations: set<Edge>
    /** `_cache`: the flat cache restricted to the URIs typed before resolution. */
    var cache: map<URI, Entity>

    /** What a completed `load` leaves behind. */
    ghost predicate Valid()
      reads this
    {
      && WellFormed(Store(flatCache, relations))
      && flatCache.Keys == flatConcepts + flatCollections + flatSchemes
      && concepts <= flatConcepts && collections <= flatCollections && schemes <= flatSchemes
      && IsRestriction(cache, flatCache, concepts + schemes + collections)
    }

    /** The configuration part of `__init__`; the constructor then calls
        `Load`, and the loader exists only if that succeeds. */
    constructor (maxDepth: nat, flat: bool, normalise: string -> string,
                 fetch: URI -> seq<Triple>, parseDate: string -> Option<Date>)
      ensures this.maxDepth == maxDepth && this.flat == flat && this.normalise == normalise
      ensures this.fetch == fetch && this.parseDate == parseDate
    {
      this.maxDepth := maxDepth;
      this.flat := flat;
      this.normalise := normalise;
      this.fetch := fetch;
      this.parseDate := parseDate;
    }

    /** `RDFLoader(graph, max_depth, flat, normalise_uri, lang)`: the
        configuration, then `self.load(graph, lang)`. The loader is usable
        exactly when that load succeeds. */
    static method Open(g: Graph, maxDepth: nat, flat: bool, normalise: string -> string,
                       fetch: URI -> seq<Triple>, parseDate: string -> Option<Date>, lang: Option<string>)
      returns (l: RDFLoader, r: Outcome)
      requires g.Valid()
      modifies g
      ensures fresh(l) && l.maxDepth == maxDepth && l.flat == flat
      ensures g.Valid() && old(g.triples) <= g.triples
      ensures l.concepts == TypedUris(old(g.triples), normalise, SKOS_CONCEPT)
      ensures l.collections == TypedUris(old(g.triples), normalise, SKOS_COLLECTION)
      ensures l.schemes == TypedUris(old(g.triples), normalise, SKOS_CONCEPT_SCHEME)
      ensures r.Pass? <==> LoadGraph(g.triples, normalise, parseDate, lang).Ok?
      ensures r.Pass? ==> l.Valid() && Store(l.flatCache, l.relations) == LoadGraph(g.triples, normalise, parseDate, lang).value
    {
      l := new RDFLoader(maxDepth, flat, normalise, fetch, parseDate);
      r := l.Load(g, lang);
    }

    /** `_loadConcepts(graph, {}, lang)`: the concepts it creates and the
        store after wiring their relations. */
    method LoadConcepts(g: seq<Triple>, lang: Option<string>) returns (uris: set<URI>, r: Result<Store>)
      ensures r == ConceptPhase(g, normalise, lang)
      ensures r.Ok? ==> uris == TypedUris(g, normalise, SKOS_CONCEPT)
    {
      var subjects := Subjects(g, RDF_TYPE, Iri(SKOS_CONCEPT));
      var make := ConceptMaker(g, normalise, lang);
      var m: map<URI, Entity> := map[];
      uris := {};
      for i := 0 to |subjects|
        invariant CreateAll(subjects, map[], make) ==
                  CreateAll(subjects[i..], m, make)
        invariant uris == Normalised(subjects[..i], normalise)
      {
        assert subjects[i..][1..] == subjects[i + 1..];
        var made := MakeConcept(g, normalise, subjects[i], lang);
        if made.Err? {
          assert CreateAll(subjects, map[], make) == Err(made.error);
          return uris, Err(made.error);
        }
        m := m[made.value.uri := made.value];
        NormalisedStep(subjects, normalise, i);
        uris := uris + {normalise(subjects[i])};
      }
      assert subjects[..|subjects|] == subjects;
      assert CreateAll(subjects, map[], make) == Ok(m);
      r := WireEdges(Store(m, {}), g, CONCEPT_ATTRS);
    }

    /** `_loadCollections(graph, cache)`. */
    method LoadCollections(g: seq<Triple>, st: Store) returns (uris: set<URI>, r: Result<Store>)
      ensures r == CollectionPhase(g, normalise, parseDate, st)
      ensures uris == TypedUris(g, normalise, SKOS_COLLECTION)
    {
      var subjects := Subjects(g, RDF_TYPE, Iri(SKOS_COLLECTION));
      var make := CollectionMaker(g, normalise, parseDate);
      var m := st.entities;
      uris := {};
      for i := 0 to |subjects|
        invariant CreateAll(subjects, st.entities, make) ==
                  CreateAll(subjects[i..], m, make)
        invariant uris == Normalised(subjects[..i], normalise)
      {
        assert subjects[i..][1..] == subjects[i + 1..];
        var made := MakeCollection(g, normalise, parseDate, subjects[i]);
        m := m[made.uri := made];
        NormalisedStep(subjects, normalise, i);
        uris := uris + {normalise(subjects[i])};
      }
      assert subjects[..|subjects|] == subjects;
      r := WireEdges(Store(m, st.edges), g, COLLECTION_ATTRS);
    }

    /** `_loadConceptSchemes(graph, cache)`. */
    method LoadConceptSchemes(g: seq<Triple>, st: Store) returns (uris: set<URI>, r: Store)
      ensures SchemePhase(g, normalise, st) == Ok(r)
      ensures uris == TypedUris(g, normalise, SKOS_CONCEPT_SCHEME)
    {
      var subjects := Subjects(g, RDF_TYPE, Iri(SKOS_CONCEPT_SCHEME));
      var make := SchemeMaker(g, normalise);
      var m := st.entities;
      uris := {};
      for i := 0 to |subjects|
        invariant CreateAll(subjects, st.entities, make) ==
                  CreateAll(subjects[i..], m, make)
        invariant uris == Normalised(subjects[..i], normalise)
      {
        assert subjects[i..][1..] == subjects[i + 1..];
        var made := MakeScheme(g, normalise, subjects[i]);
        m := m[made.uri := made];
        NormalisedStep(subjects, normalise, i);
        uris := uris + {normalise(subjects[i])};
      }
      assert subjects[..|subjects|] == subjects;
      r := Store(m, st.edges);
    }

    /** The wiring loops: for each (predicate, relation) entry, every
        subject/object pair of the predicate in graph order. */
    method WireEdges(st: Store, g: seq<Triple>, attrs: seq<(URI, Relation)>) returns (r: Result<Store>)
      ensures r == WireAttrs(st, g, normalise, attrs)
    {
      var cur := st;
      for k := 0 to |attrs|
        invariant WireAttrs(st, g, normalise, attrs) == WireAttrs(cur, g, normalise, attrs[k..])
      {
        assert attrs[k..][1..] == attrs[k + 1..];
        var rel := attrs[k].1;
        var pairs := Pairs(g, normalise, attrs[k].0);
        ghost var start := cur;
        for j := 0 to |pairs|
          invariant WireAll(start, rel, pairs) == WireAll(cur, rel, pairs[j..])
        {
          assert pairs[j..][1..] == pairs[j + 1..];
          var step := Wire(cur, rel, pairs[j].0, pairs[j].1);
          if step.Err? {
            return Err(step.error);
          }
          cur := step.value;
        }
        assert pairs[|pairs|..] == [];
      }
      r := Ok(cur);
    }

    /** The three `_load*` calls of `load`, in order, on a fresh cache.
        `conceptsLoaded` records whether `_loadConcepts` returned, in which
        case `cs` is its result even when a later phase raises. */
    method LoadAll(g: seq<Triple>, lang: Option<string>)
      returns (cs: set<URI>, ks: set<URI>, ss: set<URI>, conceptsLoaded: bool, r: Result<Store>)
      ensures r == LoadGraph(g, normalise, parseDate, lang)
      ensures conceptsLoaded <==> ConceptPhase(g, normalise, lang).Ok?
      ensures conceptsLoaded ==> cs == TypedUris(g, normalise, SKOS_CONCEPT)
      ensures r.Ok? ==> cs == TypedUris(g, normalise, SKOS_CONCEPT) &&
                        ks == TypedUris(g, normalise, SKOS_COLLECTION) &&
                        ss == TypedUris(g, normalise, SKOS_CONCEPT_SCHEME)
    {
      var st1, st2, st3;
      cs, st1 := LoadConcepts(g, lang);
      conceptsLoaded := st1.Ok?;
      if st1.Err? {
        return cs, {}, {}, false, Err(st1.error);
      }
      ks, st2 := LoadCollections(g, st1.value);
      if st2.Err? {
        return cs, ks, {}, true, Err(st2.error);
      }
      ss, st3 := LoadConceptSchemes(g, st2.value);
      r := Ok(st3);
    }

    /** `load(graph, lang)`: record the URIs typed in the graph as given,
        resolve external references into the graph, load the three kinds
        of object, and restrict the cache to the URIs recorded first. When
        a later phase raises, `_flat_concepts` has already been replaced
        and the rest of the loaded state is left as it was. */
    method Load(g: Graph, lang: Option<string>) returns (r: Outcome)
      requires g.Valid()
      modifies this, g
      ensures g.Valid() && old(g.triples) <= g.triples
      ensures maxDepth == 0 ==> g.triples == old(g.triples)
      ensures concepts == TypedUris(old(g.triples), normalise, SKOS_CONCEPT)
      ensures collections == TypedUris(old(g.triples), normalise, SKOS_COLLECTION)
      ensures schemes == TypedUris(old(g.triples), normalise, SKOS_CONCEPT_SCHEME)
      ensures r.Pass? <==> LoadGraph(g.triples, normalise, parseDate, lang).Ok?
      ensures r.Pass? ==>
                && Valid()
                && Store(flatCache, relations) == LoadGraph(g.triples, normalise, parseDate, lang).value
                && flatConcepts == TypedUris(g.triples, normalise, SKOS_CONCEPT)
                && flatCollections == TypedUris(g.triples, normalise, SKOS_COLLECTION)
                && flatSchemes == TypedUris(g.triples, normalise, SKOS_CONCEPT_SCHEME)
      ensures r.Fail? ==>
                && flatCache == old(flatCache) && cache == old(cache) && relations == old(relations)
                && flatCollections == old(flatCollections) && flatSchemes == old(flatSchemes)
      ensures r.Fail? && ConceptPhase(g.triples, normalise, lang).Ok? ==>
                flatConcepts == TypedUris(g.triples, normalise, SKOS_CONCEPT)
      ensures r.Fail? && ConceptPhase(g.triples, normalise, lang).Err? ==> flatConcepts == old(flatConcepts)
    {
      var c0, k0, s0 := Prepare(g);
      var loaded, flatC := Populate(g.triples, lang, c0, k0, s0);
      r := Install(c0, k0, s0, loaded, flatC);
    }

    /** The assignments of `load`: the typed sets always, `_flat_concepts`
        once `_loadConcepts` has returned (`flatC`), the rest of the loaded
        state only when loading succeeded. */
    method Install(c0: set<URI>, k0: set<URI>, s0: set<URI>, loaded: Result<Loaded>, flatC: Option<set<URI>>)
      returns (r: Outcome)
      requires loaded.Ok? ==> flatC == Some(loaded.value.concepts)
      requires loaded.Ok? ==> Installable(loaded.value, c0, k0, s0)
      modifies this
      ensures concepts == c0 && collections == k0 && schemes == s0
      ensures r.Pass? <==> loaded.Ok?
      ensures r.Fail? ==> r.error == loaded.error
      ensures r.Pass? ==>
                && Valid()
                && Store(flatCache, relations) == loaded.value.store
                && flatConcepts == loaded.value.concepts && flatCollections == loaded.value.collections
                && flatSchemes == loaded.value.schemes
      ensures r.Fail? ==>
                && flatCache == old(flatCache) && cache == old(cache) && relations == old(relations)
                && flatCollections == old(flatCollections) && flatSchemes == old(flatSchemes)
      ensures flatC.Some? ==> flatConcepts == flatC.value
      ensures flatC.None? ==> flatConcepts == old(flatConcepts)
    {
      concepts, collections, schemes := c0, k0, s0;
      if flatC.Some? {
        flatConcepts := flatC.value;
      }
      if loaded.Err? {
        return Fail(loaded.error);
      }
      var l := loaded.value;
      flatConcepts, flatCollections, flatSchemes := l.concepts, l.collections, l.schemes;
      flatCache, relations, cache := l.store.entities, l.store.edges, l.cache;
      r := Pass;
    }

    /** The first half of `load`: `_iterateType` for the three classes,
        then `_resolveGraph`, which only adds triples, so every URI typed
        before stays typed after. */
    method Prepare(g: Graph) returns (c0: set<URI>, k0: set<URI>, s0: set<URI>)
      requires g.Valid()
      modifies g
      ensures g.Valid() && old(g.triples) <= g.triples
      ensures maxDepth == 0 ==> g.triples == old(g.triples)
      ensures c0 == TypedUris(old(g.triples), normalise, SKOS_CONCEPT)
      ensures k0 == TypedUris(old(g.triples), normalise, SKOS_COLLECTION)
      ensures s0 == TypedUris(old(g.triples), normalise, SKOS_CONCEPT_SCHEME)
      ensures c0 <= TypedUris(g.triples, normalise, SKOS_CONCEPT)
      ensures k0 <= TypedUris(g.triples, normalise, SKOS_COLLECTION)
      ensures s0 <= TypedUris(g.triples, normalise, SKOS_CONCEPT_SCHEME)
    {
      c0 := TypedUris(g.triples, normalise, SKOS_CONCEPT);
      k0 := TypedUris(g.triples, normalise, SKOS_COLLECTION);
      s0 := TypedUris(g.triples, normalise, SKOS_CONCEPT_SCHEME);
      ghost var g0 := g.triples;
      ghost var log := Resolve(g, maxDepth, normalise, fetch);
      TypedGrows(g0, g.triples, normalise);
    }

    /** The loading half of `load`, after resolution: build every object
        of the resolved graph and keep, in the cache, the ones typed
        before resolution (`c0`, `k0`, `s0`). `flatC` is the result of
        `_loadConcepts` whenever it returned. */
    method Populate(g: seq<Triple>, lang: Option<string>, c0: set<URI>, k0: set<URI>, s0: set<URI>)
      returns (r: Result<Loaded>, flatC: Option<set<URI>>)
      requires c0 <= TypedUris(g, normalise, SKOS_CONCEPT)
      requires k0 <= TypedUris(g, normalise, SKOS_COLLECTION)
      requires s0 <= TypedUris(g, normalise, SKOS_CONCEPT_SCHEME)
      ensures r.Ok? <==> LoadGraph(g, normalise, parseDate, lang).Ok?
      ensures r.Err? ==> r.error == LoadGraph(g, normalise, parseDate, lang).error
      ensures r.Ok? ==>
                && r.value.store == LoadGraph(g, normalise, parseDate, lang).value
                && r.value.concepts == TypedUris(g, normalise, SKOS_CONCEPT)
                && r.value.collections == TypedUris(g, normalise, SKOS_COLLECTION)
                && r.value.schemes == TypedUris(g, normalise, SKOS_CONCEPT_SCHEME)
                && Installable(r.value, c0, k0, s0)
      ensures flatC.Some? <==> ConceptPhase(g, normalise, lang).Ok?
      ensures flatC.Some? ==> flatC.value == TypedUris(g, normalise, SKOS_CONCEPT)
      ensures r.Ok? ==> flatC == Some(r.value.concepts)
    {
      var cs, ks, ss, conceptsLoaded, loaded := LoadAll(g, lang);
      flatC := if conceptsLoaded then Some(cs) else None;
      if loaded.Err? {
        return Err(loaded.error), flatC;
      }
      var st := loaded.value;
      LoadGraphKeys(g, normalise, parseDate, lang, st);
      var restricted := RestrictCache(st.entities, c0 + s0 + k0);
      r := Ok(Loaded(cs, ks, ss, st, restricted));
      assert LoadGraph(g, normalise, parseDate, lang).Ok? ==> ConceptPhase(g, normalise, lang).Ok?;
    }

    /** `_getAttr`: an explicit `flat` argument overrides the loader's. */
    function Mode(flatArg: Option<bool>): bool
      reads this
    {
      flatArg.GetOr(flat)
    }

    /** `_getCache(flat)` */
    function CacheFor(flatArg: Option<bool>): (m: map<URI, Entity>)
      reads this
      requires Valid()
      ensures m.Keys <= flatCache.Keys
      ensures forall k :: k in m ==> m[k] == flatCache[k]
      ensures !Mode(flatArg) ==> m.Keys == concepts + collections + schemes
    {
      if Mode(flatArg) then flatCache else cache
    }

    /** `iter(loader)`: the keys of the selected cache. */
    function Keys(flatArg: Option<bool>): (keys: set<URI>)
      reads this
      requires Valid()
      ensures keys == CacheFor(flatArg).Keys
      ensures Mode(flatArg) ==> keys == flatConcepts + flatCollections + flatSchemes
      ensures !Mode(flatArg) ==> keys == concepts + collections + schemes
    {
      CacheFor(flatArg).Keys
    }

    /** `key in loader` */
    function Contains(key: URI, flatArg: Option<bool>): (r: bool)
      reads this
      requires Valid()
      ensures r ==> key in flatCache
      ensures Mode(flatArg) ==> (r <==> key in flatConcepts + flatCollections + flatSchemes)
      ensures !Mode(flatArg) ==> (r <==> key in concepts + collections + schemes)
      ensures flatArg.None? ==> (r <==> Get(key).Ok?)
    {
      key in CacheFor(flatArg)
    }

    /** `len(loader)` */
    function Len(flatArg: Option<bool>): (n: nat)
      reads this
      requires Valid()
      ensures n == |Keys(flatArg)|
      ensures n <= |flatCache.Keys|
    {
      SubsetSize(CacheFor(flatArg).Keys, flatCache.Keys);
      |CacheFor(flatArg).Keys|
    }

    /** `loader[key]`, in the loader's own mode. */
    function Get(key: URI): (r: Result<Entity>)
      reads this
      requires Valid()
      ensures r.Ok? <==> key in CacheFor(None)
      ensures r.Ok? ==> r.value == flatCache[key] && r.value.uri == key
      ensures r.Err? ==> r.error == KeyError
    {
      var m := CacheFor(None);
      if key in m then Ok(m[key]) else Err(KeyError)
    }

    /** The key set `_getAttr(name, flat)` selects. */
    function KeysOf(kind: Kind, flatArg: Option<bool>): set<URI>
      reads this
    {
      match kind
      case ConceptKind => if Mode(flatArg) then flatConcepts else concepts
      case CollectionKind => if Mode(flatArg) then flatCollections else collections
      case SchemeKind => if Mode(flatArg) then flatSchemes else schemes
    }

    /** `getConcepts`, `getCollections`, `getConceptSchemes`: a new
        `Concepts` of exactly the selected cache's entries for the selected
        keys. */
    method GetByKind(kind: Kind, flatArg: Option<bool>) returns (c: Concepts)
      requires Valid()
      ensures fresh(c) && c.Valid()
      ensures c.items == Restrict(CacheFor(flatArg), KeysOf(kind, flatArg))
      ensures c.items.Keys == KeysOf(kind, flatArg)
    {
      var values := Select(CacheFor(flatArg), KeysOf(kind, flatArg));
      c := new Concepts(values);
    }

    method GetConcepts(flatArg: Option<bool>) returns (c: Concepts)
      requires Valid()
      ensures fresh(c) && c.items == Restrict(CacheFor(flatArg), KeysOf(ConceptKind, flatArg))
    {
      c := GetByKind(ConceptKind, flatArg);
    }

    method GetConceptSchemes(flatArg: Option<bool>) returns (c: Concepts)
      requires Valid()
      ensures fresh(c) && c.items == Restrict(CacheFor(flatArg), KeysOf(SchemeKind, flatArg))
    {
      c := GetByKind(SchemeKind, flatArg);
    }

    method GetCollections(flatArg: Option<bool>) returns (c: Concepts)
      requires Valid()
      ensures fresh(c) && c.items == Restrict(CacheFor(flatArg), KeysOf(CollectionKind, flatArg))
    {
      c := GetByKind(CollectionKind, flatArg);
    }
  }

  /** The typed sets only grow with the graph. */
  lemma TypedGrows(g: seq<Triple>, g': seq<Triple>, normalise: string -> string)
    requires g <= g'
    ensures TypedUris(g, normalise, SKOS_CONCEPT) <= TypedUris(g', normalise, SKOS_CONCEPT)
    ensures TypedUris(g, normalise, SKOS_COLLECTION) <= TypedUris(g', normalise, SKOS_COLLECTION)
    ensures TypedUris(g, normalise, SKOS_CONCEPT_SCHEME) <= TypedUris(g', normalise, SKOS_CONCEPT_SCHEME)
  {
    forall cls | cls in {SKOS_CONCEPT, SKOS_COLLECTION, SKOS_CONCEPT_SCHEME}
      ensures TypedUris(g, normalise, cls) <= TypedUris(g', normalise, cls)
    {
      forall u | u in TypedUris(g, normalise, cls) ensures u in TypedUris(g', normalise, cls) {
        var s :| s in Subjects(g, RDF_TYPE, Iri(cls)) && normalise(s) == u;
        assert Triple(s, RDF_TYPE, Iri(cls)) in g';
      }
    }
  }

  lemma SubsetSize(a: set<URI>, b: set<URI>)
    requires a <= b
    ensures |a| <= |b|
  {
    assert b == a + (b - a);
  }
}
