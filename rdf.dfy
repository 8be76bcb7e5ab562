/** The part of an RDF graph the SKOS code relies on: nodes, triples, the
    fixed vocabulary, pattern queries and a mutable graph.

    rdflib keeps a graph as a set of triples and enumerates it in an order
    it does not specify. Here a graph is a duplicate-free sequence of
    triples: the sequence order stands for that unspecified order, so
    `Value` (rdflib's `graph.value`) returns the first matching object. */
module Rdf {
  import opened Base

  /** An object position: a URI reference or a literal with an optional
      language tag. Subjects and predicates are URIs. */
  datatype Node = Iri(uri: URI) | Lit(lexical: string, lang: Option<string>)

  datatype Triple = Triple(s: URI, p: URI, o: Node)

  // ---- vocabulary ----
  const RDF_TYPE := "http://www.w3.org/1999/02/22-rdf-syntax-ns#type"
  const RDFS_LABEL := "http://www.w3.org/2000/01/rdf-schema#label"
  const SKOS_CONCEPT := "http://www.w3.org/2004/02/skos/core#Concept"
  const SKOS_CONCEPT_SCHEME := "http://www.w3.org/2004/02/skos/core#ConceptScheme"
  const SKOS_COLLECTION := "http://www.w3.org/2004/02/skos/core#Collection"
  const SKOS_HAS_TOP_CONCEPT := "http://www.w3.org/2004/02/skos/core#hasTopConcept"
  const SKOS_PREF_LABEL := "http://www.w3.org/2004/02/skos/core#prefLabel"
  const SKOS_ALT_LABEL := "http://www.w3.org/2004/02/skos/core#altLabel"
  const SKOS_DEFINITION := "http://www.w3.org/2004/02/skos/core#definition"
  const SKOS_NOTATION := "http://www.w3.org/2004/02/skos/core#notation"
  const SKOS_NOTE := "http://www.w3.org/2004/02/skos/core#note"
  const SKOS_BROADER := "http://www.w3.org/2004/02/skos/core#broader"
  const SKOS_NARROWER := "http://www.w3.org/2004/02/skos/core#narrower"
  const SKOS_RELATED := "http://www.w3.org/2004/02/skos/core#related"
  const SKOS_EXACT_MATCH := "http://www.w3.org/2004/02/skos/core#exactMatch"
  const SKOS_MEMBER := "http://www.w3.org/2004/02/skos/core#member"
  const OWL_SAME_AS := "http://www.w3.org/2006/12/owl2-xml#sameAs"
  const DCTERMS_TITLE := "http://purl.org/dc/terms/title"
  const DCTERMS_DESCRIPTION := "http://purl.org/dc/terms/description"
  const DCTERMS_DATE := "http://purl.org/dc/terms/date"
  const DC_TITLE := "http://purl.org/dc/elements/1.1/title"
  const DC_DESCRIPTION := "http://purl.org/dc/elements/1.1/description"
  const DC_DATE := "http://purl.org/dc/elements/1.1/date"

  /** Python's `str(node)`: the URI of a reference, the lexical form of a literal. */
  function Text(n: Node): string {
    match n
    case Iri(u) => u
    case Lit(v, _) => v
  }

  /** Python's `str()` of an optional node: `str(None)` is "None". */
  function TextOr(n: Option<Node>): string {
    match n
    case Some(v) => Text(v)
    case None => "None"
  }

  /** Python truthiness of a (plain) node: false exactly for the empty string. */
  predicate Truthy(n: Node) {
    Text(n) != ""
  }

  predicate NoDuplicates<T(==)>(s: seq<T>) {
    forall i, j :: 0 <= i < j < |s| ==> s[i] != s[j]
  }

  /** `graph.objects(subject, predicate)`, in graph order. */
  function Objects(g: seq<Triple>, s: URI, p: URI): (r: seq<Node>)
    ensures forall n :: n in r <==> Triple(s, p, n) in g
  {
    if g == [] then []
    else (if g[0].s == s && g[0].p == p then [g[0].o] else []) + Objects(g[1..], s, p)
  }

  /** `graph.subjects(predicate, object)`, in graph order. */
  function Subjects(g: seq<Triple>, p: URI, o: Node): (r: seq<URI>)
    ensures forall s :: s in r <==> Triple(s, p, o) in g
  {
    if g == [] then []
    else (if g[0].p == p && g[0].o == o then [g[0].s] else []) + Subjects(g[1..], p, o)
  }

  /** `graph.subject_objects(predicate)`, in graph order. */
  function SubjectObjects(g: seq<Triple>, p: URI): (r: seq<(URI, Node)>)
    ensures forall s, o :: (s, o) in r <==> Triple(s, p, o) in g
  {
    if g == [] then []
    else (if g[0].p == p then [(g[0].s, g[0].o)] else []) + SubjectObjects(g[1..], p)
  }

  /** `graph.value(subject, predicate)`: some object of the pair, or None. */
  function Value(g: seq<Triple>, s: URI, p: URI): (r: Option<Node>)
    ensures r.Some? <==> exists n :: Triple(s, p, n) in g
    ensures r.Some? ==> Triple(s, p, r.value) in g
  {
    var objs := Objects(g, s, p);
    if objs == [] then None
    else assert objs[0] in objs; Some(objs[0])
  }

  /** An rdflib graph, changed in place by `add` and `parse`. */
  class Graph {
    var triples: seq<Triple>

    ghost predicate Valid()
      reads this
    {
      NoDuplicates(triples)
    }

    constructor ()
      ensures Valid() && triples == []
    {
      triples := [];
    }

    /** `triple in graph` */
    function Contains(t: Triple): bool
      reads this
    {
      t in triples
    }

    /** `graph.add(triple)`: a set insertion. Afterwards the triple is in
        the graph, and every other triple is in it exactly when it was
        before. */
    method Add(t: Triple)
      requires Valid()
      modifies this
      ensures Valid()
      ensures triples == if t in old(triples) then old(triples) else old(triples) + [t]
      ensures Contains(t)
      ensures forall u :: Contains(u) <==> old(Contains(u)) || u == t
    {
      if t !in triples {
        triples := triples + [t];
      }
    }

    /** The merge half of `graph.parse(uri)`: every fetched triple is added
        to this same graph. */
    method Parse(fetched: seq<Triple>)
      requires Valid()
      modifies this
      ensures Valid() && old(triples) <= triples
      ensures forall t :: t in triples <==> t in old(triples) || t in fetched
    {
      var i := 0;
      while i < |fetched|
        invariant 0 <= i <= |fetched|
        invariant Valid() && old(triples) <= triples
        invariant forall t :: t in triples <==> t in old(triples) || t in fetched[..i]
      {
        Add(fetched[i]);
        i := i + 1;
      }
      assert fetched[..i] == fetched;
    }
  }
}
