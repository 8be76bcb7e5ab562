/** `_resolveGraph`: following references out of the graph to external
    resources, up to a depth bound. Fetching a document is the only I/O;
    it is the parameter `fetch`, whose triples `graph.parse` merges into
    the same graph. */
module Resolver {
  import opened Base
  import opened Rdf

  /** The predicates whose objects are followed. */
  const RESOLVABLE_PREDICATES: seq<URI> :=
    [SKOS_BROADER, SKOS_NARROWER, SKOS_EXACT_MATCH, OWL_SAME_AS, SKOS_RELATED, SKOS_MEMBER]

  /** A subject typed with one of these counts as already resolved. */
  const RESOLVABLE_OBJECTS: seq<URI> :=
    [SKOS_CONCEPT_SCHEME, SKOS_CONCEPT, SKOS_COLLECTION, SKOS_HAS_TOP_CONCEPT]

  /** The normalised subjects of `rdf:type` triples whose class is in `classes`. */
  function TypedBy(g: seq<Triple>, normalise: string -> string, classes: seq<URI>): set<URI> {
    set t | t in g && t.p == RDF_TYPE && t.o.Iri? && t.o.uri in classes :: normalise(t.s)
  }

  /** The normalised objects of the triples whose predicate is in `preds`. */
  function ReferencedBy(g: seq<Triple>, normalise: string -> string, preds: seq<URI>): set<URI> {
    set t | t in g && t.p in preds :: normalise(Text(t.o))
  }

  lemma TypedStep(g: seq<Triple>, normalise: string -> string, classes: seq<URI>, k: nat)
    requires k < |classes|
    ensures TypedBy(g, normalise, classes[..k + 1]) ==
            TypedBy(g, normalise, classes[..k]) + set s | s in Subjects(g, RDF_TYPE, Iri(classes[k])) :: normalise(s)
  {
    var lhs := TypedBy(g, normalise, classes[..k + 1]);
    var rhs := TypedBy(g, normalise, classes[..k]) + set s | s in Subjects(g, RDF_TYPE, Iri(classes[k])) :: normalise(s);
    forall u | u in lhs ensures u in rhs {
      var t :| t in g && t.p == RDF_TYPE && t.o.Iri? && t.o.uri in classes[..k + 1] && normalise(t.s) == u;
      if t.o.uri !in classes[..k] {
        assert t.o == Iri(classes[k]);
        assert t.s in Subjects(g, RDF_TYPE, Iri(classes[k]));
      }
    }
    forall u | u in rhs ensures u in lhs {
      if u !in TypedBy(g, normalise, classes[..k]) {
        var s :| s in Subjects(g, RDF_TYPE, Iri(classes[k])) && normalise(s) == u;
        assert Triple(s, RDF_TYPE, Iri(classes[k])) in g;
        assert classes[k] in classes[..k + 1];
      }
    }
  }

  /** The normalised objects of (subject, object) pairs. */
  function ObjectUris(pairs: seq<(URI, Node)>, normalise: string -> string): set<URI> {
    set q | q in pairs :: normalise(Text(q.1))
  }

  lemma ObjectUrisStep(pairs: seq<(URI, Node)>, normalise: string -> string, j: nat)
    requires j < |pairs|
    ensures ObjectUris(pairs[..j + 1], normalise) == ObjectUris(pairs[..j], normalise) + {normalise(Text(pairs[j].1))}
  {
    assert pairs[..j + 1] == pairs[..j] + [pairs[j]];
  }

  lemma ReferencedStep(g: seq<Triple>, normalise: string -> string, preds: seq<URI>, k: nat)
    requires k < |preds|
    ensures ReferencedBy(g, normalise, preds[..k + 1]) ==
            ReferencedBy(g, normalise, preds[..k]) + ObjectUris(SubjectObjects(g, preds[k]), normalise)
  {
    var lhs := ReferencedBy(g, normalise, preds[..k + 1]);
    var rhs := ReferencedBy(g, normalise, preds[..k]) + ObjectUris(SubjectObjects(g, preds[k]), normalise);
    forall u | u in lhs ensures u in rhs {
      var t :| t in g && t.p in preds[..k + 1] && normalise(Text(t.o)) == u;
      if t.p !in preds[..k] {
        assert t.p == preds[k];
        assert (t.s, t.o) in SubjectObjects(g, preds[k]);
      }
    }
    forall u | u in rhs ensures u in lhs {
      if u !in ReferencedBy(g, normalise, preds[..k]) {
        var q :| q in SubjectObjects(g, preds[k]) && normalise(Text(q.1)) == u;
        assert Triple(q.0, preds[k], q.1) in g;
        assert preds[k] in preds[..k + 1];
      }
    }
  }

  /** Both sets only grow with the graph. */
  lemma Monotone(g: seq<Triple>, g': seq<Triple>, normalise: string -> string)
    requires forall t :: t in g ==> t in g'
    ensures TypedBy(g, normalise, RESOLVABLE_OBJECTS) <= TypedBy(g', normalise, RESOLVABLE_OBJECTS)
    ensures ReferencedBy(g, normalise, RESOLVABLE_PREDICATES) <= ReferencedBy(g', normalise, RESOLVABLE_PREDICATES)
  {
  }

  /** One external document parsed into the graph, and the depth of the
      call that parsed it. */
  datatype Fetch = Fetch(uri: URI, depth: nat)

  /** Every triple the fetches of `log` brought in, in order. */
  function FetchedTriples(log: seq<Fetch>, fetch: URI -> seq<Triple>): seq<Triple> {
    if log == [] then []
    else FetchedTriples(log[..|log| - 1], fetch) + fetch(log[|log| - 1].uri)
  }

  lemma {:induction false} FetchedTriplesAppend(a: seq<Fetch>, b: seq<Fetch>, fetch: URI -> seq<Triple>)
    ensures FetchedTriples(a + b, fetch) == FetchedTriples(a, fetch) + FetchedTriples(b, fetch)
    decreases |b|
  {
    if b == [] {
      assert a + b == a;
    } else {
      var b' := b[..|b| - 1];
      assert (a + b)[..|a + b| - 1] == a + b';
      FetchedTriplesAppend(a, b', fetch);
    }
  }

  /** No document is fetched twice. */
  predicate DistinctUris(log: seq<Fetch>) {
    forall i, j :: 0 <= i < j < |log| ==> log[i].uri != log[j].uri
  }

  /** The first loop of `_resolveGraph`: every subject typed with one of
      the resolvable classes is added to `resolved`. */
  method MarkTyped(g: seq<Triple>, normalise: string -> string, resolved: set<URI>) returns (out: set<URI>)
    ensures out == resolved + TypedBy(g, normalise, RESOLVABLE_OBJECTS)
  {
    out := resolved;
    for k := 0 to |RESOLVABLE_OBJECTS|
      invariant out == resolved + TypedBy(g, normalise, RESOLVABLE_OBJECTS[..k])
    {
      var subjects := Subjects(g, RDF_TYPE, Iri(RESOLVABLE_OBJECTS[k]));
      TypedStep(g, normalise, RESOLVABLE_OBJECTS, k);
      out := out + set s | s in subjects :: normalise(s);
    }
    assert RESOLVABLE_OBJECTS[..|RESOLVABLE_OBJECTS|] == RESOLVABLE_OBJECTS;
  }

  /** The second loop of `_resolveGraph`: the normalised objects of the
      resolvable predicates that are not yet resolved. */
  method CollectUnresolved(g: seq<Triple>, normalise: string -> string, resolved: set<URI>) returns (unresolved: set<URI>)
    ensures unresolved == ReferencedBy(g, normalise, RESOLVABLE_PREDICATES) - resolved
  {
    unresolved := {};
    for k := 0 to |RESOLVABLE_PREDICATES|
      invariant unresolved == ReferencedBy(g, normalise, RESOLVABLE_PREDICATES[..k]) - resolved
    {
      var pairs := SubjectObjects(g, RESOLVABLE_PREDICATES[k]);
      ReferencedStep(g, normalise, RESOLVABLE_PREDICATES, k);
      var found := CollectObjects(pairs, normalise, resolved);
      unresolved := unresolved + found;
    }
    assert RESOLVABLE_PREDICATES[..|RESOLVABLE_PREDICATES|] == RESOLVABLE_PREDICATES;
  }

  /** The inner loop: over the (subject, object) pairs of one predicate,
      the normalised objects not yet resolved. */
  method CollectObjects(pairs: seq<(URI, Node)>, normalise: string -> string, resolved: set<URI>) returns (found: set<URI>)
    ensures found == ObjectUris(pairs, normalise) - resolved
  {
    found := {};
    for j := 0 to |pairs|
      invariant found == ObjectUris(pairs[..j], normalise) - resolved
    {
      var uri := normalise(Text(pairs[j].1));
      ObjectUrisStep(pairs, normalise, j);
      if uri !in resolved {
        found := found + {uri};
      }
    }
    assert pairs[..|pairs|] == pairs;
  }

  /** `_resolveGraph(graph, depth, resolved)`. Below the depth bound it
      marks every typed subject as resolved, collects the referenced URIs
      not yet resolved, marks them resolved too, and parses each into the
      graph, recursing one level deeper after each parse. `resolved` is the
      set shared by all levels; its final value is returned. */
  method ResolveGraph(g: Graph, maxDepth: nat, normalise: string -> string, fetch: URI -> seq<Triple>,
                      depth: nat, resolved: set<URI>)
    returns (resolvedOut: set<URI>, ghost log: seq<Fetch>)
    requires g.Valid()
    modifies g
    decreases maxDepth - depth, 2
    ensures g.Valid() && old(g.triples) <= g.triples
    // the graph gains exactly the triples of the documents fetched
    ensures forall t :: t in g.triples <==> t in old(g.triples) || t in FetchedTriples(log, fetch)
    ensures depth >= maxDepth ==> g.triples == old(g.triples) && resolvedOut == resolved && log == []
    ensures resolved <= resolvedOut
    // below the bound every typed and every referenced URI ends up resolved ...
    ensures depth < maxDepth ==>
              TypedBy(old(g.triples), normalise, RESOLVABLE_OBJECTS) + ReferencedBy(old(g.triples), normalise, RESOLVABLE_PREDICATES) <= resolvedOut
    // ... and those neither resolved nor typed before are fetched at this depth
    ensures depth < maxDepth ==>
              forall u :: u in ReferencedBy(old(g.triples), normalise, RESOLVABLE_PREDICATES) &&
                          u !in resolved && u !in TypedBy(old(g.triples), normalise, RESOLVABLE_OBJECTS) ==>
                            Fetch(u, depth) in log
    // every fetch is of a new, untyped, referenced URI, once, below the bound
    ensures DistinctUris(log)
    ensures forall f :: f in log ==>
              && f.uri !in resolved && f.uri in resolvedOut
              && f.uri !in TypedBy(old(g.triples), normalise, RESOLVABLE_OBJECTS)
              && f.uri in ReferencedBy(g.triples, normalise, RESOLVABLE_PREDICATES)
              && depth <= f.depth < maxDepth
  {
    if depth >= maxDepth {
      return resolved, [];
    }
    var out := MarkTyped(g.triples, normalise, resolved);
    var unresolved := CollectUnresolved(g.triples, normalise, out);
    out := out + unresolved;
    resolvedOut, log := ParseEach(g, maxDepth, normalise, fetch, depth, unresolved, out);
  }

  /** The bookkeeping the last loop of `_resolveGraph` keeps about the
      fetches so far: each URI once, none still to do, each new at its
      level, resolved and referenced, and every depth below the bound. */
  ghost predicate Logged(log: seq<Fetch>, todo: set<URI>, unresolved: set<URI>, resolved: set<URI>,
                         out: set<URI>, refs: set<URI>, depth: nat, maxDepth: nat) {
    && DistinctUris(log)
    && forall f :: f in log ==>
         && f.uri !in todo && (f.uri in unresolved || f.uri !in resolved) && f.uri in out
         && f.uri in refs && depth <= f.depth < maxDepth
  }

  lemma LoggedStep(log: seq<Fetch>, todo: set<URI>, unresolved: set<URI>, resolved: set<URI>,
                   out: set<URI>, refs: set<URI>, depth: nat, maxDepth: nat,
                   uri: URI, nested: set<URI>, nestedLog: seq<Fetch>, refs': set<URI>)
    requires Logged(log, todo, unresolved, resolved, out, refs, depth, maxDepth)
    requires uri in todo && todo <= out && uri in unresolved && uri in refs' && depth < maxDepth
    requires refs <= refs' && out <= nested
    requires DistinctUris(nestedLog)
    requires forall f :: f in nestedLog ==> f.uri !in out && f.uri in nested && f.uri in refs' && depth + 1 <= f.depth < maxDepth
    requires resolved <= out
    ensures Logged(log + [Fetch(uri, depth)] + nestedLog, todo - {uri}, unresolved, resolved, nested, refs', depth, maxDepth)
  {
    var log' := log + [Fetch(uri, depth)] + nestedLog;
    forall i, j | 0 <= i < j < |log'| ensures log'[i].uri != log'[j].uri {
      if j < |log| {
      } else if j == |log| {
        assert log[i] in log;
      } else if i < |log| {
        assert log[i] in log && log'[j] in nestedLog;
      } else if i == |log| {
        assert log'[j] in nestedLog;
      } else {
        assert log'[i] == nestedLog[i - |log| - 1] && log'[j] == nestedLog[j - |log| - 1];
      }
    }
  }

  /** One turn of that loop: `uri` parsed into the graph, then the graph
      resolved again one level deeper with the set resolved so far. */
  method ParseOne(g: Graph, maxDepth: nat, normalise: string -> string, fetch: URI -> seq<Triple>,
                  depth: nat, uri: URI, out: set<URI>)
    returns (nested: set<URI>, ghost nestedLog: seq<Fetch>)
    requires g.Valid() && depth < maxDepth
    modifies g
    decreases maxDepth - depth, 0
    ensures g.Valid() && old(g.triples) <= g.triples
    ensures forall t :: t in g.triples <==> t in old(g.triples) || t in fetch(uri) || t in FetchedTriples(nestedLog, fetch)
    ensures ReferencedBy(old(g.triples), normalise, RESOLVABLE_PREDICATES) <= ReferencedBy(g.triples, normalise, RESOLVABLE_PREDICATES)
    ensures out <= nested
    ensures DistinctUris(nestedLog)
    ensures forall f :: f in nestedLog ==>
              f.uri !in out && f.uri in nested && f.uri in ReferencedBy(g.triples, normalise, RESOLVABLE_PREDICATES) &&
              depth + 1 <= f.depth < maxDepth
  {
    g.Parse(fetch(uri));
    nested, nestedLog := ResolveGraph(g, maxDepth, normalise, fetch, depth + 1, out);
    Monotone(old(g.triples), g.triples, normalise);
  }

  /** The triples of the graph after one turn, in terms of the fetch log. */
  lemma TriplesStep(g0: seq<Triple>, before: seq<Triple>, after: seq<Triple>, log: seq<Fetch>,
                    f: Fetch, nestedLog: seq<Fetch>, fetch: URI -> seq<Triple>)
    requires forall t :: t in before <==> t in g0 || t in FetchedTriples(log, fetch)
    requires forall t :: t in after <==> t in before || t in fetch(f.uri) || t in FetchedTriples(nestedLog, fetch)
    ensures forall t :: t in after <==> t in g0 || t in FetchedTriples(log + [f] + nestedLog, fetch)
  {
    FetchedTriplesAppend(log, [f], fetch);
    FetchedTriplesAppend(log + [f], nestedLog, fetch);
    assert FetchedTriples([f], fetch) == fetch(f.uri) by {
      assert [f][..0] == [];
    }
  }

  /** The last loop of `_resolveGraph`: each URI of `unresolved` (all of
      them already in `resolved`) is parsed into the graph, and the graph is
      resolved again one level deeper. */
  method ParseEach(g: Graph, maxDepth: nat, normalise: string -> string, fetch: URI -> seq<Triple>,
                   depth: nat, unresolved: set<URI>, resolved: set<URI>)
    returns (resolvedOut: set<URI>, ghost log: seq<Fetch>)
    requires g.Valid() && depth < maxDepth
    requires unresolved <= resolved
    requires unresolved <= ReferencedBy(g.triples, normalise, RESOLVABLE_PREDICATES)
    modifies g
    decreases maxDepth - depth, 1
    ensures g.Valid() && old(g.triples) <= g.triples
    ensures forall t :: t in g.triples <==> t in old(g.triples) || t in FetchedTriples(log, fetch)
    ensures resolved <= resolvedOut
    ensures forall u :: u in unresolved ==> Fetch(u, depth) in log
    ensures DistinctUris(log)
    ensures forall f :: f in log ==>
              && (f.uri in unresolved || f.uri !in resolved) && f.uri in resolvedOut
              && f.uri in ReferencedBy(g.triples, normalise, RESOLVABLE_PREDICATES)
              && depth <= f.depth < maxDepth
  {
    ghost var g0 := g.triples;
    var out := resolved;
    log := [];
    var todo := unresolved;
    while todo != {}
      invariant todo <= unresolved && resolved <= out
      invariant g.Valid() && g0 <= g.triples
      invariant forall t :: t in g.triples <==> t in g0 || t in FetchedTriples(log, fetch)
      invariant forall u :: u in unresolved - todo ==> Fetch(u, depth) in log
      invariant Logged(log, todo, unresolved, resolved, out, ReferencedBy(g.triples, normalise, RESOLVABLE_PREDICATES), depth, maxDepth)
      decreases todo
    {
      var uri :| uri in todo;
      assert todo - {uri} + {uri} == todo;
      todo := todo - {uri};
      ghost var before := g.triples;
      var nested;
      ghost var nestedLog;
      nested, nestedLog := ParseOne(g, maxDepth, normalise, fetch, depth, uri, out);
      Monotone(g0, g.triples, normalise);
      TriplesStep(g0, before, g.triples, log, Fetch(uri, depth), nestedLog, fetch);
      LoggedStep(log, todo + {uri}, unresolved, resolved, out, ReferencedBy(before, normalise, RESOLVABLE_PREDICATES),
                 depth, maxDepth, uri, nested, nestedLog, ReferencedBy(g.triples, normalise, RESOLVABLE_PREDICATES));
      log := log + [Fetch(uri, depth)] + nestedLog;
      out := nested;
    }
    resolvedOut := out;
  }

  /** The call `load` makes: `_resolveGraph(graph)` from depth 0 with an
      empty `resolved` set. The graph gains exactly the triples of the
      documents fetched; with a zero depth bound it is left as it is.
      Every referenced URI not typed beforehand is fetched at depth 0, and
      every fetch is of a referenced URI that was not typed beforehand,
      once, below the bound. */
  method Resolve(g: Graph, maxDepth: nat, normalise: string -> string, fetch: URI -> seq<Triple>)
    returns (ghost log: seq<Fetch>)
    requires g.Valid()
    modifies g
    ensures g.Valid() && old(g.triples) <= g.triples
    ensures forall t :: t in g.triples <==> t in old(g.triples) || t in FetchedTriples(log, fetch)
    ensures maxDepth == 0 ==> g.triples == old(g.triples)
    ensures maxDepth > 0 ==>
              forall u :: u in ReferencedBy(old(g.triples), normalise, RESOLVABLE_PREDICATES) - TypedBy(old(g.triples), normalise, RESOLVABLE_OBJECTS) ==>
                          Fetch(u, 0) in log
    ensures DistinctUris(log)
    ensures forall f :: f in log ==>
              && f.uri !in TypedBy(old(g.triples), normalise, RESOLVABLE_OBJECTS)
              && f.uri in ReferencedBy(g.triples, normalise, RESOLVABLE_PREDICATES)
              && f.depth < maxDepth
  {
    var resolved;
    resolved, log := ResolveGraph(g, maxDepth, normalise, fetch, 0, {});
  }
}
