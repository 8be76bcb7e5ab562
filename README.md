# python-skos in Dafny

A model of python-skos, a library that converts between an RDF graph of
SKOS vocabulary and an object model of concepts, concept schemes and
collections. The model covers all five parts of `src/python_skos/skos.py`:

- `Concepts` (module `ConceptSet`) is the URI-keyed set/map hybrid behind
  every relation collection. It is a class over a `map<URI, Entity>`.
- `AttributeJoin` (module `Join`) is the merged view over the two stores
  that hold `synonyms` and `related`. It is a class over two `Concepts`.
- The entities and their relations (modules `Entities` and `ObjectModel`).
  Concepts, schemes and collections are values. Their relation
  collections are a set of labelled edges in a `Store`. The
  back-references the relationship layer keeps are modelled as paired
  edges.
- `RDFLoader` (modules `Labels`, `Resolver`, `Loader`):
  - label and value selection;
  - depth-bounded resolution of external references into the same graph;
  - materialisation of one entity per typed subject, then wiring of the
    relation edges;
  - `load`, and the flat and non-flat views.

  The loader is a class whose fields are the Python attributes. Its loops
  are methods proved equal to the folds `CreateAll`, `WireAll` and
  `LoadGraph`, and those folds are characterised by lemmas.
- `RDFBuilder` (module `Builder`) writes objects, and everything they reach
  through their relations, into a mutable `Rdf.Graph`. The recursion is
  proved to terminate. The measure is the set of stored objects whose
  type triple is not yet in the graph, and the type triple is written
  before any relation is followed.

The RDF graph is `Rdf.Graph`, a class over a duplicate-free sequence of
triples. The order of the sequence stands for rdflib's unspecified
iteration order. Python exceptions become `Result` / `Outcome` values:
`KeyError` and `AttributeError`, plus `Rejected`, which stands for the
relationship layer refusing a non-Concept in a Concept relationship.

The model follows the code in these behaviours:

- `Concepts.pop` on an empty collection raises KeyError, from
  `dict.popitem`.
- Relation wiring can raise. A relation whose subject is not cached
  raises KeyError. An entity without that relation collection raises
  AttributeError.
- `hasTopConcept` is one of the resolvable type objects, not one of the
  followed predicates.

## Model

| member | source | states |
|---|---|---|
| Rdf.Objects | src/python_skos/skos.py:671 | `graph.objects(s, p)`: a node is listed exactly when (s, p, node) is in the graph |
| Rdf.Subjects | src/python_skos/skos.py:657-668 | `graph.subjects(p, o)`: a URI is listed exactly when (uri, p, o) is in the graph |
| Rdf.SubjectObjects | src/python_skos/skos.py:791 | `graph.subject_objects(p)`: a pair is listed exactly when its triple with p is in the graph |
| Rdf.Value | src/python_skos/skos.py:851 | `graph.value(s, p)` is present exactly when some (s, p, _) triple exists, and it is the object of one |
| Rdf.Graph.Add | src/python_skos/skos.py:999-1003 | `graph.add` is a set insertion: a triple already present leaves the graph unchanged, a new one is appended, and afterwards `triple in graph` holds exactly for the old triples and the added one |
| Rdf.Graph.Parse | src/python_skos/skos.py:654 | `graph.parse` merges into the same graph: afterwards it holds exactly the old triples plus the fetched ones, without duplicates |
| Entities.ConceptEquals | src/python_skos/skos.py:406-423 | `Concept.__eq__` holds exactly when `other` is a concept with the same six scalars; any other kind of object compares unequal |
| ConceptSet.AddAll | src/python_skos/skos.py:210-222 | upserting a sequence adds exactly the URIs of its values to the keys and keeps every entry under its own URI |
| ConceptSet.AddAllLastWins | src/python_skos/skos.py:187-188 | after a bulk upsert each URI holds the last value carrying it, and keys no value carries keep their entry |
| ConceptSet.Concepts.constructor | src/python_skos/skos.py:164-167 | `Concepts(values)` is the empty collection updated from `values` |
| ConceptSet.Concepts.Add | src/python_skos/skos.py:187-188 | `add` upserts by URI: the value is then contained and returned by `c[uri]`, all other keys are unchanged, and `len` grows by one exactly when the URI was new |
| ConceptSet.Concepts.Discard | src/python_skos/skos.py:190-194 | `discard` removes the value's URI and does nothing when it is absent; the value is then not contained, `c[uri]` raises KeyError, and `len` drops by one exactly when it was contained |
| ConceptSet.Concepts.Pop | src/python_skos/skos.py:196-198 | `pop` on an empty collection raises KeyError and changes nothing; otherwise it returns a stored entry and removes exactly its key |
| ConceptSet.Concepts.Get | src/python_skos/skos.py:203-204 | `c[key]` succeeds exactly when the key is present, returns the entry stored under it, and otherwise raises KeyError |
| ConceptSet.Concepts.Delete | src/python_skos/skos.py:206-208 | `del c[key]` removes exactly that key when it is present, and raises KeyError without change when it is absent; the key is then not contained and `len` drops by one exactly on success |
| ConceptSet.Concepts.Update | src/python_skos/skos.py:210-222 | `update` from a sequence upserts every element in order, giving `AddAll` of the old entries |
| ConceptSet.Concepts.UpdateFrom | src/python_skos/skos.py:210-222 | `update` from another collection adds all its values; on a shared key the other collection's entry wins |
| ConceptSet.ContainsAgreesWithGet | src/python_skos/skos.py:174-180 | `x in c` holds exactly when `c[key]` succeeds for the probe's key, and an entity is contained exactly when its URI is |
| ConceptSet.EqualsIsExtensional | src/python_skos/skos.py:224-228 | two collections compare equal, entries compared by their scalar attributes, exactly when every lookup `c[k]` gives the same answer in both; equal collections have the same `len` and equality is symmetric |
| ConceptSet.EqualsMapIsExtensional | src/python_skos/skos.py:224-231 | a collection equals a dictionary, entries compared by their scalar attributes, exactly when `k in c` holds for the dictionary's keys and no others, and `c[k]` returns the dictionary's entry |
| ConceptSet.UpsertKeepsLast | src/python_skos/skos.py:187-188 | adding two entities with one URI leaves one entry, the second |
| Join.UnionSize | src/python_skos/skos.py:93-94 | the union of two key sets has size \|a\| + \|b\| - \|a ∩ b\| |
| Join.AttributeJoin.constructor | src/python_skos/skos.py:79-81 | the view shares the concept's two stores |
| Join.AttributeJoin.Iterate | src/python_skos/skos.py:84-86 | iterating first folds the right store into the left (the right entry wins on a shared key), then yields the union of keys: exactly the keys `in` the view before, as many as its `len`, and membership is unchanged |
| Join.AttributeJoin.Len | src/python_skos/skos.py:93-94 | `len(j)` is the size of the union of both key sets, shared keys counted once |
| Join.AttributeJoin.Add | src/python_skos/skos.py:97-98 | `add` upserts into the left store only; the value is then contained and `j[uri]` returns it |
| Join.AttributeJoin.Discard | src/python_skos/skos.py:100-102 | `discard` removes the URI from both stores, so the value is no longer contained |
| Join.AttributeJoin.Pop | src/python_skos/skos.py:104-112 | `pop` as written always fails with AttributeError |
| Join.AttributeJoin.PopIntended | src/python_skos/skos.py:104-112 | the intended `pop`: an entry of the left store, else of the right, removed from both; KeyError and no change when both are empty |
| Join.PopDiscrepancy | src/python_skos/skos.py:104-112 | on a one-entry view, `pop` as written fails while the intended `pop` returns the entry and empties the view |
| Join.AttributeJoin.Get | src/python_skos/skos.py:117-126 | `j[k]` is the left entry if present, else the right one, else KeyError exactly when neither store holds k |
| Join.AttributeJoin.Delete | src/python_skos/skos.py:128-141 | `del j[k]` removes k from both stores and raises KeyError exactly when neither held it; afterwards k is not contained and `j[k]` raises KeyError |
| Join.AttributeJoin.Assign | src/python_skos/skos.py:361-374 | the `synonyms`/`related` setters make the left store exactly the values and empty the right; every value is then contained and the size is the number of distinct URIs |
| Join.EqualViewsAgree | src/python_skos/skos.py:149-150 | two views that compare equal give the same `j[k]`, the same `k in j` and the same `len` |
| Join.EqualityIsPerStore | src/python_skos/skos.py:149-150 | two views with the same keys can compare unequal, because equality is per store |
| ObjectModel.Inverse | src/python_skos/skos.py:323-356 | each relationship has a back-reference different from itself |
| ObjectModel.InverseIsInvolution | src/python_skos/skos.py:323-356 | the back-reference of a back-reference is the relationship itself |
| ObjectModel.Link | src/python_skos/skos.py:797 | adding to a relation collection adds exactly the edge and its back-reference, and keeps the store consistent |
| ObjectModel.Unlink | src/python_skos/skos.py:190-194 | discarding from a relation collection removes exactly the edge and its back-reference, and keeps the store consistent |
| ObjectModel.JoinDiscard | src/python_skos/skos.py:100-102 | `a.synonyms.discard(b)` takes b out of both stores of a and a out of both stores of b: exactly those four edges leave the store, and everything else is kept |
| ObjectModel.JoinedIsSymmetric | src/python_skos/skos.py:333-356 | in a consistent store, b is in the merged `related` / `synonyms` view of a exactly when a is in that view of b |
| ObjectModel.InverseIsMirrored | src/python_skos/skos.py:323-330 | in a consistent store, b is in `a.broader` exactly when a is in `b.narrower`, and likewise for every relationship |
| ObjectModel.Replace | src/python_skos/skos.py:361-374 | assigning a relation collection of a makes its targets exactly the new values, each with its back-reference; edges that neither leave a under that relation nor point back to a are kept, and consistency is kept |
| ObjectModel.JoinAssign | src/python_skos/skos.py:361-374 | the setter on a is the two assignments `left = values; right = {}` in turn: afterwards the merged view of a is exactly the values other than a itself, its right store is empty, edges outside a's two stores and their back-references are kept, and consistency is kept |
| ObjectModel.SchemeEquals | src/python_skos/skos.py:469-481 | `ConceptScheme.__eq__` holds exactly when the scalars agree and the two `concepts` views, each read in its own store, are equal; it raises AttributeError against any other kind of object |
| ObjectModel.CollectionEquals | src/python_skos/skos.py:529-545 | `Collection.__eq__` holds exactly when the scalars and date agree and the two `members` views, each read in its own store, are equal; other kinds compare unequal |
| ObjectModel.EqualityScope | src/python_skos/skos.py:529-545 | a collection equals itself, and once a live object that was not a member is added to its `members` it no longer equals its former self, though its scalars are unchanged |
| ObjectModel.CollectionEqualsFrame | src/python_skos/skos.py:529-545 | a collection still equals itself after any change to the store that keeps the entities and its own `members` edges |
| Labels.Filter | src/python_skos/skos.py:707-725 | the language filter: no language keeps every object; otherwise reading the tag of a URI raises AttributeError, and a literal is kept exactly when the filter accepts it |
| Labels.FilterCases | src/python_skos/skos.py:707-722 | on a literal: no language keeps it, "" keeps it exactly when untagged, and any other tag keeps it exactly when the tags match |
| Labels.PreferredLabelChoice | src/python_skos/skos.py:681-730 | prefLabels are returned whenever one survives the filter, and then every eligible prefLabel is returned; rdfs:labels only when none does, and then every eligible one is returned; the default only when neither does; every label returned is an eligible object of its property, tagged with that property |
| Labels.FirstWithLang | src/python_skos/skos.py:673-679 | the value of the first literal tagged exactly `lang`, or None exactly when there is none |
| Labels.ValueForLang | src/python_skos/skos.py:670-679 | `_get_value_for_lang` is None exactly when no literal of (s, p) carries the tag `lang`, and otherwise it is such a literal's value |
| Labels.FirstYield | src/python_skos/skos.py:850-854 | the first present and truthy value, or None exactly when there is none |
| Labels.ValueFromPredicates | src/python_skos/skos.py:845-854 | `_valueFromPredicates` is None exactly when no predicate's `graph.value` is truthy; otherwise it is the value of the first predicate, in list order, that yields one |
| Labels.FirstOfTwo | src/python_skos/skos.py:845-854 | with two predicates, the first one's value wins when it is truthy, else the second one's, else None |
| Resolver.MarkTyped | src/python_skos/skos.py:625-638 | the first loop adds to `resolved` every subject typed with a resolvable class |
| Resolver.CollectUnresolved | src/python_skos/skos.py:640-645 | the second loop collects exactly the referenced URIs not yet resolved |
| Resolver.CollectObjects | src/python_skos/skos.py:642-645 | its inner loop collects exactly the normalised objects of the pairs not yet resolved |
| Resolver.ResolveGraph | src/python_skos/skos.py:599-655 | at or past the depth bound nothing changes. Below it, every typed and referenced URI ends up resolved, and every referenced URI neither resolved nor typed is fetched at this depth. The graph gains exactly the fetched triples. No URI is fetched twice, and every fetch is of a referenced, untyped URI below the bound |
| Resolver.ParseEach | src/python_skos/skos.py:650-655 | each unresolved URI is parsed into the graph and resolved one level deeper, with every fetch distinct and below the bound |
| Resolver.ParseOne | src/python_skos/skos.py:652-655 | one turn of that loop: the graph gains exactly the fetched document and the triples of the deeper level's fetches, and every deeper fetch is of a new, referenced URI below the bound |
| Resolver.Resolve | src/python_skos/skos.py:899 | `load`'s resolution: with a zero bound it changes nothing; otherwise the graph gains exactly the fetched triples, every referenced, untyped URI is fetched at depth 0, and every fetch is distinct, of a URI referenced in the result and not typed beforehand, and below the bound |
| Loader.ConceptCreation | src/python_skos/skos.py:751-770 | a concept created for a subject takes an eligible prefLabel, else an rdfs:label, else ""; definition and altLabel per language; notation and note as their text or "None" |
| Loader.ConceptCreationFails | src/python_skos/skos.py:751-770 | creating a concept fails only when some prefLabel or rdfs:label object is a URI, and succeeds whenever all of them are literals |
| Loader.CollectionCreation | src/python_skos/skos.py:817-828 | a collection's title and description are the `dcterms` value when it is truthy, else the `dc` one, else "None"; its date is the parsed `dcterms:date`, else the parsed `dc:date`, and absent when neither is truthy |
| Loader.SchemeCreation | src/python_skos/skos.py:868-876 | a scheme's title and description are the `dcterms` value when it is truthy, else the `dc` one, else "None" |
| Loader.CreateAllFails | src/python_skos/skos.py:751-771 | the creation loop fails exactly when creating some subject fails |
| Loader.CreateAllShape | src/python_skos/skos.py:751-771 | a successful creation loop caches exactly the normalised subjects, each built by the loop's maker from a subject that normalises to its key, keeps every other entry, and keeps entries under their own URIs |
| Loader.Wire | src/python_skos/skos.py:790-797 | a pair whose object is not cached is skipped. An uncached subject raises KeyError, a subject without the relation raises AttributeError, and a non-concept target is rejected. Otherwise the edge is linked |
| Loader.WireAll | src/python_skos/skos.py:791-797 | the wiring loop of one predicate fails exactly when some pair with a cached object is faulty. Otherwise it keeps the entities and adds exactly one edge and its back-reference per such pair |
| Loader.WireAllKeepsWellFormed | src/python_skos/skos.py:791-797 | a successful wiring loop keeps a consistent store consistent and a closed store closed |
| Loader.Pairs | src/python_skos/skos.py:791 | one normalised (subject, object) pair per triple of the predicate: a pair is listed exactly when some triple with that predicate normalises to it |
| Loader.WireAttrsResult | src/python_skos/skos.py:790-797 | the outer wiring loop fails exactly when some pair of some entry of the attrs table is faulty (uncached subject, missing relation, rejected target); otherwise it adds exactly the edges and back-references of every pair with a cached object, and never creates entities |
| Loader.WireAttrsKeepsWellFormed | src/python_skos/skos.py:790-797 | a successful outer wiring loop keeps the store consistent and closed |
| Loader.ConceptPhaseShape | src/python_skos/skos.py:732-799 | `_loadConcepts` caches exactly the typed concepts, each built by `MakeConcept` from a subject that normalises to it, with exactly the edges (and back-references) the concept attrs table wires among them, in a well-formed store |
| Loader.CollectionPhaseEntities | src/python_skos/skos.py:801-828 | `_loadCollections` adds the typed collections on top of its input, each built by `MakeCollection` from a subject that normalises to it, and keeps the other cached entries |
| Loader.CollectionPhaseWiring | src/python_skos/skos.py:831-843 | `_loadCollections` adds exactly the `skos:member` edges the collection attrs table wires among the cached objects, and keeps the store well-formed |
| Loader.SchemePhaseShape | src/python_skos/skos.py:856-879 | `_loadConceptSchemes` never fails, adds the typed schemes, each built by `MakeScheme`, leaves the edges unchanged and keeps the store well-formed |
| Loader.LoadGraphShape | src/python_skos/skos.py:900-903 | a successful load holds one entity per typed subject, built by the maker of its kind; schemes override collections and collections override concepts on a shared URI. Its edges are exactly the concept-table edges among typed concepts plus the member edges among typed concepts and collections. The store is well-formed |
| Loader.LoadGraphKeys | src/python_skos/skos.py:900-903 | the loaded keys are the union of the three typed sets, and the store is well-formed |
| Loader.RestrictCache | src/python_skos/skos.py:904-909 | the restricted cache holds exactly the given keys, each with the full cache's entry |
| Loader.Select | src/python_skos/skos.py:942 | `[cache[key] for key in keys]` builds exactly the cache restricted to the keys |
| Loader.RDFLoader.constructor | src/python_skos/skos.py:559-586 | the loader keeps its depth bound, flat mode, normaliser, fetch and date parser |
| Loader.RDFLoader.LoadConcepts | src/python_skos/skos.py:732-799 | the creation and wiring loops of `_loadConcepts` compute `ConceptPhase`, and return the typed concept URIs |
| Loader.RDFLoader.LoadCollections | src/python_skos/skos.py:801-843 | the loops of `_loadCollections` compute `CollectionPhase`, and return the typed collection URIs |
| Loader.RDFLoader.LoadConceptSchemes | src/python_skos/skos.py:856-879 | the loop of `_loadConceptSchemes` computes `SchemePhase`, and returns the typed scheme URIs |
| Loader.RDFLoader.WireEdges | src/python_skos/skos.py:790-797 | the nested wiring loops compute `WireAttrs` |
| Loader.RDFLoader.LoadAll | src/python_skos/skos.py:900-902 | the three `_load*` calls compute `LoadGraph`, and report whether the concept phase succeeded, with the typed concept URIs when it did |
| Loader.RDFLoader.Load | src/python_skos/skos.py:881-909 | `load` records the sets typed before resolution. It succeeds exactly when loading the resolved graph does, and then leaves a valid loader whose flat state is that load, with the non-flat cache the restriction of the flat one to the URIs typed at first. A failure changes neither cache nor the relations, and `flatConcepts` is the typed concepts exactly when the concept phase succeeded |
| Loader.RDFLoader.Open | src/python_skos/skos.py:559-586 | `RDFLoader(graph, ...)` constructs the loader and calls `load`: the new loader succeeds exactly when `LoadGraph` of the resolved graph does, and then it is valid and its flat state is that load |
| Loader.RDFLoader.Install | src/python_skos/skos.py:884-909 | the attribute assignments of `load`: the typed sets always, `flatConcepts` as soon as the concept phase succeeded, and the rest of the loaded state only on success |
| Loader.RDFLoader.Prepare | src/python_skos/skos.py:884-899 | the typed sets of the given graph, then resolution; every URI typed before stays typed after |
| Loader.RDFLoader.Populate | src/python_skos/skos.py:900-909 | loading the resolved graph succeeds exactly when `LoadGraph` does, with its error or its store, and reports the typed concepts exactly when the concept phase succeeded. The flat cache holds exactly the typed URIs, and the non-flat cache restricts it to the first-typed URIs |
| Loader.RDFLoader.CacheFor | src/python_skos/skos.py:911-919 | `_getCache` in either mode is a sub-map of the flat cache; the non-flat one holds exactly the URIs typed before resolution |
| Loader.RDFLoader.Keys | src/python_skos/skos.py:922-923 | iteration yields all loaded URIs in flat mode, and only the first-typed ones otherwise |
| Loader.RDFLoader.Contains | src/python_skos/skos.py:926-927 | `key in loader` holds exactly when the key is one of the mode's keys: in flat mode a URI typed in the resolved graph, otherwise one typed before resolution; in the loader's own mode it agrees with `loader[key]` succeeding |
| Loader.RDFLoader.Len | src/python_skos/skos.py:930-931 | `len(loader)` counts the mode's keys and never exceeds the number of loaded objects |
| Loader.RDFLoader.Get | src/python_skos/skos.py:934-936 | `loader[key]` is the loaded entity stored under key in the loader's own mode, and KeyError otherwise |
| Loader.RDFLoader.GetByKind | src/python_skos/skos.py:938-954 | the getters return a new collection of exactly the mode's cache entries for the mode's keys of that kind |
| Loader.RDFLoader.GetConcepts | src/python_skos/skos.py:938-942 | `getConcepts` holds exactly the mode's cache entries for the mode's concept keys |
| Loader.RDFLoader.GetConceptSchemes | src/python_skos/skos.py:944-948 | `getConceptSchemes` likewise for the scheme keys |
| Loader.RDFLoader.GetCollections | src/python_skos/skos.py:950-954 | `getCollections` likewise for the collection keys |
| Loader.TypedGrows | src/python_skos/skos.py:884-902 | resolution only adds triples, so the sets typed before it are contained in the sets typed after |
| Builder.ClassIri | src/python_skos/skos.py:981-988 | `skos:<class name>` is Concept, Collection or ConceptScheme exactly for objects of that class |
| Builder.Emit | src/python_skos/skos.py:999-1028 | each `graph.add` of the builder is a set insertion of a triple about a stored object, with one of the builder's predicates |
| Builder.BuildConcept | src/python_skos/skos.py:991-1047 | An object already typed is skipped with no change. Otherwise the Concept type triple is written first. A non-concept then fails with AttributeError, having written only that triple. A concept gets its five scalar triples and one edge per related concept in its four relations, and everything it reaches is typed. When every related object is of the kind its relation expects, building a concept always succeeds |
| Builder.EmitScalars | src/python_skos/skos.py:1004-1028 | the five scalar triples of a concept, with a missing value written as "None" |
| Builder.BuildRelations | src/python_skos/skos.py:1030-1047 | every concept in the synonyms, related, broader and narrower collections gets its edge and is typed, and every collection of the concept is typed; when the related objects are of the expected kinds it always succeeds |
| Builder.BuildEdgePair | src/python_skos/skos.py:1030-1044 | two of those relation loops in turn: every target of either relation gets its edge and is typed; with well-kinded relations it succeeds |
| Builder.BuildEdges | src/python_skos/skos.py:1030-1044 | for one relation, every target gets its edge and is typed; when the targets are of the expected kinds it always succeeds |
| Builder.EdgeStep | src/python_skos/skos.py:1031-1032 | the edge to one target is written, then the target is built and typed; it succeeds whenever the target is a concept and the store's relations are well-kinded |
| Builder.BuildCollections | src/python_skos/skos.py:1046-1047 | every collection the concept belongs to is built and typed; when the related objects are of the expected kinds it always succeeds |
| Builder.BuildCollection | src/python_skos/skos.py:1049-1073 | An object already typed is skipped. Otherwise the Collection type triple is written first. A collection gets title, description, a date exactly when it has one (no `dc:date` triple is added for a dateless one), and a member edge per member, each member typed; with well-kinded relations it always succeeds. A concept fails after the type triple. A scheme fails after type, title and description |
| Builder.CollectionBody | src/python_skos/skos.py:1057-1073 | after the type triple: a collection gets its head and member edges, and a concept scheme fails after adding exactly its title and description |
| Builder.EmitHead | src/python_skos/skos.py:1057-1069 | the head triples of `buildCollection`: for a collection exactly the old triples plus type, title, description and, only when present, `dc:date`; it succeeds exactly for a collection |
| Builder.EmitTitles | src/python_skos/skos.py:1058-1063 | the graph afterwards holds exactly the old triples plus the title and description triples |
| Builder.Build | src/python_skos/skos.py:1075-1096 | concepts go to `buildConcept` and all others to `buildCollection`. On success every object is typed in the graph. With well-kinded relations and no concept scheme among the objects it succeeds, and an untyped concept scheme among them makes it fail |
| Builder.BuildNew | src/python_skos/skos.py:1085-1096 | building into a new graph writes only builder triples about stored objects; on success every object is typed, it succeeds with well-kinded relations and no scheme, and fails when a scheme is among the objects |
| Builder.SchemeNeverTyped | src/python_skos/skos.py:980-989 | the builder never writes a concept scheme's type triple, so a scheme untyped before a build stays untyped |
| Builder.NoDateWithoutOne | src/python_skos/skos.py:1062-1068 | the builder never writes a `dc:date` triple for a collection without a date |

## Left out

- ConceptSet.Concepts.Equals, ConceptSet.Concepts.EqualsMap and
  Join.AttributeJoin.Equals compare entries by their scalar attributes
  only. Python's dict comparison calls each value's own `__eq__`, and for
  a collection or a scheme that also compares `members` or `concepts`
  (`src/python_skos/skos.py:469-481, 531-545`). So two `Concepts` whose
  collections or schemes differ only in their relations compare unequal
  in the source and equal in the model. A `Concepts` is a plain map with
  no relation store to read; the per-entry comparison with relations is
  `ObjectModel.CollectionEquals` / `ObjectModel.SchemeEquals`. For
  concept entries the two agree, since `Concept.__eq__` reads only the
  six scalars. A scheme compared with an entry of another kind raises
  AttributeError in the source; the model reports unequal.
- SQLAlchemy tables, columns, mappers and instrumentation
  (`src/python_skos/skos.py:22-59, 240-298`) are persistence plumbing.
  - The back-reference syncing of each relationship is library behaviour.
    It is modelled as the paired edge update of `ObjectModel.Link` and
    `ObjectModel.Unlink`, as an assumption.
  - `Rejected` assumes that a relationship whose target class is Concept
    refuses other objects.
- `InstrumentedConcepts.update` inserts nothing, so the fold in
  `AttributeJoin.__iter__` has no effect on an entity's instrumented
  stores. `Join.AttributeJoin` is modelled over plain `Concepts`. The
  builder iterates the left stores of `synonyms` and `related` only.
- rdflib is reduced to a set of URI and literal triples. Blank nodes,
  datatyped literals and namespace bindings (`getGraph`) are left out.
  `rdflib.Literal(None)` is taken to have the lexical form "None".
- Iteration over Python sets and over rdflib is in an unspecified order.
  The model picks an order (`:|`, or the order of the triple sequence),
  and the contracts do not depend on it.
- Python dict insertion order is not modelled. `Concepts` is a `map`, so
  `Concepts.pop` does not promise `dict.popitem`'s last-in-first-out
  choice (it removes some stored entry), and iteration over a `Concepts`
  has no fixed order.
- `Rdf.Node.Lit` can carry the language tag `Some("")`. rdflib turns an
  empty tag into no tag, so such literals never occur in a real graph;
  the model does not exclude them, and `Labels.FirstWithLang` with `lang`
  `Some("")` can match one.
- `graph.parse` I/O is the loader parameter `fetch`, which always
  returns triples. In the source a failing `graph.parse` during
  resolution is not caught and ends the load; the model has no such
  failure path.
- `_dcDateToDatetime` and iso8601 parsing are the loader parameter
  `parseDate`. `normalise_uri` is the parameter `normalise`.
- `max_depth` is a natural number, not a float. `float('inf')` is not
  modelled.
- The constructor's type checks on its arguments are dynamic typing
  concerns and are left out.
- Logging, `__repr__`, `__str__` and the `__hash__` methods are left out.
- Loader.LoadGraphShape: a URI typed with more than one SKOS class is
  cached with the later phase's entity, as `cache[uri] =` does
  (`src/python_skos/skos.py:828, 876`). In the source the relations wired
  by an earlier phase (`src/python_skos/skos.py:797, 841`) keep holding
  the replaced Python object. The model keys relations by URI, so those
  edges reach the new entity instead. For example, with `x a
  skos:Concept`, `u a skos:Concept`, `u a skos:Collection` and `x
  skos:broader u`, the source's `x.broader` still holds the old Concept
  `u`, and building `x` writes `u a skos:Concept` and succeeds. In the
  model `Builder.BuildConcept` reaches the Collection `u` and fails with
  AttributeError. Likewise a member target that is also typed
  skos:ConceptScheme is a scheme in the loaded store, not a concept.
- Loader.RDFLoader.Get and the other `RDFLoader` views (`CacheFor`, `Keys`, `Contains`,
  `Len`, `GetByKind`, `GetConcepts`, `GetConceptSchemes`,
  `GetCollections`) are modelled only on a successfully loaded loader
  (`Valid()`). After a failed second `load` the source's getters read the
  new `_concepts` / `_flat_concepts` against the old caches
  (`src/python_skos/skos.py:884-902, 938-954`) and can raise KeyError.
- Builder.BuildConcept, Builder.BuildCollection and Builder.Build require
  the objects to be entries of a well-keyed store. The source takes
  Python objects, which may be outside any store.
- Builder.Build, Builder.BuildConcept and Builder.BuildCollection promise
  success only for stores whose relations hold objects of the expected
  kind (`WellKinded`). The model does not prove that a loaded store is
  well-kinded, because a URI typed with two classes can replace a concept
  that another concept's relation already targets.
- ObjectModel.JoinAssign drops a self-entry (`a` among its own values).
  This is the effect of the two assignments under the paired
  back-reference assumption above. The library's own behaviour on a
  self-referencing relationship is not modelled.
- Builder.BuildConcept does not state the order of the scalar and edge
  triples after the type triple, only that they are present.
- Resolver.ResolveGraph does not state the order of the fetches within
  one level.

## Findings

| source | as written | input that shows it | evidently intended | confidence | as-written member | corrected member |
|---|---|---|---|---|---|---|
| src/python_skos/skos.py:104-112 | `pop` reads `self._concepts._synonyms_left`, but `__init__` never sets `_concepts`, so every call raises AttributeError | a `related` view whose left store holds one concept | return an entry of the left store, or of the right one when the left is empty, and remove it from both | high, not executed | Join.PopDiscrepancy | Join.AttributeJoin.PopIntended |
