/** The three SKOS entity kinds, as records of their scalar attributes.
    Relations between entities are kept apart, in `ObjectModel.Store`,
    because the source lets them form cycles. */
module Entities {
  import opened Base

  /** A parsed `datetime`; `iso` is what its `isoformat()` returns. */
  datatype Date = Date(iso: string)

  datatype Entity =
    | Concept(uri: URI, prefLabel: string, definition: Option<string>,
              notation: Option<string>, altLabel: Option<string>, note: Option<string>)
    | ConceptScheme(uri: URI, title: string, description: Option<string>)
    | Collection(uri: URI, title: string, description: Option<string>, date: Option<Date>)

  /** The operand of `x in concepts`: an entity, whose `uri` is used, or a
      bare key (anything without a `uri` attribute). */
  datatype Probe = ByEntity(entity: Entity) | ByKey(key: URI)

  function KeyOf(x: Probe): URI {
    match x
    case ByEntity(e) => e.uri
    case ByKey(k) => k
  }

  /** Every entry is stored under its own URI. */
  ghost predicate WellKeyed(m: map<URI, Entity>) {
    forall k :: k in m ==> m[k].uri == k
  }

  /** `Concept.__eq__`: the six scalar attributes of `other` against those
      of `a`; an `other` that lacks one of them compares unequal. */
  function ConceptEquals(a: Entity, other: Entity): (r: bool)
    requires a.Concept?
    ensures r <==> other == a
  {
    other.Concept? &&
    a.uri == other.uri && a.prefLabel == other.prefLabel &&
    a.definition == other.definition && a.notation == other.notation &&
    a.altLabel == other.altLabel && a.note == other.note
  }
}
