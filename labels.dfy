/** Value selection of the loader: the language filter and label
    preference of `_preferredLabel`, the per-language lookup of
    `_get_value_for_lang`, and the first-truthy search of
    `_valueFromPredicates`. */
module Labels {
  import opened Base
  import opened Rdf

  /** The language filter of `_preferredLabel`: no language keeps every
      object, "" keeps untagged literals, any other tag keeps the literals
      carrying exactly that tag. Reading `language` on a URI reference
      raises AttributeError. */
  function Keep(lang: Option<string>, n: Node): Result<bool> {
    match lang
    case None => Ok(true)
    case Some(t) =>
      if n.Iri? then Err(AttributeError)
      else if t == "" then Ok(n.lang.None?)
      else Ok(n.lang == Some(t))
  }

  /** `list(filter(langfilter, nodes))` */
  function Filter(lang: Option<string>, ns: seq<Node>): (r: Result<seq<Node>>)
    ensures r.Err? <==> lang.Some? && exists n :: n in ns && n.Iri?
    ensures r.Err? ==> r.error == AttributeError
    ensures r.Ok? ==> forall n :: n in r.value <==> n in ns && Keep(lang, n) == Ok(true)
    ensures lang.None? ==> r == Ok(ns)
  {
    if ns == [] then Ok([])
    else
      var keep :- Keep(lang, ns[0]);
      var rest :- Filter(lang, ns[1..]);
      assert ns == [ns[0]] + ns[1..];
      Ok(if keep then [ns[0]] + rest else rest)
  }

  /** The three filter cases stated on a single literal. */
  lemma {:induction false} FilterCases(lang: Option<string>, ns: seq<Node>, v: string, tag: Option<string>)
    requires Lit(v, tag) in ns && Filter(lang, ns).Ok?
    ensures lang.None? ==> Lit(v, tag) in Filter(lang, ns).value
    ensures lang == Some("") ==> (Lit(v, tag) in Filter(lang, ns).value <==> tag.None?)
    ensures lang.Some? && lang != Some("") ==> (Lit(v, tag) in Filter(lang, ns).value <==> tag == lang)
  {
  }

  /** One entry of the list `_preferredLabel` returns: the label property
      (None in the loader's default entry) and the label node. */
  datatype Labelled = Labelled(prop: Option<URI>, node: Node)

  /** Each label paired with the property it came from, in order. */
  function Tagged(prop: URI, labels: seq<Node>): (r: seq<Labelled>)
    ensures |r| == |labels|
    ensures forall i :: 0 <= i < |r| ==> r[i] == Labelled(Some(prop), labels[i])
  {
    seq(|labels|, i requires 0 <= i < |labels| => Labelled(Some(prop), labels[i]))
  }

  /** `_preferredLabel`: the filtered `skos:prefLabel` objects if any
      survive the filter, else the filtered `rdfs:label` objects if any
      survive, else `default`. */
  function PreferredLabel(g: seq<Triple>, s: URI, lang: Option<string>, default: seq<Labelled>): Result<seq<Labelled>> {
    var pref :- Filter(lang, Objects(g, s, SKOS_PREF_LABEL));
    if pref != [] then Ok(Tagged(SKOS_PREF_LABEL, pref))
    else
      var labels :- Filter(lang, Objects(g, s, RDFS_LABEL));
      if labels != [] then Ok(Tagged(RDFS_LABEL, labels)) else Ok(default)
  }

  /** `n` is an object of `s` under `prop` that passes the filter. */
  ghost predicate Eligible(g: seq<Triple>, s: URI, prop: URI, lang: Option<string>, n: Node) {
    Triple(s, prop, n) in g && Keep(lang, n) == Ok(true)
  }

  /** prefLabel wins whenever one survives the filter; rdfs:label is read
      only when none does; the default only when neither property yields a
      label. The labels returned are exactly the eligible objects of the
      winning property: each returned one is eligible, and each eligible
      one is returned. */
  lemma PreferredLabelChoice(g: seq<Triple>, s: URI, lang: Option<string>, default: seq<Labelled>)
    requires PreferredLabel(g, s, lang, default).Ok?
    ensures var r := PreferredLabel(g, s, lang, default).value;
            && ((exists n :: Eligible(g, s, SKOS_PREF_LABEL, lang, n)) ==>
                  r != [] && forall i :: 0 <= i < |r| ==>
                    r[i].prop == Some(SKOS_PREF_LABEL) && Eligible(g, s, SKOS_PREF_LABEL, lang, r[i].node))
            && ((forall n :: !Eligible(g, s, SKOS_PREF_LABEL, lang, n)) && (exists n :: Eligible(g, s, RDFS_LABEL, lang, n)) ==>
                  r != [] && forall i :: 0 <= i < |r| ==>
                    r[i].prop == Some(RDFS_LABEL) && Eligible(g, s, RDFS_LABEL, lang, r[i].node))
            && ((forall n :: !Eligible(g, s, SKOS_PREF_LABEL, lang, n) && !Eligible(g, s, RDFS_LABEL, lang, n)) ==>
                  r == default)
            && (forall n :: Eligible(g, s, SKOS_PREF_LABEL, lang, n) ==> exists i :: 0 <= i < |r| && r[i].node == n)
            && ((forall n :: !Eligible(g, s, SKOS_PREF_LABEL, lang, n)) ==>
                  forall n :: Eligible(g, s, RDFS_LABEL, lang, n) ==> exists i :: 0 <= i < |r| && r[i].node == n)
  {
    var pref := Filter(lang, Objects(g, s, SKOS_PREF_LABEL)).value;
    if pref != [] {
      assert Eligible(g, s, SKOS_PREF_LABEL, lang, pref[0]);
      TaggedCovers(SKOS_PREF_LABEL, pref);
    } else {
      assert forall n :: Eligible(g, s, SKOS_PREF_LABEL, lang, n) ==> n in pref;
      var labels := Filter(lang, Objects(g, s, RDFS_LABEL)).value;
      if labels != [] {
        assert Eligible(g, s, RDFS_LABEL, lang, labels[0]);
        TaggedCovers(RDFS_LABEL, labels);
      } else {
        assert forall n :: Eligible(g, s, RDFS_LABEL, lang, n) ==> n in labels;
      }
    }
  }

  /** Every label appears in its tagged list. */
  lemma TaggedCovers(prop: URI, labels: seq<Node>)
    ensures forall n :: n in labels ==>
              exists i :: 0 <= i < |Tagged(prop, labels)| && Tagged(prop, labels)[i].node == n
  {
    forall n | n in labels
      ensures exists i :: 0 <= i < |Tagged(prop, labels)| && Tagged(prop, labels)[i].node == n
    {
      var i :| 0 <= i < |labels| && labels[i] == n;
      assert Tagged(prop, labels)[i].node == n;
    }
  }

  /** The first literal of `ns` whose tag equals `lang` (so `None` selects
      untagged literals), by its value. */
  function FirstWithLang(ns: seq<Node>, lang: Option<string>): (r: Option<string>)
    ensures r.None? <==> forall n :: n in ns ==> !(n.Lit? && n.lang == lang)
    ensures r.Some? ==> exists i :: 0 <= i < |ns| && ns[i] == Lit(r.value, lang) &&
                          forall j :: 0 <= j < i ==> !(ns[j].Lit? && ns[j].lang == lang)
  {
    if ns == [] then None
    else if ns[0].Lit? && ns[0].lang == lang then Some(ns[0].lexical)
    else
      var r := FirstWithLang(ns[1..], lang);
      assert forall n :: n in ns ==> n == ns[0] || n in ns[1..];
      if r.Some? then
        ghost var i :| 0 <= i < |ns[1..]| && ns[1..][i] == Lit(r.value, lang) &&
                       forall j :: 0 <= j < i ==> !(ns[1..][j].Lit? && ns[1..][j].lang == lang);
        assert ns[i + 1] == Lit(r.value, lang);
        r
      else r
  }

  /** `_get_value_for_lang`: the value of the first object of
      (subject, predicate) that is a literal tagged exactly `lang`. */
  function ValueForLang(g: seq<Triple>, s: URI, p: URI, lang: Option<string>): (r: Option<string>)
    ensures r.None? <==> forall v :: Triple(s, p, Lit(v, lang)) !in g
    ensures r.Some? ==> Triple(s, p, Lit(r.value, lang)) in g
  {
    var ns := Objects(g, s, p);
    var r := FirstWithLang(ns, lang);
    assert r.None? ==> forall v :: Lit(v, lang) !in ns;
    r
  }

  /** `value` is present and truthy. */
  predicate Yields(value: Option<Node>) {
    value.Some? && Truthy(value.value)
  }

  /** The first present and truthy entry of `vs`. */
  function FirstYield(vs: seq<Option<Node>>): (r: Option<Node>)
    ensures r.None? <==> forall i :: 0 <= i < |vs| ==> !Yields(vs[i])
    ensures r.Some? ==>
              Truthy(r.value) &&
              exists i :: 0 <= i < |vs| && vs[i] == r && forall j :: 0 <= j < i ==> !Yields(vs[j])
  {
    if vs == [] then None
    else if Yields(vs[0]) then vs[0]
    else
      var r := FirstYield(vs[1..]);
      if r.Some? then
        ghost var i :| 0 <= i < |vs[1..]| && vs[1..][i] == r && forall j :: 0 <= j < i ==> !Yields(vs[1..][j]);
        assert vs[i + 1] == r;
        r
      else r
  }

  /** `graph.value(s, p)` for each predicate of `preds`, in order. */
  function ValuesOf(g: seq<Triple>, s: URI, preds: seq<URI>): (vs: seq<Option<Node>>)
    ensures |vs| == |preds| && forall i :: 0 <= i < |preds| ==> vs[i] == Value(g, s, preds[i])
  {
    seq(|preds|, i requires 0 <= i < |preds| => Value(g, s, preds[i]))
  }

  /** `_valueFromPredicates`: for the first predicate in list order whose
      `graph.value` is truthy, that value; None when there is none. Only
      one object per predicate is consulted. */
  function ValueFromPredicates(g: seq<Triple>, s: URI, preds: seq<URI>): (r: Option<Node>)
    ensures r.None? <==> forall i :: 0 <= i < |preds| ==> !Yields(Value(g, s, preds[i]))
    ensures r.Some? ==>
              Truthy(r.value) &&
              exists i :: 0 <= i < |preds| && Value(g, s, preds[i]) == r &&
                forall j :: 0 <= j < i ==> !Yields(Value(g, s, preds[j]))
  {
    FirstYield(ValuesOf(g, s, preds))
  }

  /** With two predicates, the first wins whenever it yields; the second
      is consulted only otherwise. */
  lemma FirstOfTwo(g: seq<Triple>, s: URI, p: URI, q: URI)
    ensures var r := ValueFromPredicates(g, s, [p, q]);
            && (Yields(Value(g, s, p)) ==> r == Value(g, s, p))
            && (!Yields(Value(g, s, p)) && Yields(Value(g, s, q)) ==> r == Value(g, s, q))
            && (!Yields(Value(g, s, p)) && !Yields(Value(g, s, q)) ==> r.None?)
  {
    var preds := [p, q];
    var r := ValueFromPredicates(g, s, preds);
    if r.Some? {
      var i :| 0 <= i < |preds| && Value(g, s, preds[i]) == r &&
               forall j :: 0 <= j < i ==> !Yields(Value(g, s, preds[j]));
      if i == 1 {
        assert !Yields(Value(g, s, preds[0]));
      }
    } else {
      assert !Yields(Value(g, s, preds[0])) && !Yields(Value(g, s, preds[1]));
    }
  }
}
