/** The "quem cobrar" page: its own `normalize` and the autocomplete filter
    for states and cities. */
module QuemCobrar {
  import opened Seqs
  import opened JsRuntime
  import opened Text
  import opened Utils

  /** The page's `normalize(str)` has no `(s || "")` guard: it is
      Text.NormalizeOf.  On strings it agrees with the shared helper; on null
      and undefined it throws where the helper gives "". */
  lemma NormalizeAgrees(u: Ucd, v: Js)
    ensures v.Str? ==> NormalizeOf(u, v) == NormalizeOrEmpty(u, v) == Ok(Normalize(u, v.s))
    ensures Nullish(v) ==> NormalizeOf(u, v).Err? && NormalizeOrEmpty(u, v) == Ok("")
  {
  }

  /** The filter callback, for a normalized query `q`:
      `normalize(item.nome).includes(q) || normalize(item.sigla || "").includes(q)`. */
  function Suggests(u: Ucd, q: string, item: Js): Result<bool>
  {
    var nome :- Member(item, "nome");
    var n :- NormalizeOf(u, nome);
    if Includes(n, q) then Ok(true)
    else
      var s :- NormalizeOf(u, Or(Field(item, "sigla"), Str("")));
      Ok(Includes(s, q))
  }

  /** An item is suggested iff its name, or its abbreviation when it has a
      truthy one, contains the query once both are normalized. */
  lemma SuggestsIff(u: Ucd, q: string, item: Js)
    ensures Suggests(u, q, item) == Ok(true) <==>
            && Field(item, "nome").Str?
            && (|| Includes(Normalize(u, Field(item, "nome").s), q)
                || (Field(item, "sigla").Str? && Includes(Normalize(u, Field(item, "sigla").s), q)))
  {
    var sigla := Field(item, "sigla");
    if q == "" && Field(item, "nome").Str? {
      assert OccursAt(Normalize(u, Field(item, "nome").s), q, 0);
    }
    if Field(item, "nome").Str? && !Includes(Normalize(u, Field(item, "nome").s), q) && !Truthy(sigla) {
      assert Normalize(u, "") == "";
      assert !Includes("", q);
    }
  }

  /** The `filter` callback for the normalized query `q`. */
  function SuggestsFilter(u: Ucd, q: string): Js -> Result<bool> { item => Suggests(u, q, item) }

  /** The suggestions for the text typed so far: none for an empty normalized
      query, otherwise the first ten matching items. */
  function Suggestions(u: Ucd, data: seq<Js>, input: string): Result<seq<Js>>
  {
    var q := Normalize(u, input);
    if q == "" then Ok([]) else FirstMatches(data, SuggestsFilter(u, q), 10)
  }

  /** None for an empty normalized query; otherwise the callback throws on
      no item and the list is the first ten suggested items in input order, so
      it holds every suggested item when there are at most ten. */
  lemma SuggestionsMeaning(u: Ucd, data: seq<Js>, input: string)
    ensures var r := Suggestions(u, data, input);
            var q := Normalize(u, input);
            var all := Filter(Kept(SuggestsFilter(u, q)), data);
            && (q == "" ==> r == Ok([]))
            && (q != "" ==> (r.Ok? <==> forall i :: 0 <= i < |data| ==> Suggests(u, q, data[i]).Ok?))
            && (q != "" && r.Ok? ==> r.value == Take(all, 10))
            && (r.Ok? ==> && |r.value| <= 10 && IsSubsequence(r.value, data)
                          && (forall x :: x in r.value ==> x in data && Suggests(u, q, x) == Ok(true)))
            && (q != "" && r.Ok? && |all| <= 10 ==>
                  forall x :: x in data && Suggests(u, q, x) == Ok(true) ==> x in r.value)
  {
    var q := Normalize(u, input);
    if q == "" {
      assert IsSubsequence<Js>([], data);
    } else if Suggestions(u, data, input).Ok? {
      FirstMatchesMeaning(data, SuggestsFilter(u, q), 10);
    }
  }

  /** Typing with or without accents and capitals gives the same suggestions. */
  lemma SuggestionsIgnoreAccents(u: Ucd, data: seq<Js>, input: string)
    requires Coherent(u)
    ensures Suggestions(u, data, Normalize(u, input)) == Suggestions(u, data, input)
  {
    NormalizeIdempotent(u, input);
  }

  /** With the Latin-1 table, "sao" finds "S\U{00E3}o Paulo". */
  lemma SaoPauloSuggested(nome: string)
    requires nome == "S\U{00E3}o Paulo"
    ensures Suggests(Latin1(), "sao", Obj(map["nome" := Str(nome)])) == Ok(true)
  {
    SaoPauloFolded(nome);
    assert OccursAt("sao paulo", "sao", 0);
    SuggestedByName(Latin1(), "sao", Obj(map["nome" := Str(nome)]), nome, "sao paulo");
  }

  lemma SaoPauloFolded(nome: string)
    requires nome == "S\U{00E3}o Paulo"
    ensures Normalize(Latin1(), nome) == "sao paulo"
  {
    SaoPauloExample();
  }

  lemma SuggestedByName(u: Ucd, q: string, item: Js, nome: string, folded: string)
    requires Field(item, "nome") == Str(nome) && Normalize(u, nome) == folded && Includes(folded, q)
    ensures Suggests(u, q, item) == Ok(true)
  {
  }
}
