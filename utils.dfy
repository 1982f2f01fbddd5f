/** The browser helpers shared by the pages: `getJSON`'s fallback, the
    profile-card link and its captions, and `filter(...).slice(0, n)` for
    suggestion lists.  `js/utils.js` and `js/script.js` carry the same helpers;
    their cards differ only in the image shown when the photo fails to load.
    Both files' `normalize` is Text.NormalizeOrEmpty. */
module Utils {
  import opened Seqs
  import opened JsRuntime
  import opened Text

  // ---- getJSON ----

  /** `getJSON(url)` given what `await (await fetch(url)).json()` produced (or
      threw): `j.data || []`, and `[]` when anything throws (including `j.data`
      on a null body). */
  function GetJson(body: Result<Js>): (r: Js)
    ensures Truthy(r)
    ensures body.Ok? && Truthy(Field(body.value, "data")) ==> r == Field(body.value, "data")
    ensures body.Err? || !Truthy(Field(body.value, "data")) ==> r == Arr([])
  {
    match body
    case Err(_) => Arr([])
    case Ok(j) =>
      match Member(j, "data")
      case Err(_) => Arr([])
      case Ok(d) => Or(d, Arr([]))
  }

  // ---- card ----

  /** `tipoInferido`: an explicit truthy `p.tipo` wins; otherwise the lower-cased
      `cargo` decides, "senador" before "deputado"; otherwise undefined.  A
      truthy `cargo` that is not a string makes `toLowerCase` throw. */
  function TipoInferido(u: Ucd, p: Js): Result<Js>
  {
    var tipo := Field(p, "tipo");
    if Truthy(tipo) then Ok(tipo)
    else
      var cargo :- LowerOf(u, Or(Field(p, "cargo"), Str("")));
      if Includes(cargo, "senador") then Ok(Str("senado"))
      else if Includes(cargo, "deputado") then Ok(Str("camara"))
      else Ok(Undefined)
  }

  lemma TipoPrecedence(u: Ucd, p: Js)
    ensures Truthy(Field(p, "tipo")) ==> TipoInferido(u, p) == Ok(Field(p, "tipo"))
    ensures !Truthy(Field(p, "tipo")) ==>
              var cargo := LowerOf(u, Or(Field(p, "cargo"), Str("")));
              && (cargo.Err? <==> TipoInferido(u, p).Err?)
              && (cargo.Ok? && Includes(cargo.value, "senador") ==> TipoInferido(u, p) == Ok(Str("senado")))
              && ((cargo.Ok? && !Includes(cargo.value, "senador") && Includes(cargo.value, "deputado"))
                  ==> TipoInferido(u, p) == Ok(Str("camara")))
              && ((cargo.Ok? && !Includes(cargo.value, "senador") && !Includes(cargo.value, "deputado"))
                  ==> TipoInferido(u, p) == Ok(Undefined))
    ensures TipoInferido(u, p).Err? <==> !Truthy(Field(p, "tipo")) && Truthy(Field(p, "cargo")) && !Field(p, "cargo").Str?
  {
  }

  /** The query parameters `card` collects, in insertion order. */
  function CardParams(u: Ucd, p: Js): Result<seq<(string, string)>>
  {
    var id := Field(p, "id");
    var tipo :- TipoInferido(u, p);
    Ok((if Nullish(id) then [] else [("id", ToStr(id))]) + (if Truthy(tipo) then [("tipo", ToStr(tipo))] else []))
  }

  predicate HasParam(ps: seq<(string, string)>, k: string)
  {
    exists i :: 0 <= i < |ps| && ps[i].0 == k
  }

  /** `card`'s URLSearchParams, set step by step. */
  method BuildCardParams(u: Ucd, p: Js) returns (r: Result<seq<(string, string)>>)
    ensures r == CardParams(u, p)
  {
    var params: seq<(string, string)> := [];
    var id := Field(p, "id");
    if !Nullish(id) {
      params := params + [("id", ToStr(id))];
    }
    ghost var withId := params;
    var tipo := TipoInferido(u, p);
    if tipo.Err? {
      return Err(tipo.error);
    }
    if Truthy(tipo.value) {
      params := params + [("tipo", ToStr(tipo.value))];
    } else {
      assert params == withId + [];
    }
    assert withId == (if Nullish(id) then [] else [("id", ToStr(id))]);
    assert CardParams(u, p) == Ok(withId + (if Truthy(tipo.value) then [("tipo", ToStr(tipo.value))] else []));
    return Ok(params);
  }

  /** The link carries `id` iff `p.id` is neither undefined nor null, then
      `tipo` iff one was inferred, and nothing else; `id` comes first. */
  lemma CardParamsMeaning(u: Ucd, p: Js)
    requires TipoInferido(u, p).Ok?
    ensures var ps := CardParams(u, p);
            var tipo := TipoInferido(u, p).value;
            && ps.Ok?
            && (HasParam(ps.value, "id") <==> !Nullish(Field(p, "id")))
            && (HasParam(ps.value, "tipo") <==> Truthy(tipo))
            && (!Nullish(Field(p, "id")) ==> ps.value[0] == ("id", ToStr(Field(p, "id"))))
            && (Truthy(tipo) ==> ps.value[|ps.value| - 1] == ("tipo", ToStr(tipo)))
            && (forall i :: 0 <= i < |ps.value| ==> ps.value[i].0 in {"id", "tipo"})
  {
    var ps := CardParams(u, p).value;
    var tipo := TipoInferido(u, p).value;
    if !Nullish(Field(p, "id")) {
      assert ps[0].0 == "id";
    }
    if Truthy(tipo) {
      assert ps[|ps| - 1].0 == "tipo";
    }
  }

  /** The text under the name: `${p.partido || ""} • ${p.municipio ? p.municipio + "/" + p.uf : p.uf}`. */
  function Subtitle(p: Js): string
  {
    var municipio := Field(p, "municipio");
    ToStr(Or(Field(p, "partido"), Str(""))) + " \U{2022} "
      + (if Truthy(municipio) then ToStr(municipio) + "/" + ToStr(Field(p, "uf")) else ToStr(Field(p, "uf")))
  }

  /** The subtitle is the party (nothing when it is falsy), the bullet, then
      `municipio/uf` when there is a municipality and only the state otherwise. */
  lemma SubtitleCases(p: Js)
    ensures var party := Field(p, "partido");
            var rest := if Truthy(Field(p, "municipio")) then ToStr(Field(p, "municipio")) + "/" + ToStr(Field(p, "uf"))
                        else ToStr(Field(p, "uf"));
            && (!Truthy(party) ==> Subtitle(p) == " \U{2022} " + rest)
            && (party.Str? && party.s != "" ==> Subtitle(p) == party.s + " \U{2022} " + rest)
  {
  }

  /** A party and a state give `PT • SP`; a municipality without a party
      gives ` • Campinas/SP`. */
  lemma SubtitleExamples(a: Js, b: Js)
    requires a == Obj(map["partido" := Str("PT"), "uf" := Str("SP")])
    requires b == Obj(map["municipio" := Str("Campinas"), "uf" := Str("SP")])
    ensures Subtitle(a) == "PT \U{2022} SP"
    ensures Subtitle(b) == " \U{2022} Campinas/SP"
  {
    assert Field(a, "partido") == Str("PT") && Field(a, "uf") == Str("SP") && Field(a, "municipio") == Undefined;
    SubtitleCases(a);
    assert Field(b, "partido") == Undefined && Field(b, "municipio") == Str("Campinas") && Field(b, "uf") == Str("SP");
    SubtitleCases(b);
  }

  /** What the card's markup shows: link, photo, name, office, subtitle and
      the image that replaces a photo that fails to load. */
  datatype CardView = CardView(href: string, foto: string, nome: string, cargo: string, subtitle: string,
                               fallbackImage: string)

  /** `card(p)`.  `formEncode` is URLSearchParams' form encoding.  The query
      string is built with optional chaining, but the markup reads `p.foto`
      directly, so a null or undefined `p` throws there. */
  function Card(u: Ucd, formEncode: string -> string, fallback: string, p: Js): Result<CardView>
  {
    var ps :- CardParams(u, p);
    if Nullish(p) then Err(ReadError(p, "foto"))
    else Ok(CardView("perfil.html?" + Serialize(ps, formEncode), ToStr(Field(p, "foto")),
                     ToStr(Field(p, "nome")), ToStr(Field(p, "cargo")), Subtitle(p), fallback))
  }

  const UtilsPlaceholder := "https://via.placeholder.com/160x200.png?text=Sem+Foto"
  const ScriptPlaceholder := "/photos/placeholder.jpg"

  /** `card` of js/utils.js */
  function UtilsCard(u: Ucd, formEncode: string -> string, p: Js): Result<CardView>
  {
    Card(u, formEncode, UtilsPlaceholder, p)
  }

  /** `card` of js/script.js */
  function ScriptCard(u: Ucd, formEncode: string -> string, p: Js): Result<CardView>
  {
    Card(u, formEncode, ScriptPlaceholder, p)
  }

  /** The card's link is `perfil.html?` with the parameters above, and the two
      copies of `card` differ only in the fallback image. */
  lemma CardsAgree(u: Ucd, formEncode: string -> string, p: Js)
    ensures UtilsCard(u, formEncode, p).Ok? <==> ScriptCard(u, formEncode, p).Ok?
    ensures UtilsCard(u, formEncode, p).Ok? <==> CardParams(u, p).Ok? && !Nullish(p)
    ensures UtilsCard(u, formEncode, p).Ok? ==>
              && UtilsCard(u, formEncode, p).value.href == "perfil.html?" + Serialize(CardParams(u, p).value, formEncode)
              && UtilsCard(u, formEncode, p).value.fallbackImage == UtilsPlaceholder
              && ScriptCard(u, formEncode, p).value
                 == UtilsCard(u, formEncode, p).value.(fallbackImage := ScriptPlaceholder)
  {
  }

  // ---- suggestion lists ----

  /** `xs.filter(pred).slice(0, n)` */
  function FirstMatches<T(!new)>(xs: seq<T>, pred: T -> Result<bool>, n: nat): (r: Result<seq<T>>)
    ensures r.Ok? <==> forall i :: 0 <= i < |xs| ==> pred(xs[i]).Ok?
    ensures r.Ok? ==> r.value == Take(Filter(Kept(pred), xs), n)
  {
    var kept :- FilterThrowing(xs, pred);
    Ok(Take(kept, n))
  }

  /** At most `n` suggestions, each an accepted element, in input order, and
      every accepted element when there are no more than `n`. */
  lemma {:induction false} FirstMatchesMeaning<T(!new)>(xs: seq<T>, pred: T -> Result<bool>, n: nat)
    requires FirstMatches(xs, pred, n).Ok?
    ensures var r := FirstMatches(xs, pred, n).value;
            && |r| <= n
            && IsSubsequence(r, xs)
            && (forall x :: x in r ==> x in xs && pred(x) == Ok(true))
            && (|Filter(Kept(pred), xs)| <= n ==> forall x :: x in xs && pred(x) == Ok(true) ==> x in r)
  {
    var all := Filter(Kept(pred), xs);
    FilterIsSubsequence(Kept(pred), xs);
    if |all| > n {
      PrefixIsSubsequence(all, n, xs);
      assert Take(all, n) == all[..n];
    }
    forall x | x in Take(all, n) ensures x in xs && pred(x) == Ok(true) {
      assert x in all;
    }
  }

  // ---- the municipal panel ----

  /** The cards of a municipality: only the first mayor the route answered
      (`prefeitos.length ? card(prefeitos[0]) : ...`), then every councillor in
      order (`vereadores.map(card)`). */
  function MunicipalCards(u: Ucd, formEncode: string -> string, fallback: string, prefeitos: seq<Js>,
                          vereadores: seq<Js>): Result<(Option<CardView>, seq<CardView>)>
  {
    var mayor :- if |prefeitos| > 0 then (var c :- Card(u, formEncode, fallback, prefeitos[0]); Ok(Some(c)))
                 else Ok(None);
    var council :- MapThrowing(vereadores, (v: Js) => Card(u, formEncode, fallback, v));
    Ok((mayor, council))
  }

  lemma MunicipalCardsMeaning(u: Ucd, formEncode: string -> string, fallback: string, prefeitos: seq<Js>,
                              vereadores: seq<Js>)
    requires MunicipalCards(u, formEncode, fallback, prefeitos, vereadores).Ok?
    ensures var (mayor, council) := MunicipalCards(u, formEncode, fallback, prefeitos, vereadores).value;
            && (mayor.Some? <==> |prefeitos| > 0)
            && (mayor.Some? ==> Card(u, formEncode, fallback, prefeitos[0]) == Ok(mayor.value))
            && |council| == |vereadores|
            && (forall i :: 0 <= i < |vereadores| ==> Card(u, formEncode, fallback, vereadores[i]) == Ok(council[i]))
  {
  }
}
