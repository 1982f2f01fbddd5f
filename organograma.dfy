/** The "organograma" page: state and city suggestions, the deputies list
    shaped for cards, and the senators of the selected state.  Its
    suggestions lower-case but do not strip accents: the imported `normalize`
    is not used. */
module Organograma {
  import opened Seqs
  import opened JsRuntime
  import opened Text
  import opened Utils

  /** `e.nome.toLowerCase().includes(q) || e.sigla.toLowerCase().includes(q)` */
  function EstadoMatches(u: Ucd, q: string, e: Js): Result<bool>
  {
    var nome :- Member(e, "nome");
    var n :- LowerOf(u, nome);
    if Includes(n, q) then Ok(true)
    else
      var s :- LowerOf(u, Field(e, "sigla"));
      Ok(Includes(s, q))
  }

  /** `c.nome.toLowerCase().includes(q)` */
  function CidadeMatches(u: Ucd, q: string, c: Js): Result<bool>
  {
    var nome :- Member(c, "nome");
    var n :- LowerOf(u, nome);
    Ok(Includes(n, q))
  }

  /** The `filter` callbacks for the lower-cased query `q`. */
  function EstadoFilter(u: Ucd, q: string): Js -> Result<bool> { e => EstadoMatches(u, q, e) }

  function CidadeFilter(u: Ucd, q: string): Js -> Result<bool> { c => CidadeMatches(u, q, c) }

  /** The state suggestions for the typed text: none when it is empty, else the
      first ten matches. */
  function EstadoSuggestions(u: Ucd, estados: seq<Js>, input: string): Result<seq<Js>>
  {
    var q := LowerStr(u, input);
    if q == "" then Ok([]) else FirstMatches(estados, EstadoFilter(u, q), 10)
  }

  /** The city suggestions for the typed text. */
  function CidadeSuggestions(u: Ucd, cidades: seq<Js>, input: string): Result<seq<Js>>
  {
    var q := LowerStr(u, input);
    if q == "" then Ok([]) else FirstMatches(cidades, CidadeFilter(u, q), 10)
  }

  /** A state is suggested iff its lower-cased name or abbreviation contains
      the lower-cased query; a city iff its lower-cased name does. */
  lemma MatchesIff(u: Ucd, q: string, x: Js)
    ensures EstadoMatches(u, q, x) == Ok(true) <==>
            && Field(x, "nome").Str?
            && (|| Includes(LowerStr(u, Field(x, "nome").s), q)
                || (Field(x, "sigla").Str? && Includes(LowerStr(u, Field(x, "sigla").s), q)))
    ensures CidadeMatches(u, q, x) == Ok(true) <==>
            Field(x, "nome").Str? && Includes(LowerStr(u, Field(x, "nome").s), q)
  {
  }

  /** Both lists: empty for an empty query; otherwise the callback throws on
      no element and the list is the first ten matches in input order, so it
      holds every match when there are at most ten. */
  lemma SuggestionsMeaning(u: Ucd, estados: seq<Js>, cidades: seq<Js>, input: string)
    ensures var r := EstadoSuggestions(u, estados, input);
            var q := LowerStr(u, input);
            var all := Filter(Kept(EstadoFilter(u, q)), estados);
            && (input == "" ==> r == Ok([]))
            && (input != "" ==> (r.Ok? <==> forall i :: 0 <= i < |estados| ==> EstadoMatches(u, q, estados[i]).Ok?))
            && (input != "" && r.Ok? ==> r.value == Take(all, 10))
            && (r.Ok? ==> && |r.value| <= 10 && IsSubsequence(r.value, estados)
                          && (forall x :: x in r.value ==> x in estados && EstadoMatches(u, q, x) == Ok(true)))
            && (input != "" && r.Ok? && |all| <= 10 ==>
                  forall x :: x in estados && EstadoMatches(u, q, x) == Ok(true) ==> x in r.value)
    ensures var r := CidadeSuggestions(u, cidades, input);
            var q := LowerStr(u, input);
            var all := Filter(Kept(CidadeFilter(u, q)), cidades);
            && (input == "" ==> r == Ok([]))
            && (input != "" ==> (r.Ok? <==> forall i :: 0 <= i < |cidades| ==> CidadeMatches(u, q, cidades[i]).Ok?))
            && (input != "" && r.Ok? ==> r.value == Take(all, 10))
            && (r.Ok? ==> && |r.value| <= 10 && IsSubsequence(r.value, cidades)
                          && (forall x :: x in r.value ==> x in cidades && CidadeMatches(u, q, x) == Ok(true)))
            && (input != "" && r.Ok? && |all| <= 10 ==>
                  forall x :: x in cidades && CidadeMatches(u, q, x) == Ok(true) ==> x in r.value)
  {
    var q := LowerStr(u, input);
    if q == "" {
      assert IsSubsequence<Js>([], estados) && IsSubsequence<Js>([], cidades);
    } else {
      if EstadoSuggestions(u, estados, input).Ok? {
        FirstMatchesMeaning(estados, EstadoFilter(u, q), 10);
      }
      if CidadeSuggestions(u, cidades, input).Ok? {
        FirstMatchesMeaning(cidades, CidadeFilter(u, q), 10);
      }
    }
  }

  /** Accent-sensitive: with the Latin-1 table, "sao" does not find
      "S\U{00E3}o Paulo" among the cities. */
  lemma SaoPauloNotSuggested(nome: string)
    requires nome == "S\U{00E3}o Paulo"
    ensures CidadeMatches(Latin1(), "sao", Obj(map["nome" := Str(nome)])) == Ok(false)
  {
    LoweredSaoPaulo(nome);
    AccentedNotFound("s\U{00E3}o paulo");
  }

  lemma AccentedNotFound(lowered: string)
    requires lowered == "s\U{00E3}o paulo"
    ensures !Includes(lowered, "sao")
  {
    forall i | 0 <= i <= |lowered| - 3 ensures !OccursAt(lowered, "sao", i) {
      if i == 0 {
        assert lowered[i..i + 3][1] != "sao"[1];
      } else {
        assert lowered[i..i + 3][0] != "sao"[0];
      }
    }
  }

  lemma LoweredSaoPaulo(nome: string)
    requires nome == "S\U{00E3}o Paulo"
    ensures LowerStr(Latin1(), nome) == "s\U{00E3}o paulo"
  {
    var l := LowerStr(Latin1(), nome);
    assert |l| == 9;
    forall i | 0 <= i < 9 ensures l[i] == "s\U{00E3}o paulo"[i] {
      if i == 0 {} else if i == 1 {} else if i == 2 {} else if i == 3 {} else if i == 4 {}
      else if i == 5 {} else if i == 6 {} else if i == 7 {} else { assert i == 8; }
    }
  }

  // ---- Deputados federais ----

  const DeputadoFederal := "Deputado Federal"

  /** `d => ({ id, nome, cargo: "Deputado Federal", partido, uf, foto })` with
      the fallbacks through `d.ultimoStatus` and the selected `uf`. */
  function ProjectDeputy(d: Js, uf: string): (r: Result<Js>)
    ensures r.Ok? <==> !Nullish(d)
    ensures r.Ok? ==> && r.value.Obj?
                      && r.value.fields.Keys == {"id", "nome", "cargo", "partido", "uf", "foto"}
                      && Field(r.value, "id") == Field(d, "id") && Field(r.value, "nome") == Field(d, "nome")
                      && Field(r.value, "cargo") == Str(DeputadoFederal) && Field(r.value, "tipo") == Undefined
  {
    if Nullish(d) then Err(ReadError(d, "id"))
    else
      var status := Field(d, "ultimoStatus");
      Ok(Obj(map[
        "id" := Field(d, "id"),
        "nome" := Field(d, "nome"),
        "cargo" := Str(DeputadoFederal),
        "partido" := Or(Or(Field(d, "siglaPartido"), Field(status, "siglaPartido")), Str("")),
        "uf" := Or(Or(Field(d, "siglaUf"), Field(status, "siglaUf")), Str(uf)),
        "foto" := Or(Field(d, "urlFoto"), Field(status, "urlFoto"))]))
  }

  /** The first truthy of the deputy's own field and the one under
      `ultimoStatus`, then the fallback. */
  function FirstTruthy(own: Js, status: Js, fallback: Js): Js
  {
    if Truthy(own) then own else if Truthy(status) then status else fallback
  }

  /** partido falls back from the deputy's own party to its latest status's to
      ""; uf from its own state to its latest status's to the selected one;
      foto from its own photo to its latest status's. */
  lemma DeputyFallbacks(d: Js, uf: string)
    requires !Nullish(d)
    ensures var p := ProjectDeputy(d, uf).value;
            var st := Field(d, "ultimoStatus");
            && Field(p, "partido") == FirstTruthy(Field(d, "siglaPartido"), Field(st, "siglaPartido"), Str(""))
            && Field(p, "uf") == FirstTruthy(Field(d, "siglaUf"), Field(st, "siglaUf"), Str(uf))
            && Field(p, "foto") == FirstTruthy(Field(d, "urlFoto"), Field(st, "urlFoto"), Field(st, "urlFoto"))
            && Field(p, "tipo") == Undefined
  {
  }

  /** `deputados.map(...)` */
  function Deputies(deputados: seq<Js>, uf: string): Result<seq<Js>>
  {
    MapThrowing(deputados, (d: Js) => ProjectDeputy(d, uf))
  }

  /** The list answers iff no deputy is null or undefined; then it has one
      entry per deputy, in order, each with the deputy's id and name and the
      office "Deputado Federal". */
  lemma DeputiesMeaning(deputados: seq<Js>, uf: string)
    ensures var r := Deputies(deputados, uf);
            && (r.Ok? <==> forall i :: 0 <= i < |deputados| ==> !Nullish(deputados[i]))
            && (r.Ok? ==> && |r.value| == |deputados|
                          && forall i :: 0 <= i < |deputados| ==>
                               && Field(r.value[i], "id") == Field(deputados[i], "id")
                               && Field(r.value[i], "nome") == Field(deputados[i], "nome")
                               && Field(r.value[i], "cargo") == Str(DeputadoFederal)
                               && Field(r.value[i], "tipo") == Undefined)
  {
  }

  /** Every card of the list links to the Câmara. */
  lemma DeputiesAreCamara(u: Ucd, deputados: seq<Js>, uf: string)
    requires AsciiCase(u)
    requires Deputies(deputados, uf).Ok?
    ensures var r := Deputies(deputados, uf).value;
            forall i :: 0 <= i < |r| ==> TipoInferido(u, r[i]) == Ok(Str("camara"))
  {
    var r := Deputies(deputados, uf).value;
    DeputiesMeaning(deputados, uf);
    LoweredOffice(u, DeputadoFederal);
    CamaraOffice(LowerStr(u, DeputadoFederal));
    forall i | 0 <= i < |r| ensures TipoInferido(u, r[i]) == Ok(Str("camara")) {
      DeputyOfficeTipo(u, r[i], DeputadoFederal, LowerStr(u, DeputadoFederal));
    }
  }

  /** The card of a listed deputy links to a Câmara profile: it carries the
      deputy's id when there is one and `tipo=camara`, because the fixed
      office "Deputado Federal" lower-cases to a text containing "deputado"
      and not "senador". */
  lemma DeputyCardIsCamara(u: Ucd, d: Js, uf: string)
    requires !Nullish(d)
    requires AsciiCase(u)
    ensures var p := ProjectDeputy(d, uf).value;
            CardParams(u, p) == Ok((if Nullish(Field(d, "id")) then [] else [("id", ToStr(Field(d, "id")))])
                                   + [("tipo", "camara")])
  {
    var p := ProjectDeputy(d, uf).value;
    LoweredOffice(u, DeputadoFederal);
    CamaraOffice(LowerStr(u, DeputadoFederal));
    DeputyOfficeTipo(u, p, DeputadoFederal, LowerStr(u, DeputadoFederal));
    CardParamsWithTipo(u, p, "camara");
  }

  lemma CardParamsWithTipo(u: Ucd, p: Js, t: string)
    requires TipoInferido(u, p) == Ok(Str(t)) && t != ""
    ensures CardParams(u, p) == Ok((if Nullish(Field(p, "id")) then [] else [("id", ToStr(Field(p, "id")))])
                                   + [("tipo", t)])
  {
  }

  lemma DeputyOfficeTipo(u: Ucd, p: Js, cargo: string, lowered: string)
    requires Field(p, "tipo") == Undefined && Field(p, "cargo") == Str(cargo) && cargo != ""
    requires LowerStr(u, cargo) == lowered && Includes(lowered, "deputado") && !Includes(lowered, "senador")
    ensures TipoInferido(u, p) == Ok(Str("camara"))
  {
  }

  /** `toLowerCase` on an ASCII code point. */
  function AsciiLowerChar(c: char): char
  {
    if 'A' <= c <= 'Z' then (c as int + 32) as char else c
  }

  /** The table lower-cases ASCII code points the usual way. */
  predicate AsciiCase(u: Ucd)
  {
    forall c :: c < 128 as char ==> u.lower(c) == AsciiLowerChar(c)
  }

  /** The Latin-1 table is such a table. */
  lemma Latin1AsciiCase()
    ensures AsciiCase(Latin1())
  {
  }

  lemma LowerAsciiString(u: Ucd, s: string)
    requires AsciiCase(u) && forall i :: 0 <= i < |s| ==> s[i] < 128 as char
    ensures LowerStr(u, s) == Map(AsciiLowerChar, s)
  {
  }

  lemma LoweredOffice(u: Ucd, office: string)
    requires AsciiCase(u) && office == DeputadoFederal
    ensures LowerStr(u, office) == "deputado federal"
  {
    OfficeIsAscii(office);
    LowerAsciiString(u, office);
    AsciiLoweredOffice(office);
  }

  lemma OfficeIsAscii(office: string)
    requires office == DeputadoFederal
    ensures forall i :: 0 <= i < |office| ==> office[i] < 128 as char
  {
  }

  lemma AsciiLoweredOffice(office: string)
    requires office == DeputadoFederal
    ensures Map(AsciiLowerChar, office) == "deputado federal"
  {
    var target := "deputado federal";
    assert |office| == |target| == 16;
    forall i | 0 <= i < 16 ensures AsciiLowerChar(office[i]) == target[i] {
      if i == 0 {} else if i == 1 {} else if i == 2 {} else if i == 3 {} else if i == 4 {}
      else if i == 5 {} else if i == 6 {} else if i == 7 {} else if i == 8 {} else if i == 9 {}
      else if i == 10 {} else if i == 11 {} else if i == 12 {} else if i == 13 {} else if i == 14 {}
      else { assert i == 15; }
    }
    MapPointwise(AsciiLowerChar, office, target);
  }

  lemma CamaraOffice(lowered: string)
    requires lowered == "deputado federal"
    ensures Includes(lowered, "deputado") && !Includes(lowered, "senador")
  {
    assert OccursAt(lowered, "deputado", 0);
    forall i | 0 <= i <= |lowered| - 7 ensures !OccursAt(lowered, "senador", i) {
      assert lowered[i..i + 7][0] != "senador"[0];
    }
  }

  // ---- Senadores ----

  /** `s.uf.toLowerCase() === uf.toLowerCase()` */
  function SameState(u: Ucd, uf: string, s: Js): Result<bool>
  {
    var x :- Member(s, "uf");
    var l :- LowerOf(u, x);
    Ok(l == LowerStr(u, uf))
  }

  /** `senadores.filter(...)` */
  function SenatorsOf(u: Ucd, senadores: seq<Js>, uf: string): Result<seq<Js>>
  {
    FilterThrowing(senadores, (s: Js) => SameState(u, uf, s))
  }

  /** The senators kept are exactly those whose state equals the selected one
      case-insensitively, in list order. */
  lemma {:induction false} SenatorsOfMeaning(u: Ucd, senadores: seq<Js>, uf: string)
    ensures var r := SenatorsOf(u, senadores, uf);
            && (r.Ok? <==> forall i :: 0 <= i < |senadores| ==> Field(senadores[i], "uf").Str?)
            && (r.Ok? ==> && r.value == Filter((s: Js) => Field(s, "uf").Str? && LowerStr(u, Field(s, "uf").s) == LowerStr(u, uf), senadores)
                          && IsSubsequence(r.value, senadores))
  {
    var pred := (s: Js) => SameState(u, uf, s);
    var spec := (s: Js) => Field(s, "uf").Str? && LowerStr(u, Field(s, "uf").s) == LowerStr(u, uf);
    forall i | 0 <= i < |senadores| ensures pred(senadores[i]).Ok? <==> Field(senadores[i], "uf").Str? {
    }
    if SenatorsOf(u, senadores, uf).Ok? {
      forall s | s in senadores ensures Kept(pred)(s) == spec(s) {
        var i :| 0 <= i < |senadores| && senadores[i] == s;
      }
      FilterExtensional(Kept(pred), spec, senadores);
      FilterIsSubsequence(spec, senadores);
    }
  }
}
