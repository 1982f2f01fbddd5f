/** The elected-candidate index of the server: the 2024 candidate table is
    read row by row, the elected rows become candidate records, and the five
    office routes (prefeitos, vereadores, governadores, vicegovernadores,
    viceprefeitos) filter that list.

    A CSV row is the string map the CSV parser hands over, with headers and
    values already trimmed. */
module Candidates {
  import opened Seqs
  import opened JsRuntime
  import opened Text

  type Row = map<string, string>

  /** `row.K`: the column's value, or undefined when the row has no such column. */
  function Column(row: Row, k: string): Js
  {
    if k in row then Str(row[k]) else Undefined
  }

  /** The record the loader keeps for an elected row. */
  datatype Candidate = Candidate(id: Js, nome: Js, cargo: Js, partido: Js, uf: Js, municipio: Js, foto: string)

  /** `row.DS_SIT_TOT_TURNO === "ELEITO"` */
  predicate IsElected(row: Row)
  {
    Column(row, "DS_SIT_TOT_TURNO") == Str("ELEITO")
  }

  /** The photo path `/fotos2024/foto_cand2024_${uf}_div/${sq}.jpg`. */
  function PhotoPath(uf: Js, sq: Js): string
  {
    "/fotos2024/foto_cand2024_" + ToStr(uf) + "_div/" + ToStr(sq) + ".jpg"
  }

  function ToCandidate(row: Row): Candidate
  {
    var uf := Column(row, "SG_UF");
    var sq := Column(row, "SQ_CANDIDATO");
    Candidate(sq, Column(row, "NM_URNA_CANDIDATO"), Column(row, "DS_CARGO"), Column(row, "SG_PARTIDO"),
              uf, Column(row, "NM_UE"), PhotoPath(uf, sq))
  }

  /** The candidates the loader collects from `rows`, in stream order. */
  function Elected(rows: seq<Row>): seq<Candidate>
  {
    Map(ToCandidate, Filter(IsElected, rows))
  }

  /** One more row adds its record at the end when it is elected, and nothing otherwise. */
  lemma ElectedSnoc(rows: seq<Row>, row: Row)
    ensures Elected(rows + [row]) == Elected(rows) + (if IsElected(row) then [ToCandidate(row)] else [])
  {
    FilterConcat(IsElected, rows, [row]);
    FilterCons(IsElected, row, []);
    MapConcat(ToCandidate, Filter(IsElected, rows), Filter(IsElected, [row]));
  }

  lemma ElectedPrefix(rows: seq<Row>, i: nat)
    requires i < |rows|
    ensures Elected(rows[..i + 1]) == Elected(rows[..i]) + (if IsElected(rows[i]) then [ToCandidate(rows[i])] else [])
  {
    assert rows[..i + 1] == rows[..i] + [rows[i]];
    ElectedSnoc(rows[..i], rows[i]);
  }

  /** The `data` handler run over the whole stream: one `push` per elected row. */
  method CollectElected(rows: seq<Row>) returns (results: seq<Candidate>)
    ensures results == Elected(rows)
  {
    results := [];
    for i := 0 to |rows|
      invariant results == Elected(rows[..i])
    {
      var row := rows[i];
      ElectedPrefix(rows, i);
      if IsElected(row) {
        results := results + [ToCandidate(row)];
      }
    }
    assert rows[..|rows|] == rows;
  }

  /** A candidate is loaded iff some elected row produced it; each row
      contributes its `SQ_CANDIDATO`, `NM_URNA_CANDIDATO`, `DS_CARGO`,
      `SG_PARTIDO`, `SG_UF` and `NM_UE` and the photo path built from its
      state and sequence number. */
  lemma ElectedMembership(rows: seq<Row>, c: Candidate)
    ensures c in Elected(rows) <==>
            exists row :: row in rows && IsElected(row)
                          && c.id == Column(row, "SQ_CANDIDATO") && c.nome == Column(row, "NM_URNA_CANDIDATO")
                          && c.cargo == Column(row, "DS_CARGO") && c.partido == Column(row, "SG_PARTIDO")
                          && c.uf == Column(row, "SG_UF") && c.municipio == Column(row, "NM_UE")
                          && c.foto == PhotoPath(Column(row, "SG_UF"), Column(row, "SQ_CANDIDATO"))
  {
    var kept := Filter(IsElected, rows);
    if c in Elected(rows) {
      var j :| 0 <= j < |kept| && Elected(rows)[j] == c;
      assert kept[j] in kept;
    }
  }

  /** The loaded list keeps the order of the stream and has one record per elected row. */
  lemma ElectedOrder(rows: seq<Row>)
    ensures |Elected(rows)| == |Filter(IsElected, rows)|
    ensures forall i :: 0 <= i < |Elected(rows)| ==> Elected(rows)[i] == ToCandidate(Filter(IsElected, rows)[i])
    ensures IsSubsequence(Filter(IsElected, rows), rows)
  {
    FilterIsSubsequence(IsElected, rows);
  }

  /** A record whose state and municipality are strings, as every record of a
      row that has the `SG_UF` and `NM_UE` columns is. */
  predicate WellFormed(c: Candidate) { c.uf.Str? && c.municipio.Str? }

  lemma ElectedWellFormed(rows: seq<Row>)
    requires forall row :: row in rows ==> "SG_UF" in row && "NM_UE" in row
    ensures forall c :: c in Elected(rows) ==> WellFormed(c)
  {
    forall c | c in Elected(rows) ensures WellFormed(c) {
      ElectedMembership(rows, c);
    }
  }

  /** The module-level `candidatos`: empty until the loader has run. */
  class CandidateIndex {
    var candidatos: seq<Candidate>

    constructor ()
      ensures candidatos == []
    {
      candidatos := [];
    }

    /** The loader: when the file exists its rows replace the list once the
        stream ends; when it does not, the list stays as it was. */
    method Load(fileExists: bool, rows: seq<Row>)
      modifies this
      ensures candidatos == if fileExists then Elected(rows) else old(candidatos)
    {
      if fileExists {
        var results := CollectElected(rows);
        candidatos := results;
      }
    }
  }

  // ---- The office routes ----

  const Prefeito := "PREFEITO"
  const Vereador := "VEREADOR"
  const Governador := "GOVERNADOR"
  const ViceGovernador := "VICE-GOVERNADOR"
  const VicePrefeito := "VICE-PREFEITO"

  function UriError(): Js { ErrorValue("URIError", "URI malformed") }

  /** The filter callback of an office route: `c.uf.toLowerCase() === uf.toLowerCase()
      && c.cargo === office`, and on the municipal routes (`cidade` present)
      `&& normalize(c.municipio) === normalize(decodeURIComponent(cidade))`,
      evaluated left to right with short-circuit.  `decode` is
      `decodeURIComponent`, None where it throws. */
  function Matches(u: Ucd, decode: string -> Option<string>, office: string, uf: string, cidade: Option<string>,
                   c: Candidate): Result<bool>
  {
    var cu :- LowerOf(u, c.uf);
    if cu != LowerStr(u, uf) || c.cargo != Str(office) then Ok(false)
    else match cidade
      case None => Ok(true)
      case Some(raw) =>
        var m :- NormalizeOf(u, c.municipio);
        match decode(raw)
        case None => Err(UriError())
        case Some(city) => Ok(m == Normalize(u, city))
  }

  /** `candidatos.filter(...)` of an office route.  Ok(list) is answered as
      `{ok: true, data: list}`; an exception escapes the handler. */
  function Query(u: Ucd, decode: string -> Option<string>, office: string, uf: string, cidade: Option<string>,
                 cs: seq<Candidate>): Result<seq<Candidate>>
  {
    FilterThrowing(cs, (c: Candidate) => Matches(u, decode, office, uf, cidade, c))
  }

  /** The selection rule, for a record and an already-decoded city. */
  predicate Selected(u: Ucd, office: string, uf: string, city: Option<string>, c: Candidate)
  {
    && c.uf.Str? && LowerStr(u, c.uf.s) == LowerStr(u, uf)
    && c.cargo == Str(office)
    && (city.Some? ==> c.municipio.Str? && Normalize(u, c.municipio.s) == Normalize(u, city.value))
  }

  function Decoded(decode: string -> Option<string>, cidade: Option<string>): Option<string>
    requires cidade.Some? ==> decode(cidade.value).Some?
  {
    match cidade
    case None => None
    case Some(raw) => decode(raw)
  }

  /** An office route answers exactly the selected records, in list order: a
      record is in the answer iff its state matches case-insensitively, its
      office label is the route's, and on municipal routes its municipality
      equals the decoded city up to case and accents. */
  lemma {:induction false} QuerySelects(u: Ucd, decode: string -> Option<string>, office: string, uf: string,
                                        cidade: Option<string>, cs: seq<Candidate>)
    requires cidade.Some? ==> decode(cidade.value).Some?
    ensures var r := Query(u, decode, office, uf, cidade, cs);
            r.Ok? ==> r.value == Filter((c: Candidate) => Selected(u, office, uf, Decoded(decode, cidade), c), cs)
                      && IsSubsequence(r.value, cs)
  {
    var pred := (c: Candidate) => Matches(u, decode, office, uf, cidade, c);
    var sel := (c: Candidate) => Selected(u, office, uf, Decoded(decode, cidade), c);
    var r := FilterThrowing(cs, pred);
    if r.Ok? {
      forall c | c in cs ensures Kept(pred)(c) == sel(c) {
        var i :| 0 <= i < |cs| && cs[i] == c;
        assert pred(cs[i]).Ok?;
      }
      FilterExtensional(Kept(pred), sel, cs);
      FilterIsSubsequence(sel, cs);
    }
  }

  /** On a municipal route whose city does not decode, the only possible
      answer is the empty list: a record that reaches the city comparison makes
      the callback throw. */
  lemma QueryUndecodable(u: Ucd, decode: string -> Option<string>, office: string, uf: string, raw: string,
                         cs: seq<Candidate>)
    requires decode(raw).None?
    ensures var r := Query(u, decode, office, uf, Some(raw), cs);
            r.Ok? ==> r.value == []
  {
    var pred := (c: Candidate) => Matches(u, decode, office, uf, Some(raw), c);
    var r := FilterThrowing(cs, pred);
    if r.Ok? && r.value != [] {
      assert r.value[0] in Filter(Kept(pred), cs);
    }
  }

  /** A record as `res.json` sends it. */
  function CandidateJs(c: Candidate): Js
  {
    Obj(map["id" := c.id, "nome" := c.nome, "cargo" := c.cargo, "partido" := c.partido, "uf" := c.uf,
            "municipio" := c.municipio, "foto" := Str(c.foto)])
  }

  /** `res.json({ ok: true, data: lista })`.  There is no try/catch: an
      exception of the filter escapes the handler. */
  function OfficeRoute(u: Ucd, decode: string -> Option<string>, office: string, uf: string, cidade: Option<string>,
                       cs: seq<Candidate>): Result<Js>
  {
    var lista :- Query(u, decode, office, uf, cidade, cs);
    Ok(Obj(map["ok" := Bool(true), "data" := Arr(Map(CandidateJs, lista))]))
  }

  /** Whenever the handler answers, the body is `{ok: true, data}` with the
      selected records in list order, and `data` is [] when no record is
      selected. */
  lemma OfficeEnvelope(u: Ucd, decode: string -> Option<string>, office: string, uf: string,
                       cidade: Option<string>, cs: seq<Candidate>)
    requires cidade.Some? ==> decode(cidade.value).Some?
    ensures var r := OfficeRoute(u, decode, office, uf, cidade, cs);
            var selected := Filter((c: Candidate) => Selected(u, office, uf, Decoded(decode, cidade), c), cs);
            && (r.Ok? <==> Query(u, decode, office, uf, cidade, cs).Ok?)
            && (r.Ok? ==> && r.value.Obj? && r.value.fields.Keys == {"ok", "data"}
                          && Field(r.value, "ok") == Bool(true)
                          && Field(r.value, "data") == Arr(Map(CandidateJs, selected)))
            && (r.Ok? && (forall c :: c in cs ==> !Selected(u, office, uf, Decoded(decode, cidade), c))
                ==> Field(r.value, "data") == Arr([]))
  {
    QuerySelects(u, decode, office, uf, cidade, cs);
    var r := OfficeRoute(u, decode, office, uf, cidade, cs);
    var q := Query(u, decode, office, uf, cidade, cs);
    var selected := Filter((c: Candidate) => Selected(u, office, uf, Decoded(decode, cidade), c), cs);
    if q.Ok? {
      assert q.value == selected;
      assert r == Ok(Obj(map["ok" := Bool(true), "data" := Arr(Map(CandidateJs, selected))]));
      if forall c :: c in cs ==> !Selected(u, office, uf, Decoded(decode, cidade), c) {
        assert selected == [];
      }
    }
  }

  /** The route answers (does not throw) when every record is well formed and,
      on a municipal route, the city decodes. */
  lemma QueryAnswers(u: Ucd, decode: string -> Option<string>, office: string, uf: string, cidade: Option<string>,
                     cs: seq<Candidate>)
    requires forall c :: c in cs ==> WellFormed(c)
    requires cidade.Some? ==> decode(cidade.value).Some?
    ensures Query(u, decode, office, uf, cidade, cs).Ok?
  {
    assert forall i :: 0 <= i < |cs| ==> cs[i] in cs;
  }
}
