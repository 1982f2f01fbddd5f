/** The server's route handlers around `cachedFetch`: the request each route
    makes, the shaping of the upstream payload, and the `H` envelope every
    answer goes out in.

    A handler is `try { data = await cachedFetch(request); H.ok(shape(data)) }
    catch (e) { H.bad(e) }`; here it takes the outcome of `cachedFetch` (see
    the Cache module) as its input. */
module Routes {
  import opened Seqs
  import opened JsRuntime
  import opened Text
  import opened Cache

  // ---- The H envelope ----

  /** An HTTP answer: status code and JSON body. */
  datatype Response = Response(status: int, body: Js)

  /** `H.ok(res, data)`: status 200, body `{ok: true, data}`. */
  function Okay(data: Js): (r: Response)
    ensures r.status == 200 && r.body.Obj? && r.body.fields.Keys == {"ok", "data"}
    ensures Field(r.body, "ok") == Bool(true) && Field(r.body, "data") == data
  {
    Response(200, Obj(map["ok" := Bool(true), "data" := data]))
  }

  /** The text `H.bad` reports: `String(err?.message || err)`. */
  function ErrorText(err: Js): string
  {
    ToStr(Or(Field(err, "message"), err))
  }

  /** `H.bad(res, err, code)`: status `code` (500 by default), body `{ok: false, error}`. */
  function Bad(err: Js, code: int := 500): (r: Response)
    ensures r.status == code && r.body.Obj? && r.body.fields.Keys == {"ok", "error"}
    ensures Field(r.body, "ok") == Bool(false) && Field(r.body, "error") == Str(ErrorText(err))
  {
    Response(code, Obj(map["ok" := Bool(false), "error" := Str(ErrorText(err))]))
  }

  /** An Error's message is what is reported; an Error with an empty message
      is reported by its name; any other value without a truthy `message` is
      reported as its `String()` form, "[object Object]" for a plain object. */
  lemma ErrorTextCases(err: Js)
    ensures Field(err, "message").Str? && Field(err, "message").s != "" ==> ErrorText(err) == Field(err, "message").s
    ensures err.Error? && err.message != "" ==> ErrorText(err) == err.message
    ensures err.Error? && err.message == "" ==> ErrorText(err) == err.name
    ensures err.Obj? && !Truthy(Field(err, "message")) ==> ErrorText(err) == "[object Object]"
    ensures !Truthy(Field(err, "message")) ==> ErrorText(err) == ToStr(err)
  {
  }

  /** `String(new Error(""))` is "Error". */
  lemma EmptyErrorReported()
    ensures ErrorText(ErrorValue("Error", "")) == "Error"
  {
  }

  /** A non-2xx upstream answer reaches the client as status 500 with the text
      `Upstream <status> for <url>`. */
  lemma UpstreamFailureReported(status: int, url: string)
    ensures Bad(UpstreamError(status, url))
         == Response(500, Obj(map["ok" := Bool(false),
                                  "error" := Str("Upstream " + IntToDecimal(status) + " for " + url)]))
  {
  }

  /** The try/catch of a handler: the shaped value on success, H.bad on any exception. */
  function Answer(r: Result<Js>): (resp: Response)
    ensures resp.status == 200 <==> r.Ok?
    ensures resp.status == 500 <==> r.Err?
    ensures resp.body.Obj? && Field(resp.body, "ok") == Bool(r.Ok?)
    ensures r.Ok? ==> resp.body.fields.Keys == {"ok", "data"} && Field(resp.body, "data") == r.value
    ensures r.Err? ==> resp.body.fields.Keys == {"ok", "error"} && Field(resp.body, "error") == Str(ErrorText(r.error))
  {
    match r
    case Ok(v) => Okay(v)
    case Err(e) => Bad(e)
  }

  /** What a route asks `cachedFetch` for. */
  datatype Request = Request(url: string, ttlMs: int, parseAs: string)

  // ---- IBGE: estados and cidades ----

  const IbgeEstados := "https://servicodados.ibge.gov.br/api/v1/localidades/estados"

  function EstadosRequest(): Request { Request(IbgeEstados, FetchTtl, "auto") }

  /** `encodeURIComponent(estadoId)` is the parameter `uriEncode`. */
  function CidadesRequest(uriEncode: string -> string, estadoId: string): Request
  {
    Request(IbgeEstados + "/" + uriEncode(estadoId) + "/municipios", FetchTtl, "auto")
  }

  /** `Array.isArray(data) ? data : []` */
  function ArrayOrEmpty(v: Js): (r: seq<Js>)
    ensures v.Arr? ==> r == v.items
    ensures !v.Arr? ==> r == []
  {
    if v.Arr? then v.items else []
  }

  /** An object carrying exactly the fields `keys` of `e`: what
      `({id: e.id, ...})` builds. */
  predicate ProjectionOf(x: Js, e: Js, keys: set<string>)
  {
    x.Obj? && x.fields.Keys == keys && forall k :: k in x.fields ==> x.fields[k] == Field(e, k)
  }

  const EstadoKeys: set<string> := {"id", "sigla", "nome"}
  const CidadeKeys: set<string> := {"id", "nome"}

  /** `(e) => ({ id: e.id, sigla: e.sigla, nome: e.nome })`: throws at `e.id`
      when `e` is null or undefined. */
  function ProjectEstado(e: Js): (r: Result<Js>)
    ensures r.Ok? <==> !Nullish(e)
    ensures r.Ok? ==> ProjectionOf(r.value, e, EstadoKeys)
  {
    if Nullish(e) then Err(ReadError(e, "id"))
    else Ok(Obj(map["id" := Field(e, "id"), "sigla" := Field(e, "sigla"), "nome" := Field(e, "nome")]))
  }

  /** `(m) => ({ id: m.id, nome: m.nome })` */
  function ProjectCidade(e: Js): (r: Result<Js>)
    ensures r.Ok? <==> !Nullish(e)
    ensures r.Ok? ==> ProjectionOf(r.value, e, CidadeKeys)
  {
    if Nullish(e) then Err(ReadError(e, "id"))
    else Ok(Obj(map["id" := Field(e, "id"), "nome" := Field(e, "nome")]))
  }

  /** The sort key: the record's `nome`. */
  function NomeKey(x: Js): string { ToStr(Field(x, "nome")) }

  /** The comparator `(a, b) => a.nome.localeCompare(b.nome, "pt-BR")`, where
      `collate(s, t)` stands for `s.localeCompare(t, "pt-BR") <= 0`. */
  function ByNome(collate: (string, string) -> bool): (Js, Js) -> bool
  {
    (a: Js, b: Js) => collate(NomeKey(a), NomeKey(b))
  }

  lemma ByNomeTotal(collate: (string, string) -> bool)
    requires TotalPreorder(collate)
    ensures TotalPreorder(ByNome(collate))
  {
    var le := ByNome(collate);
    forall x, y ensures le(x, y) || le(y, x) {
      assert collate(NomeKey(x), NomeKey(y)) || collate(NomeKey(y), NomeKey(x));
    }
    forall x, y, z | le(x, y) && le(y, z) ensures le(x, z) {
      assert collate(NomeKey(x), NomeKey(y)) && collate(NomeKey(y), NomeKey(z));
    }
  }

  /** Project every element of an array payload, then sort by `nome`. */
  function ProjectAndSort(collate: (string, string) -> bool, project: Js -> Result<Js>, data: Js)
    : Result<seq<Js>>
  {
    var ps :- MapThrowing(ArrayOrEmpty(data), project);
    Ok(SortBy(ByNome(collate), ps))
  }

  /** The estados list: a non-array payload gives []; otherwise the answer is
      Ok iff no element is null or undefined, and then it is a permutation of
      the projections of the elements, ordered by `nome`. */
  lemma {:induction false} ShapedList(collate: (string, string) -> bool, project: Js -> Result<Js>,
                                      keys: set<string>, data: Js)
    requires TotalPreorder(collate)
    requires forall e :: (project(e).Ok? <==> !Nullish(e)) && (project(e).Ok? ==> ProjectionOf(project(e).value, e, keys))
    ensures var r := ProjectAndSort(collate, project, data);
            && (!data.Arr? ==> r == Ok([]))
            && (r.Ok? <==> forall i :: 0 <= i < |ArrayOrEmpty(data)| ==> !Nullish(ArrayOrEmpty(data)[i]))
            && (r.Ok? ==> && |r.value| == |ArrayOrEmpty(data)|
                          && multiset(r.value) == multiset(MapThrowing(ArrayOrEmpty(data), project).value)
                          && (forall x :: x in r.value ==> exists e :: e in ArrayOrEmpty(data) && ProjectionOf(x, e, keys))
                          && SortedBy(ByNome(collate), r.value))
  {
    var items := ArrayOrEmpty(data);
    var m := MapThrowing(items, project);
    if m.Ok? {
      var ps := m.value;
      var le := ByNome(collate);
      ByNomeTotal(collate);
      SortByPermutation(le, ps);
      SortBySorted(le, ps);
      forall x | x in SortBy(le, ps) ensures exists e :: e in items && ProjectionOf(x, e, keys) {
        assert x in multiset(ps);
        var i :| 0 <= i < |ps| && ps[i] == x;
        assert items[i] in items;
      }
    }
  }

  /** `/api/estados` */
  function Estados(collate: (string, string) -> bool, fetched: Result<Js>): Response
  {
    Answer(var data :- fetched; var list :- ProjectAndSort(collate, ProjectEstado, data); Ok(Arr(list)))
  }

  /** `/api/cidades/:estadoId` */
  function Cidades(collate: (string, string) -> bool, fetched: Result<Js>): Response
  {
    Answer(var data :- fetched; var list :- ProjectAndSort(collate, ProjectCidade, data); Ok(Arr(list)))
  }

  /** The estados route answers the sorted projection, or H.bad when the
      fetch or a projection throws. */
  lemma EstadosAnswer(collate: (string, string) -> bool, fetched: Result<Js>)
    requires TotalPreorder(collate)
    ensures fetched.Err? ==> Estados(collate, fetched) == Bad(fetched.error)
    ensures fetched.Ok? && !fetched.value.Arr? ==> Estados(collate, fetched) == Okay(Arr([]))
    ensures fetched.Ok? && ProjectAndSort(collate, ProjectEstado, fetched.value).Ok? ==>
            Estados(collate, fetched) == Okay(Arr(ProjectAndSort(collate, ProjectEstado, fetched.value).value))
    ensures fetched.Ok? && ProjectAndSort(collate, ProjectEstado, fetched.value).Err? ==>
            Estados(collate, fetched) == Bad(ProjectAndSort(collate, ProjectEstado, fetched.value).error)
  {
  }

  /** The cidades route likewise: the sorted `{id, nome}` projection, [] for
      a non-array payload, H.bad when the fetch or a projection throws. */
  lemma CidadesAnswer(collate: (string, string) -> bool, fetched: Result<Js>)
    requires TotalPreorder(collate)
    ensures fetched.Err? ==> Cidades(collate, fetched) == Bad(fetched.error)
    ensures fetched.Ok? && !fetched.value.Arr? ==> Cidades(collate, fetched) == Okay(Arr([]))
    ensures fetched.Ok? && ProjectAndSort(collate, ProjectCidade, fetched.value).Ok? ==>
            Cidades(collate, fetched) == Okay(Arr(ProjectAndSort(collate, ProjectCidade, fetched.value).value))
    ensures fetched.Ok? && ProjectAndSort(collate, ProjectCidade, fetched.value).Err? ==>
            Cidades(collate, fetched) == Bad(ProjectAndSort(collate, ProjectCidade, fetched.value).error)
  {
  }

  // ---- Câmara: deputados ----

  const CamaraBase := "https://dadosabertos.camara.leg.br/api/v2"

  /** A query-string value, or `dflt` when the parameter is absent. */
  function QueryOr(q: map<string, string>, k: string, dflt: string): string
  {
    if k in q then q[k] else dflt
  }

  /** `[k, q[k]]` when the parameter is present and non-empty (truthy), else nothing. */
  function IfSet(q: map<string, string>, k: string): seq<(string, string)>
  {
    if k in q && q[k] != "" then [(k, q[k])] else []
  }

  /** The URLSearchParams of the deputados route, in insertion order:
      `pagina` (default 1) and `itens` (default 100) always, then `siglaUf`,
      `siglaPartido` and `nome` when given non-empty. */
  function DeputadosParams(q: map<string, string>): seq<(string, string)>
  {
    [("pagina", QueryOr(q, "pagina", "1")), ("itens", QueryOr(q, "itens", "100"))]
    + IfSet(q, "siglaUf") + IfSet(q, "siglaPartido") + IfSet(q, "nome")
  }

  lemma DeputadosParamsShape(q: map<string, string>)
    ensures var ps := DeputadosParams(q);
            && 2 <= |ps| <= 5
            && ps[0] == ("pagina", if "pagina" in q then q["pagina"] else "1")
            && ps[1] == ("itens", if "itens" in q then q["itens"] else "100")
            && (forall k :: k in {"siglaUf", "siglaPartido", "nome"} ==>
                  ((exists i :: 2 <= i < |ps| && ps[i].0 == k) <==> k in q && q[k] != ""))
            && (forall i :: 2 <= i < |ps| ==> ps[i].0 in q && ps[i].1 == q[ps[i].0] && ps[i].1 != "")
  {
    var ps := DeputadosParams(q);
    var rest := IfSet(q, "siglaUf") + IfSet(q, "siglaPartido") + IfSet(q, "nome");
    assert ps[2..] == rest;
    OptionalParams(q, "siglaUf", "siglaPartido", "nome");
    forall k | k in {"siglaUf", "siglaPartido", "nome"}
      ensures (exists i :: 2 <= i < |ps| && ps[i].0 == k) <==> k in q && q[k] != ""
    {
      if exists i :: 2 <= i < |ps| && ps[i].0 == k {
        var i :| 2 <= i < |ps| && ps[i].0 == k;
        assert rest[i - 2].0 == k;
      }
      if k in q && q[k] != "" {
        var j :| 0 <= j < |rest| && rest[j].0 == k;
        assert ps[j + 2].0 == k;
      }
    }
  }

  /** The optional parameters `a`, `b`, `c`: each present iff set, and each
      entry one of the set parameters with its value. */
  lemma OptionalParams(q: map<string, string>, a: string, b: string, c: string)
    ensures var rest := IfSet(q, a) + IfSet(q, b) + IfSet(q, c);
            && |rest| <= 3
            && (forall k :: k == a || k == b || k == c ==>
                  ((exists i :: 0 <= i < |rest| && rest[i].0 == k) <==> k in q && q[k] != ""))
            && (forall i :: 0 <= i < |rest| ==> rest[i].0 in q && rest[i].1 == q[rest[i].0] && rest[i].1 != "")
  {
    var rest := IfSet(q, a) + IfSet(q, b) + IfSet(q, c);
    forall k | k == a || k == b || k == c
      ensures (exists i :: 0 <= i < |rest| && rest[i].0 == k) <==> k in q && q[k] != ""
    {
      if k in q && q[k] != "" {
        var i := if k == a then 0 else if k == b then |IfSet(q, a)| else |IfSet(q, a)| + |IfSet(q, b)|;
        assert rest[i].0 == k;
      }
    }
  }

  /** `${CAMARA_BASE}/deputados?${params}` fetched with a 120 s time to live;
      `formEncode` is URLSearchParams' form encoding of a name or value. */
  function DeputadosRequest(formEncode: string -> string, q: map<string, string>): Request
  {
    Request(CamaraBase + "/deputados?" + Serialize(DeputadosParams(q), formEncode), 120000, "auto")
  }

  /** `json?.dados ?? []` */
  function Dados(json: Js): (r: Js)
    ensures Nullish(Field(json, "dados")) ==> r == Arr([])
    ensures !Nullish(Field(json, "dados")) ==> r == Field(json, "dados")
  {
    Coalesce(Field(json, "dados"), Arr([]))
  }

  /** `/api/camara/deputados` */
  function Deputados(fetched: Result<Js>): Response
  {
    Answer(var json :- fetched; Ok(Dados(json)))
  }

  /** A payload without `dados` (or no payload at all) is answered with an empty
      list; a falsy but present `dados` (0, "", false) is passed on as it is. */
  lemma DeputadosAnswer(fetched: Result<Js>)
    ensures fetched.Ok? && Nullish(Field(fetched.value, "dados")) ==> Deputados(fetched) == Okay(Arr([]))
    ensures fetched.Ok? && !Nullish(Field(fetched.value, "dados")) ==> Deputados(fetched) == Okay(Field(fetched.value, "dados"))
    ensures fetched.Err? ==> Deputados(fetched) == Bad(fetched.error)
  {
  }

  // ---- RSS: Câmara and Senado ----

  const RssUltimas := "https://www.camara.leg.br/noticias/rss"
  const RssPolitica := "https://www.camara.leg.br/noticias/rss/dinamico/POLITICA"
  const RssEconomia := "https://www.camara.leg.br/noticias/rss/dinamico/ECONOMIA"
  const RssSenado := "https://www12.senado.leg.br/noticias/feed/todasnoticias"

  /** `String(req.query.tema || "ULTIMAS").toUpperCase()` */
  function Topic(u: Ucd, tema: Js): string
  {
    UpperStr(u, ToStr(Or(tema, Str("ULTIMAS"))))
  }

  /** `map[tema] || map.ULTIMAS`.  Every inherited property of a plain object
      has a name with a lower-case letter, so an upper-cased topic finds only
      the three own keys. */
  function TopicUrl(topic: string): (url: string)
    ensures url in {RssUltimas, RssPolitica, RssEconomia}
    ensures topic == "POLITICA" <==> url == RssPolitica
    ensures topic == "ECONOMIA" <==> url == RssEconomia
  {
    if topic == "ULTIMAS" then RssUltimas
    else if topic == "POLITICA" then RssPolitica
    else if topic == "ECONOMIA" then RssEconomia
    else RssUltimas
  }

  /** The Câmara feed is fetched as XML with a 60 s time to live. */
  function CamaraRssRequest(u: Ucd, tema: Js): Request
  {
    Request(TopicUrl(Topic(u, tema)), 60000, "xml")
  }

  function SenadoRssRequest(): Request { Request(RssSenado, 60000, "xml") }

  /** No topic (or an empty one) is the ULTIMAS feed. */
  lemma DefaultTopic(u: Ucd, tema: Js)
    requires !Truthy(tema)
    requires forall c :: c in "ULTIMAS" ==> u.upper(c) == c
    ensures CamaraRssRequest(u, tema).url == RssUltimas
  {
    assert Topic(u, tema) == "ULTIMAS";
  }

  /** `xml?.rss?.channel?.item` */
  function ChannelItem(xml: Js): Js
  {
    Field(Field(Field(xml, "rss"), "channel"), "item")
  }

  /** `[].concat(item || [])`: a falsy item gives the empty list, an array its
      elements, any other value a one-element list. */
  function ItemList(item: Js): (r: seq<Js>)
    ensures !Truthy(item) ==> r == []
    ensures item.Arr? ==> r == item.items
    ensures Truthy(item) && !item.Arr? ==> r == [item]
  {
    var v := Or(item, Arr([]));
    if v.Arr? then v.items else [v]
  }

  /** One news item as the routes hand it on. */
  datatype NewsItem = NewsItem(title: Js, link: Js, pubDate: Js, description: Js)

  /** `(i) => ({ title: i.title, link: i.link, pubDate: i.pubDate, description: i.description })` */
  function ProjectItem(i: Js): (r: Result<NewsItem>)
    ensures r.Ok? <==> !Nullish(i)
    ensures r.Ok? ==> r.value == NewsItem(Field(i, "title"), Field(i, "link"), Field(i, "pubDate"), Field(i, "description"))
  {
    if Nullish(i) then Err(ReadError(i, "title"))
    else Ok(NewsItem(Field(i, "title"), Field(i, "link"), Field(i, "pubDate"), Field(i, "description")))
  }

  /** The items of a parsed feed, shaped. */
  function FeedItems(xml: Js): Result<seq<NewsItem>>
  {
    MapThrowing(ItemList(ChannelItem(xml)), ProjectItem)
  }

  /** A feed with no item yields no news, a feed with one item (which the XML
      parser does not wrap in an array) one piece of news, and a list of items
      as many pieces as it has items, each with the item's four fields. */
  lemma FeedItemsCases(xml: Js)
    ensures !Truthy(ChannelItem(xml)) ==> FeedItems(xml) == Ok([])
    ensures ChannelItem(xml).Obj? ==> FeedItems(xml) == Ok([NewsItem(
              Field(ChannelItem(xml), "title"), Field(ChannelItem(xml), "link"),
              Field(ChannelItem(xml), "pubDate"), Field(ChannelItem(xml), "description"))])
    ensures ChannelItem(xml).Arr? && (forall i :: 0 <= i < |ChannelItem(xml).items| ==> !Nullish(ChannelItem(xml).items[i]))
            ==> && FeedItems(xml).Ok? && |FeedItems(xml).value| == |ChannelItem(xml).items|
                && forall i :: 0 <= i < |FeedItems(xml).value| ==>
                     FeedItems(xml).value[i] == ProjectItem(ChannelItem(xml).items[i]).value
  {
    var item := ChannelItem(xml);
    if item.Obj? {
      assert ItemList(item) == [item];
      assert ProjectItem(item).Ok?;
      var r := MapThrowing([item], ProjectItem);
      assert r.Ok? && |r.value| == 1 && r.value[0] == ProjectItem(item).value;
      assert r.value == [ProjectItem(item).value];
    }
  }

  /** The JSON object a news item is sent as. */
  function NewsItemJs(n: NewsItem): Js
  {
    Obj(map["title" := n.title, "link" := n.link, "pubDate" := n.pubDate, "description" := n.description])
  }

  /** `/api/camara/noticias-rss` and `/api/senado/noticias-rss` after the fetch. */
  function Feed(fetched: Result<Js>): Response
  {
    Answer(var xml :- fetched; var items :- FeedItems(xml); Ok(Arr(Map(NewsItemJs, items))))
  }

  /** A feed route answers its shaped items, or H.bad when the fetch or an item throws. */
  lemma FeedAnswer(fetched: Result<Js>)
    ensures fetched.Err? ==> Feed(fetched) == Bad(fetched.error)
    ensures fetched.Ok? && FeedItems(fetched.value).Err? ==> Feed(fetched) == Bad(FeedItems(fetched.value).error)
    ensures fetched.Ok? && FeedItems(fetched.value).Ok? ==>
            Feed(fetched) == Okay(Arr(Map(NewsItemJs, FeedItems(fetched.value).value)))
    ensures fetched.Ok? && !Truthy(ChannelItem(fetched.value)) ==> Feed(fetched) == Okay(Arr([]))
  {
    if fetched.Ok? {
      FeedItemsCases(fetched.value);
    }
  }

  // ---- The routes over the cache ----

  /** A handler run against the shared store: `cachedFetch(req)` looks up the
      store at `now` and stores the upstream answer at `later`, then `handle`
      shapes the outcome into the answer. */
  function Serve(req: Request, m: Store, now: int, later: int, up: Upstream, handle: Result<Js> -> Response)
    : (Response, Store)
  {
    var (r, m') := Fetched(m, req.url, now, later, up, req.ttlMs, req.parseAs);
    (handle(r), m')
  }

  function EstadosRoute(collate: (string, string) -> bool, m: Store, now: int, later: int, up: Upstream)
    : (Response, Store)
  {
    Serve(EstadosRequest(), m, now, later, up, r => Estados(collate, r))
  }

  function CidadesRoute(collate: (string, string) -> bool, uriEncode: string -> string, estadoId: string,
                        m: Store, now: int, later: int, up: Upstream): (Response, Store)
  {
    Serve(CidadesRequest(uriEncode, estadoId), m, now, later, up, r => Cidades(collate, r))
  }

  function DeputadosRoute(formEncode: string -> string, q: map<string, string>,
                          m: Store, now: int, later: int, up: Upstream): (Response, Store)
  {
    Serve(DeputadosRequest(formEncode, q), m, now, later, up, Deputados)
  }

  function CamaraRssRoute(u: Ucd, tema: Js, m: Store, now: int, later: int, up: Upstream): (Response, Store)
  {
    Serve(CamaraRssRequest(u, tema), m, now, later, up, Feed)
  }

  function SenadoRssRoute(m: Store, now: int, later: int, up: Upstream): (Response, Store)
  {
    Serve(SenadoRssRequest(), m, now, later, up, Feed)
  }

  /** Each route's cache request: the IBGE and deputados routes fetch with
      `cachedFetch`'s defaults (120 s, "auto" parsing), the cidades URL puts
      the encoded state id between `/estados/` and `/municipios`, and both
      RSS feeds are fetched as XML with a 60 s time to live. */
  lemma RouteRequests(collate: (string, string) -> bool, uriEncode: string -> string, estadoId: string,
                      formEncode: string -> string, q: map<string, string>, u: Ucd, tema: Js,
                      m: Store, now: int, later: int, up: Upstream)
    ensures var f := Fetched(m, IbgeEstados, now, later, up, 120000, "auto");
            EstadosRoute(collate, m, now, later, up) == (Estados(collate, f.0), f.1)
    ensures var url := IbgeEstados + "/" + uriEncode(estadoId) + "/municipios";
            var f := Fetched(m, url, now, later, up, 120000, "auto");
            CidadesRoute(collate, uriEncode, estadoId, m, now, later, up) == (Cidades(collate, f.0), f.1)
    ensures var url := CamaraBase + "/deputados?" + Serialize(DeputadosParams(q), formEncode);
            var f := Fetched(m, url, now, later, up, 120000, "auto");
            DeputadosRoute(formEncode, q, m, now, later, up) == (Deputados(f.0), f.1)
    ensures var f := Fetched(m, TopicUrl(Topic(u, tema)), now, later, up, 60000, "xml");
            CamaraRssRoute(u, tema, m, now, later, up) == (Feed(f.0), f.1)
    ensures var f := Fetched(m, RssSenado, now, later, up, 60000, "xml");
            SenadoRssRoute(m, now, later, up) == (Feed(f.0), f.1)
  {
  }

  /** A route served again before its entry expires answers the same without
      touching the upstream: a truthy fetched value is served from the store. */
  lemma ServeAgainIsCached(req: Request, m: Store, now: int, later: int, up: Upstream,
                           handle: Result<Js> -> Response, t: int, later2: int, up2: Upstream)
    requires !Truthy(Lookup(m, Key(req.parseAs, req.url), now))
    requires Fetched(m, req.url, now, later, up, req.ttlMs, req.parseAs).0.Ok?
    requires Truthy(Fetched(m, req.url, now, later, up, req.ttlMs, req.parseAs).0.value)
    requires t <= later + req.ttlMs
    ensures var (resp, m') := Serve(req, m, now, later, up, handle);
            Serve(req, m', t, later2, up2, handle) == (resp, m')
  {
    FetchedThenHit(m, req.url, now, later, up, req.ttlMs, req.parseAs, t, later2, up2);
  }
}
