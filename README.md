# A verified model of the "quem cobrar" political-transparency app

The application is a small Express proxy in front of Brazilian government
APIs, plus browser scripts that present the results. Its core logic, modelled here, is:

- **TTL cache and `cachedFetch`.** The server keeps a map from key to `{exp, data}`, with lazy expiry on read. `cachedFetch` builds the key `${as}:${url}`, answers a truthy hit from the cache, throws on a non-2xx status, picks the XML or the JSON parser, and writes the result back.
- **Elected-candidate index.** The TSE candidate table is filtered to the elected rows and projected to records with a synthesized photo path. Five office routes then filter those records by state, office label and (for municipal offices) municipality, ignoring case and accents.
- **Route shaping.** This covers:
  - the `H.ok`/`H.bad` envelope;
  - projecting and sorting states and cities;
  - the deputies query string and its `dados ?? []` fallback;
  - the RSS topic table;
  - RSS item normalization.
- **News merge.** The Câmara and Senado feeds are concatenated and sorted newest first with a stable sort (`mergeAndSortNews`).
- **Browser helpers:**
  - `getJSON`'s fallback;
  - the accent-stripping `normalize`;
  - the profile-card link with its inferred `tipo`;
  - the autocomplete and suggestion filters;
  - the deputies projection with its fallbacks;
  - the senators' state filter;
  - the profile header extraction;
  - the post icon;
  - `moneyFormat`'s guard.

The model is organized as follows:

| file | module | contents |
|---|---|---|
| seqs.dfy | Seqs | filter, map, slice, subsequence, and the stable insertion sort standing for `Array.prototype.sort` |
| js_runtime.dfy | JsRuntime | JavaScript values, truthiness, `||`, `??`, property reads, `String()`, thrown exceptions, and `filter`/`map`/`find` with throwing callbacks |
| text.dfy | Text | `toLowerCase`, NFD and `normalize` over an abstract Unicode table, `includes`, `trim`, and a concrete Latin-1 table |
| cache.dfy | Cache | the TTL store, `cachedFetch` as a function, and the `TtlCache` class |
| candidates.dfy | Candidates | the CSV loader (a loop over rows) and the office queries |
| routes.dfy | Routes | the `H` envelope and the IBGE, deputados and RSS routes |
| utils.dfy | Utils | `getJSON`, `card` and `filter(...).slice(0, 10)`, shared by utils.js and script.js |
| quem_cobrar.dfy | QuemCobrar | the page's own `normalize` and its autocomplete predicate |
| organograma.dfy | Organograma | state and city suggestions, deputies, senators |
| perfil.dfy | Perfil | the profile header, the page cases, icons and `moneyFormat` |
| news.dfy | News | `mergeAndSortNews` |

Things the code takes from its environment become parameters:
- `Date.now()` becomes `now`, and `later` for the write-back after the response arrives;
- the upstream response becomes an `Upstream` value carrying its status, its content type and the outcome of each parser;
- `decodeURIComponent`, `encodeURIComponent` and URLSearchParams' form encoding become functions;
- `localeCompare(..., "pt-BR")` becomes a total preorder `collate`;
- `new Date(x).getTime()` becomes `time: Js -> int`;
- `toLocaleString` becomes `format`;
- the Unicode tables become a `Ucd` record of per-code-point functions.

Exceptions are modelled by `Result.Err` with the thrown value.

## Model

| member | source | states |
|---|---|---|
| Cache.EvictUnobservable | server.js:30-39 | a read never adds a key, and it deletes only an expired entry that no read at or after `now` could return |
| Cache.PutThenLookup | server.js:30-41 | a value stored at `now` with `ttlMs` is read back at every `t <= now + ttlMs` (so still at `t == exp`), and null afterwards |
| Cache.PutOtherKeys | server.js:40-41 | storing under one key leaves every other key's reads unchanged |
| Cache.Key | server.js:48 | the key is `as`, then ":", then the url |
| Cache.KeyInjective | server.js:48 | one url under two `as` values gives two different keys, and equal `as` gives the same key |
| Cache.FetchedHit | server.js:49-50 | a truthy cached value is returned whatever upstream would answer, and the store is unchanged |
| Cache.FetchedFalsyIsMiss | server.js:49-50 | a falsy cached value gives the same result as no entry under that key |
| Cache.FetchedBadStatus | server.js:52-53 | on a miss, a non-2xx response throws `Upstream <status> for <url>` and writes nothing |
| Cache.FetchedParses | server.js:55-75 | on a miss with a 2xx response, the XML parser is used iff `as` is "xml" or the content type contains "xml", otherwise JSON; a parsed value is stored under the key with expiry `later + ttlMs`; a parser exception escapes and writes nothing |
| Cache.FetchedThenHit | server.js:44-76 | after a miss that fetched a truthy value, the same call is answered from the cache until `later + ttlMs`, whatever upstream says |
| Cache.FetchedOtherKeys | server.js:44-76 | `cachedFetch` leaves the reads of every other key unchanged from `now` on |
| Cache.TtlCache.constructor | server.js:29 | the cache starts empty |
| Cache.TtlCache.Get | server.js:30-39 | `getCache` returns the Lookup value, and deletes the key's entry iff it has expired (`now > exp`) |
| Cache.TtlCache.Set | server.js:40-41 | `setCache` replaces only `key`, with expiry `now + ttlMs`; ttl defaults to 60000 |
| Cache.TtlCache.CachedFetch | server.js:44-76 | the method's result and new store are those of `Fetched` (above); ttl defaults to 120000 and `as` to "auto" |
| Candidates.ElectedSnoc | server.js:198-213 | one more row appends its record iff it is elected |
| Candidates.CollectElected | server.js:189-214 | the row loop collects exactly the records of the elected rows, in stream order |
| Candidates.ElectedMembership | server.js:199-212 | a record is loaded iff some elected row produced it, with the row's id, name, office, party, state, municipality, and the photo path `/fotos2024/foto_cand2024_<uf>_div/<sq>.jpg` |
| Candidates.ElectedOrder | server.js:198-216 | one record per elected row, in row order |
| Candidates.ElectedWellFormed | server.js:200-210 | rows with the state and municipality columns give records whose state and municipality are strings |
| Candidates.CandidateIndex.constructor | server.js:175 | `candidatos` starts as [] |
| Candidates.CandidateIndex.Load | server.js:188-224 | when the file exists, the list becomes the elected records; when it is missing, the list is unchanged |
| Candidates.QuerySelects | server.js:228-289 | an office route answers exactly the records whose state matches case-insensitively, whose office is the route's label and, on municipal routes, whose municipality equals the decoded city up to case and accents; the answer is an order-preserving subsequence |
| Candidates.QueryUndecodable | server.js:237 | on a municipal route with a malformed city, the handler either throws or answers [] |
| Candidates.QueryAnswers | server.js:233-238 | with well-formed records and a decodable city, the filter does not throw |
| Candidates.OfficeEnvelope | server.js:240 | whenever the handler answers, the body is `{ok: true, data}` with the selected records, and `data` is [] when none is selected |
| Routes.Okay | server.js:21 | `H.ok` answers status 200 with exactly the fields `ok: true` and `data`; Routes.Answer and the route lemmas (EstadosAnswer, DeputadosAnswer) rely on it |
| Routes.Bad | server.js:22-25 | `H.bad` answers the given code (500 by default) with exactly the fields `ok: false` and `error: String(err?.message \|\| err)`; Routes.UpstreamFailureReported and the route lemmas rely on it |
| Routes.ErrorTextCases | server.js:24 | the error text is the message when there is one; an Error with an empty message is reported by its name; a plain object without a truthy message gives "[object Object]"; any other value gives `String(err)` |
| Routes.EmptyErrorReported | server.js:24 | `new Error("")` is reported as "Error" |
| Routes.UpstreamFailureReported | server.js:53 | a non-2xx upstream answer reaches the client as 500 with `Upstream <status> for <url>` |
| Routes.Answer | server.js:80-90 | the handler's try/catch: status 200 iff the shaping did not throw, and 500 iff it did; `ok` tells which; the body carries `data` (the shaped value) on success and `error` (the error text) on failure, never both |
| Routes.ProjectEstado | server.js:85 | the state projection throws iff the element is null or undefined, and otherwise carries exactly id, sigla and nome |
| Routes.ProjectCidade | server.js:102 | the city projection throws iff the element is null or undefined, and otherwise carries exactly id and nome |
| Routes.ByNomeTotal | server.js:86 | comparing records by `nome` under a total preorder collation is a total preorder |
| Routes.ShapedList | server.js:84-86 | for a non-array payload the lists are []; otherwise they answer iff no element is nullish, and then they are a permutation of the projections, each projecting some input element, ordered by `nome` |
| Routes.EstadosAnswer | server.js:79-91 | `/api/estados` answers the sorted projection, [] for a non-array payload, and `H.bad` when the fetch or a projection throws |
| Routes.CidadesAnswer | server.js:93-108 | `/api/cidades/:estadoId` answers the sorted `{id, nome}` projection, [] for a non-array payload, and `H.bad` when the fetch or a projection throws |
| Routes.DeputadosParamsShape | server.js:115-119 | the query string has `pagina` (default 1) and `itens` (default 100) first; `siglaUf`, `siglaPartido` and `nome` appear iff given non-empty, with their values |
| Routes.DeputadosAnswer | server.js:113-126 | the deputados route answers `dados`, [] without it, and `H.bad` on an exception |
| Routes.TopicUrl | server.js:132-137 | the Câmara feed URL is one of the three, POLITICA and ECONOMIA select their own feed, and every other topic selects ULTIMAS |
| Routes.DefaultTopic | server.js:131-140 | an absent or empty topic fetches the ULTIMAS feed |
| Routes.ItemList | server.js:141 | `[].concat(item \|\| [])`: [] for a falsy item, the elements of an array, and a one-element list otherwise |
| Routes.ProjectItem | server.js:141-146 | an item projects to its title, link, pubDate and description, and throws iff it is nullish; Routes.FeedItemsCases relies on it |
| Routes.FeedItemsCases | server.js:141-147 | a feed without items gives no news; a single item gives one piece of news with its four fields; a list without null items gives one per item, the i-th being the i-th item's projection |
| Routes.FeedAnswer | server.js:140-151 | an RSS route answers its shaped items (none for a feed without items), and `H.bad` when the fetch or reading an item throws |
| Routes.RouteRequests | server.js:79-167 | each route goes through the cache with its own request: the IBGE estados and cidades URLs and the deputados URL with 120 s and "auto" parsing, the Câmara topic feed and the Senado feed with 60 s and XML parsing; the answer is the route's shaping of that fetch and the store is the fetch's new store |
| Routes.ServeAgainIsCached | server.js:44-76 | a route served again before its freshly fetched truthy entry expires gives the same answer and store, whatever the upstream does |
| Text.Normalize | server.js:230-231 | the normalized text contains no code point of U+0300..U+036F |
| Text.NormalizeByCodePoint | server.js:231 | normalization is the concatenation of each code point's lower-cased decomposition, with marks removed |
| Text.NormalizeConcat | utils.js:42-47 | normalization distributes over concatenation |
| Text.NormalizeIdempotent | utils.js:42-47 | normalizing twice is normalizing once, for any coherent table |
| Text.LowerOf | server.js:235 | `v.toLowerCase()` throws iff `v` is not a string |
| Text.NormalizeOf | quem-cobrar.js:11-13 | the unguarded `normalize` throws iff its argument is not a string |
| Text.NormalizeOrEmpty | utils.js:42-47 | the guarded `normalize` maps every falsy value (null, undefined, "") to "", and throws only on a truthy non-string |
| Text.Trim | perfil.js:77 | `trim` removes only white space and leaves no white space at either end |
| Text.SaoPauloExample | server.js:237 | with the Latin-1 table, "São Paulo" and "sao paulo" normalize alike |
| Utils.GetJson | utils.js:1-10 | `getJSON` gives `j.data` when it is truthy, and [] when it is falsy or anything throws; news.js:4-13, script.js:4-13 and quem-cobrar.js:16-25 are the same code |
| Utils.TipoPrecedence | utils.js:17-23 | an explicit truthy `tipo` wins; otherwise "senador" in the lower-cased office gives senado, then "deputado" gives camara, else none; a truthy non-string office throws |
| Utils.BuildCardParams | utils.js:13-26 | the step-by-step `params.set` calls build exactly `CardParams` |
| Utils.CardParamsMeaning | utils.js:13-26 | `id` is present iff `p.id` is neither undefined nor null, and comes first; `tipo` is present iff inferred, and comes last; there are no other keys |
| Utils.CardsAgree | script.js:40-44 | the href is `perfil.html?` plus the serialized params, and the modelled views of the utils.js and script.js cards (link, texts, photo) are equal apart from the fallback image |
| Utils.SubtitleCases | utils.js:35 | the subtitle is the party (nothing when it is falsy), the bullet, then `municipio/uf` when there is a municipality and the state only otherwise |
| Utils.SubtitleExamples | utils.js:35 | a party and a state give `PT • SP`; a municipality without a party gives ` • Campinas/SP` |
| Utils.FirstMatches | quem-cobrar.js:42-45 | `filter(...).slice(0, n)` answers iff no callback throws, and is then the first `n` kept elements |
| Utils.FirstMatchesMeaning | quem-cobrar.js:42-45 | at most `n` results, in input order, each one accepted, and all of them when no more than `n` are accepted |
| Utils.MunicipalCardsMeaning | organograma.js:106-109 | only the first mayor gets a card (none when there are none), and every councillor gets one, in order |
| QuemCobrar.NormalizeAgrees | quem-cobrar.js:11-13 | the page's `normalize` agrees with the shared one on strings; on null and undefined it throws, where the shared one gives "" |
| QuemCobrar.SuggestsIff | quem-cobrar.js:42-44 | an item is suggested iff its normalized name, or its normalized truthy abbreviation, contains the query |
| QuemCobrar.SuggestionsMeaning | quem-cobrar.js:37-45 | an empty normalized query gives no suggestions; otherwise the list is produced iff the callback throws on no item, and it is the first 10 suggested items in input order, so every suggested item is listed when there are at most 10 |
| QuemCobrar.SuggestionsIgnoreAccents | quem-cobrar.js:37 | typing with or without accents and capitals gives the same suggestions |
| QuemCobrar.SaoPauloSuggested | quem-cobrar.js:42-44 | "sao" finds "São Paulo" |
| Organograma.MatchesIff | organograma.js:29-55 | a state matches iff its lower-cased name or abbreviation contains the lower-cased query; a city matches iff its lower-cased name does |
| Organograma.SuggestionsMeaning | organograma.js:24-55 | empty input gives no suggestions; otherwise each list is produced iff the callback throws on no element, and it is the first 10 matching states or cities in input order, so every match is listed when there are at most 10 |
| Organograma.SaoPauloNotSuggested | organograma.js:51-55 | matching is accent-sensitive: "sao" does not find "São Paulo" |
| Organograma.ProjectDeputy | organograma.js:74-81 | the projection throws iff the deputy is nullish; otherwise it has exactly id, nome, cargo, partido, uf and foto, with the deputy's id and name and the office "Deputado Federal" |
| Organograma.DeputyFallbacks | organograma.js:78-80 | partido falls back from the own party to `ultimoStatus`'s to ""; uf from the own state to `ultimoStatus`'s to the selected one; foto from the own photo to `ultimoStatus`'s |
| Organograma.DeputiesMeaning | organograma.js:74-81 | the list answers iff no deputy is nullish, and then it has one entry per deputy, in order |
| Organograma.DeputiesAreCamara | organograma.js:74-84 | every listed deputy's card infers `tipo=camara`, for any case table that lower-cases ASCII the usual way |
| Organograma.DeputyCardIsCamara | organograma.js:77 | a deputy's card link carries its id when there is one, then `tipo=camara`, for any case table that lower-cases ASCII the usual way |
| Organograma.SenatorsOfMeaning | organograma.js:92 | the filter answers iff every senator's state is a string, and then keeps exactly the senators whose state equals the selected one case-insensitively, in order |
| Perfil.BeforeParen | perfil.js:77 | `split("(")[0]` is the longest prefix without "(" |
| Perfil.BeforeParenOf | perfil.js:77 | the text before `name(` is `name` when `name` has no "(" |
| Perfil.Parenthesized | perfil.js:80 | `/\((.*?)\)/` finds nothing iff no "(" is closed on its line, and otherwise captures the text of the leftmost such pair |
| Perfil.ParenthesizedOf | perfil.js:80 | the capture of `name(party)rest` is `party` |
| Perfil.ProfileFromBody | perfil.js:76-83 | a body `name(party)...` gives the trimmed name and the party |
| Perfil.ProfileFallbacks | perfil.js:76-83 | no body gives "Político" and no party; a blank name gives "Político"; no closed parenthesis gives no party; a non-string body throws; the photo falls back to the placeholder; state and municipality are "" |
| Perfil.PerfilPostFirst | perfil.js:75 | the header post is the first post of type "perfil", or undefined when there is none |
| Perfil.PageCases | perfil.js:62-89 | no id gives "not found", no posts gives "no activity"; otherwise the header comes from the "perfil" post and there is one icon per post, in order |
| Perfil.PostIcon | perfil.js:36-40 | the chain of ifs picks the icon of the type table (despesa, proposicao, discurso, noticia), and 📝 for anything else |
| Perfil.MoneyFormatCases | perfil.js:9-12 | undefined, null, false and "" give ""; every number, 0 included, `true`, a non-empty string, arrays, objects and errors are formatted |
| News.NewerIsPreorder | news.js:18-20 | the comparator by timestamp is a consistent total preorder |
| News.MergeKeepsItems | news.js:16-21 | the result is a permutation of `camara ++ senado`, with the sum of their lengths |
| News.MergeNewestFirst | news.js:18-20 | the result is ordered by non-increasing timestamp |
| News.MergeKeepsTies | news.js:17-20 | items with equal timestamps keep their order: the Câmara items first, then the Senado items |

A few repeated helpers are each modelled once:
- The `normalize` of utils.js and script.js is the single `Text.NormalizeOrEmpty`.
- Their `card` is the single `Utils.Card`, applied with each file's fallback image.
- The route-local `normalize` of server.js:230-231, 246-247 and 280-281 is the single `Text.NormalizeOf`.

Values in the model are immutable. `mergeAndSortNews` therefore cannot modify its inputs, just as the source sorts a fresh spread copy.

## Left out

- Network and framework: `fetch`, reading the response body, Express routing, CORS, static files and `app.listen` are I/O. The upstream answer is an input value.
- The `headers` option of `cachedFetch` is passed to `fetch` only and plays no part in caching; it is not modelled.
- The XML and CSV parsers are foreign libraries:
  - each parser's outcome (a value or an exception) is part of the `Upstream` input;
  - the CSV file is a sequence of already-trimmed string maps.
- The `Upstream` value carries both parser outcomes; nothing checks that they come from the same response body.
- The asynchronous loader: `candidatos` stays [] until the stream's end event, which is modelled only as the states before and after `Load`. Requests served during loading are not modelled.
- Candidates.Matches: Express has already decoded the route parameters once, and answers 400 by itself when that fails. The model starts from the decoded parameter and applies the handler's second `decodeURIComponent`.
- Candidates.OfficeRoute: the page Express sends when the filter throws is not modelled. The exception is returned as `Err`.
- Routes.ByNome: sorts by `String(nome)`. The source's `a.nome.localeCompare` would throw on a nome that is not a string.
- Routes.ByNome: `localeCompare`'s collation is an abstract total preorder.
- Routes.DeputadosParams: query values are strings. Repeated query parameters, which Express turns into arrays, are not modelled.
- News.MergeAndSortNews: timestamps are integers given by `time`. NaN from an unparsable date is not modelled, and nothing is claimed for it. `a.pubDate` on a null item is read without throwing.
- Text.Normalize: the Unicode tables are per-code-point functions. Multi-code-point case mappings and canonical reordering of combining marks are not represented.
- The texts of the TypeErrors the runtime throws follow V8's wording loosely. Only whether an exception occurs is claimed.
- Perfil.MoneyFormat: `toLocaleString` currency formatting is the parameter `format`. NaN and -0 are not representable.
- Perfil.PageOf: `toLocaleDateString`, the markup of each post, and the `find` and `length` of non-array objects are not modelled. Non-arrays other than strings and `length`-carrying objects throw on `find`.
- DOM work: element lookups, event listeners, the `innerHTML` templates and the markup of `card`, `renderHeader` and `renderNews` are display code.
  - Only the card's link, texts and fallback image are in `Utils.CardView`.
  - The `onerror` handlers differ: utils.js:31 clears `this.onerror` before swapping in the placeholder, script.js:44 does not, so there a failing placeholder re-triggers the handler. Handler behaviour is not modelled.
- The request URLs the pages build for their own API, and the click handlers that chain the loads, are page plumbing and are not modelled.
- votacoes.js is not part of this model; it is DOM rendering only.
- quem-cobrar.js:
  - the top-level block at lines 77-90 refers to `uf`, `cidade` and containers that do not exist there;
  - `API` is not declared in that file (line 65);
  - `card` is not in scope in quem-cobrar.js (lines 69, 75, 80, 85, 90): the file neither imports nor defines it;
  - any of these raises a ReferenceError, so `carregarMunicipio` throws before it builds a card; none of it is modelled.
- Logging (`console.*`) is not modelled.
- Routes.FeedItems: the parsed XML tree is an input. server.js:64 asks the parser for `strict: false`; if the parser then upper-cases tag names (sax's loose mode does unless told to lower-case them), `xml?.rss?.channel?.item` is always undefined and both feeds answer []. FeedItemsCases holds for whatever tree the parser returns; which tree it returns is not part of the model.
- Organograma.SenatorsOf: organograma.js:91 fetches `/api/senado/senadores`, a route server.js does not define, so in the running app `getJSON` yields [] and the senators list is empty. The model states the filter for any list.
- Cache.Fetched and Cache.TtlCache.CachedFetch treat the lookup (at `now`) and the store (at `later`) as one step. In the source, `getCache` and `setCache` are separated by the awaits on `fetch`, `resp.text()`, `parseStringPromise` and `resp.json()`. Other requests can run during those awaits, and the model does not capture that interleaving: two concurrent misses on one key both fetch, the later store wins, and an entry written by another request in the meantime is overwritten.
