/** The profile page: the header is taken from the first post of type
    "perfil" (name before the parenthesis, party inside it), and each post of
    the timeline gets an icon by its type. */
module Perfil {
  import opened JsRuntime
  import opened Text

  // ---- `body.split("(")[0]` ----

  /** The text before the first "(" (all of `s` when there is none). */
  function BeforeParen(s: string): (r: string)
    ensures |r| <= |s| && r == s[..|r|] && '(' !in r
    ensures |r| < |s| ==> s[|r|] == '('
  {
    if s == [] || s[0] == '(' then [] else [s[0]] + BeforeParen(s[1..])
  }

  lemma {:induction false} BeforeParenOf(name: string, tail: string)
    requires '(' !in name
    ensures BeforeParen(name + "(" + tail) == name
  {
    if name != [] {
      assert (name + "(" + tail)[1..] == name[1..] + "(" + tail;
      BeforeParenOf(name[1..], tail);
    } else {
      assert (name + "(" + tail)[0] == '(';
    }
  }

  // ---- `body.match(/\((.*?)\)/)?.[1]` ----

  /** What `.` does not match without the `s` flag. */
  predicate IsLineTerminator(c: char)
  {
    c == '\n' || c == '\r' || c == '\U{2028}' || c == '\U{2029}'
  }

  /** The "(" at `i` is matched by the ")" at `j`: `j` is the first ")" after
      `i`, and no line terminator comes between them (the lazy `.*?` stops at
      the first ")" and cannot cross a line end). */
  predicate Closes(s: string, i: int, j: int)
  {
    && 0 <= i < j < |s| && s[i] == '(' && s[j] == ')'
    && forall k :: i < k < j ==> s[k] != ')' && !IsLineTerminator(s[k])
  }

  /** An opening parenthesis has at most one match. */
  lemma ClosesUnique(s: string, i: int, j: int, k: int)
    requires Closes(s, i, j) && Closes(s, i, k)
    ensures j == k
  {
  }

  /** The lazy group, extended one character at a time from `j`. */
  function CloseFrom(s: string, i: nat, j: nat): (r: Option<nat>)
    requires i < j <= |s| && s[i] == '('
    requires forall k :: i < k < j ==> s[k] != ')' && !IsLineTerminator(s[k])
    ensures r.Some? ==> Closes(s, i, r.value)
    ensures r.None? ==> forall k :: j <= k < |s| ==> !Closes(s, i, k)
    decreases |s| - j
  {
    if j == |s| then None
    else if s[j] == ')' then Some(j)
    else if IsLineTerminator(s[j]) then None
    else CloseFrom(s, i, j + 1)
  }

  /** The leftmost match starting at or after `i`. */
  function MatchFrom(s: string, i: nat): (r: Option<(nat, nat)>)
    requires i <= |s|
    ensures r.Some? ==> && i <= r.value.0 && Closes(s, r.value.0, r.value.1)
                        && forall a, b :: i <= a < r.value.0 ==> !Closes(s, a, b)
    ensures r.None? ==> forall a, b :: i <= a ==> !Closes(s, a, b)
    decreases |s| - i
  {
    if i == |s| then None
    else if s[i] == '(' && CloseFrom(s, i, i + 1).Some? then Some((i, CloseFrom(s, i, i + 1).value))
    else MatchFrom(s, i + 1)
  }

  /** The captured group of the leftmost match, or None when nothing matches. */
  function Parenthesized(s: string): (r: Option<string>)
    ensures r.None? <==> forall a, b :: !Closes(s, a, b)
    ensures r.Some? ==> exists a, b :: && Closes(s, a, b) && r.value == s[a + 1..b]
                                       && forall a', b' :: a' < a ==> !Closes(s, a', b')
  {
    match MatchFrom(s, 0)
    case None => None
    case Some((a, b)) => Some(s[a + 1..b])
  }

  /** The group of `name(party)rest` is `party` when `name` has no "(" and
      `party` neither ")" nor a line end. */
  lemma ParenthesizedOf(name: string, party: string, rest: string)
    requires '(' !in name
    requires forall k :: 0 <= k < |party| ==> party[k] != ')' && !IsLineTerminator(party[k])
    ensures Parenthesized(name + "(" + party + ")" + rest) == Some(party)
  {
    var s := name + "(" + party + ")" + rest;
    var i, j := |name|, |name| + |party| + 1;
    assert s[i] == '(' && s[j] == ')';
    assert forall k :: i < k < j ==> s[k] == party[k - i - 1];
    assert Closes(s, i, j);
    var m := MatchFrom(s, 0);
    assert m.Some?;
    var (a, b) := m.value;
    assert forall a' :: 0 <= a' < i ==> s[a'] == name[a'];
    assert a == i;
    ClosesUnique(s, i, j, b);
    assert s[i + 1..j] == party;
  }

  // ---- The header ----

  datatype Profile = Profile(nome: string, foto: Js, cargo: Js, partido: string, uf: string, municipio: string)

  const DefaultName := "Pol\U{00ED}tico"
  const PlaceholderPhoto := "/photos/placeholder.jpg"

  /** `body.split("(")[0].trim() || "Político"` */
  function NameOf(s: string): string
  {
    var t := Trim(BeforeParen(s));
    if t == "" then DefaultName else t
  }

  /** `body.match(/\((.*?)\)/)?.[1] || ""` */
  function PartyOf(s: string): string
  {
    match Parenthesized(s)
    case None => ""
    case Some(p) => p
  }

  /** The `profile` object built from the post `find` returned (undefined when
      there was none).  A body that is neither a string nor null/undefined makes
      `split` throw. */
  function ProfileOf(perfilPost: Js): Result<Profile>
  {
    var body := Field(perfilPost, "body");
    var foto := Or(Field(perfilPost, "foto"), Str(PlaceholderPhoto));
    var cargo := Or(Field(perfilPost, "title"), Str(""));
    if Nullish(body) then Ok(Profile(DefaultName, foto, cargo, "", "", ""))
    else
      var s :- StringReceiver(body, "split");
      Ok(Profile(NameOf(s), foto, cargo, PartyOf(s), "", ""))
  }

  /** A body written `name (party) ...` gives the trimmed name and the party. */
  lemma ProfileFromBody(post: Js, name: string, party: string, rest: string)
    requires '(' !in name && Trim(name) != ""
    requires forall k :: 0 <= k < |party| ==> party[k] != ')' && !IsLineTerminator(party[k])
    requires Field(post, "body") == Str(name + "(" + party + ")" + rest)
    ensures ProfileOf(post).Ok?
    ensures ProfileOf(post).value.nome == Trim(name) && ProfileOf(post).value.partido == party
  {
    var s := Field(post, "body").s;
    NameBeforeParen(s, name, party, rest);
    PartyInParens(s, name, party, rest);
    ProfileOfString(post, s);
  }

  lemma NameBeforeParen(s: string, name: string, party: string, rest: string)
    requires '(' !in name && Trim(name) != ""
    requires s == name + "(" + party + ")" + rest
    ensures NameOf(s) == Trim(name)
  {
    var tail := party + ")" + rest;
    Regroup(name, "(", party, ")", rest);
    BeforeParenOf(name, tail);
    NameFromPrefix(s, name);
  }

  lemma Regroup<T>(a: seq<T>, b: seq<T>, c: seq<T>, d: seq<T>, e: seq<T>)
    ensures a + b + c + d + e == a + b + (c + d + e)
  {
  }

  lemma NameFromPrefix(s: string, name: string)
    requires BeforeParen(s) == name && Trim(name) != ""
    ensures NameOf(s) == Trim(name)
  {
  }

  lemma PartyInParens(s: string, name: string, party: string, rest: string)
    requires '(' !in name
    requires forall k :: 0 <= k < |party| ==> party[k] != ')' && !IsLineTerminator(party[k])
    requires s == name + "(" + party + ")" + rest
    ensures PartyOf(s) == party
  {
    ParenthesizedOf(name, party, rest);
  }

  /** A string body gives the name and party read from it. */
  lemma ProfileOfString(post: Js, s: string)
    requires Field(post, "body") == Str(s)
    ensures ProfileOf(post).Ok?
    ensures ProfileOf(post).value.nome == NameOf(s) && ProfileOf(post).value.partido == PartyOf(s)
  {
  }

  /** The fallbacks: no body gives "Político" and no party; a body whose text
      before "(" is blank gives "Político"; a body without a closed
      parenthesis on one line gives no party; a body that is not a string
      throws.  The photo falls back to the placeholder, the office to "", and
      state and municipality are always "". */
  lemma ProfileFallbacks(post: Js)
    ensures var body := Field(post, "body");
            var r := ProfileOf(post);
            && (r.Err? <==> !Nullish(body) && !body.Str?)
            && (Nullish(body) ==> r.value.nome == DefaultName && r.value.partido == "")
            && (body.Str? && Trim(BeforeParen(body.s)) == "" ==> r.value.nome == DefaultName)
            && (body.Str? && (forall a, b :: !Closes(body.s, a, b)) ==> r.value.partido == "")
            && (r.Ok? ==> && r.value.nome != "" && r.value.uf == "" && r.value.municipio == ""
                          && Truthy(r.value.foto)
                          && (Truthy(Field(post, "foto")) ==> r.value.foto == Field(post, "foto"))
                          && (!Truthy(Field(post, "foto")) ==> r.value.foto == Str(PlaceholderPhoto)))
  {
    var body := Field(post, "body");
    if body.Str? {
      ProfileOfString(post, body.s);
    }
  }

  // ---- The page ----

  /** What `carregarPerfil` renders. */
  datatype Page = NotFound | NoActivity | Timeline(profile: Profile, icons: seq<string>)

  /** `v.length` */
  function Length(v: Js): Js
  {
    match v
    case Arr(items) => Num(|items|)
    case Str(s) => Num(|s|)
    case _ => Field(v, "length")
  }

  /** `p => p.type === "perfil"` */
  function IsPerfil(p: Js): Result<bool>
  {
    var t :- Member(p, "type");
    Ok(t == Str("perfil"))
  }

  /** `posts.find(...)`, with undefined for no match. */
  function PerfilPost(posts: seq<Js>): Result<Js>
  {
    var found :- FindThrowing(posts, IsPerfil);
    Ok(match found case None => Undefined case Some(p) => p)
  }

  /** The header post is the first post of type "perfil", or undefined when no
      post has that type; a null or undefined post met before it makes `p.type`
      throw. */
  lemma PerfilPostFirst(posts: seq<Js>)
    ensures var r := PerfilPost(posts);
            && (r == Ok(Undefined) <==> forall j :: 0 <= j < |posts| ==> !Nullish(posts[j]) && Field(posts[j], "type") != Str("perfil"))
            && (r.Ok? && r.value != Undefined ==>
                  exists i :: && 0 <= i < |posts| && posts[i] == r.value && Field(posts[i], "type") == Str("perfil")
                              && forall j :: 0 <= j < i ==> Field(posts[j], "type") != Str("perfil"))
  {
  }

  /** The icon `renderPost` picks for a post; reading `ev.date` throws first on
      a null or undefined post. */
  function RenderIcon(ev: Js): Result<string>
  {
    if Nullish(ev) then Err(ReadError(ev, "date")) else Ok(IconOf(Field(ev, "type")))
  }

  /** `id` is `params.get("id")`; `posts` is what `getJSON` returned. */
  function PageOf(id: Js, posts: Js): Result<Page>
  {
    if !Truthy(id) then Ok(NotFound)
    else if !Truthy(posts) || Length(posts) == Num(0) then Ok(NoActivity)
    else if !posts.Arr? then Err(ErrorValue("TypeError", "posts.find is not a function"))
    else
      var post :- PerfilPost(posts.items);
      var profile :- ProfileOf(post);
      var icons :- MapThrowing(posts.items, RenderIcon);
      Ok(Timeline(profile, icons))
  }

  /** Without an id the page says the politician was not found; with an id but
      no posts it says there is no activity; otherwise the header comes from
      the first post of type "perfil" (or the defaults when there is none)
      and there is one icon per post, in order. */
  lemma PageCases(id: Js, posts: Js)
    ensures PageOf(id, posts) == Ok(NotFound) <==> !Truthy(id)
    ensures Truthy(id) && posts == Arr([]) ==> PageOf(id, posts) == Ok(NoActivity)
    ensures PageOf(id, posts).Ok? && PageOf(id, posts).value.Timeline? ==>
              && posts.Arr? && |posts.items| > 0
              && var post := PerfilPost(posts.items);
                 && post.Ok? && ProfileOf(post.value) == Ok(PageOf(id, posts).value.profile)
                 && (post.value == Undefined || (post.value in posts.items && Field(post.value, "type") == Str("perfil")))
                 && |PageOf(id, posts).value.icons| == |posts.items|
                 && forall i :: 0 <= i < |posts.items| ==>
                      PageOf(id, posts).value.icons[i] == IconOf(Field(posts.items[i], "type"))
  {
  }

  // ---- Icons ----

  const Icons: map<string, string> :=
    map["despesa" := "\U{1F4B8}", "proposicao" := "\U{1F4DC}", "discurso" := "\U{1F3A4}", "noticia" := "\U{1F4F0}"]
  const DefaultIcon := "\U{1F4DD}"

  /** The icon of a post type, by table. */
  function IconOf(t: Js): string
  {
    if t.Str? && t.s in Icons then Icons[t.s] else DefaultIcon
  }

  /** `renderPost`'s chain of ifs overwriting `icon`. */
  method PostIcon(t: Js) returns (icon: string)
    ensures icon == IconOf(t)
  {
    icon := DefaultIcon;
    if t == Str("despesa") { icon := "\U{1F4B8}"; }
    if t == Str("proposicao") { icon := "\U{1F4DC}"; }
    if t == Str("discurso") { icon := "\U{1F3A4}"; }
    if t == Str("noticia") { icon := "\U{1F4F0}"; }
  }

  // ---- moneyFormat ----

  /** `moneyFormat(v)`; `format` is `toLocaleString` to Brazilian reais. */
  function MoneyFormat(v: Js, format: Js -> string): (r: string)
    ensures !Truthy(v) && v != Num(0) ==> r == ""
    ensures Truthy(v) || v == Num(0) ==> r == format(v)
  {
    if !Truthy(v) && v != Num(0) then "" else format(v)
  }

  /** The amount is left blank for undefined, null, false and the empty string;
      every number, 0 included, and every other value is formatted. */
  lemma MoneyFormatCases(v: Js, format: Js -> string)
    ensures v == Undefined || v == Null || v == Bool(false) || v == Str("") ==> MoneyFormat(v, format) == ""
    ensures v.Num? || v == Bool(true) || (v.Str? && v.s != "") || v.Arr? || v.Obj? || v.Error?
            ==> MoneyFormat(v, format) == format(v)
    ensures MoneyFormat(Num(0), format) == format(Num(0))
  {
  }
}
