/** Text primitives: case mapping, canonical decomposition, the accent-stripping
    `normalize` helper, `includes` and `trim`.

    The Unicode tables behind `toLowerCase`, `toUpperCase` and
    `normalize("NFD")` are not written out: a `Ucd` value carries them as
    per-code-point functions, and the properties below hold for every table
    that satisfies the stated coherence condition.  `Latin1` is one concrete
    table (ASCII plus the Latin-1 letters) used for worked examples. */
module Text {
  import opened JsRuntime
  import opened Seqs

  /** Per-code-point case maps and full canonical decomposition. */
  datatype Ucd = Ucd(lower: char -> char, upper: char -> char, decompose: char -> string)

  /** The Combining Diacritical Marks block, U+0300..U+036F: what
      `.replace(/[\u0300-\u036f]/g, "")` removes. */
  predicate IsMark(c: char) { '\U{0300}' <= c <= '\U{036F}' }

  predicate NotMark(c: char) { !IsMark(c) }

  /** `s.toLowerCase()` */
  function LowerStr(u: Ucd, s: string): string { Map(u.lower, s) }

  /** `s.toUpperCase()` */
  function UpperStr(u: Ucd, s: string): string { Map(u.upper, s) }

  /** `s.normalize("NFD")`, code point by code point. */
  function Nfd(u: Ucd, s: string): string
  {
    if s == [] then [] else u.decompose(s[0]) + Nfd(u, s[1..])
  }

  function StripMarks(s: string): string { Filter(NotMark, s) }

  /** `s.toLowerCase().normalize("NFD").replace(/[\u0300-\u036f]/g, "")`: the
      helper written out in the prefeitos, vereadores and viceprefeitos routes and
      in the autocomplete page.  It takes a string; on anything else its first
      step throws (see NormalizeOf). */
  function Normalize(u: Ucd, s: string): (r: string)
    ensures forall c :: c in r ==> !IsMark(c)
  {
    StripMarks(Nfd(u, LowerStr(u, s)))
  }

  /** What `normalize` does to one code point. */
  function Fold(u: Ucd, c: char): string
  {
    StripMarks(u.decompose(u.lower(c)))
  }

  function FoldAll(u: Ucd, s: string): string
  {
    if s == [] then [] else Fold(u, s[0]) + FoldAll(u, s[1..])
  }

  /** Normalization works code point by code point. */
  lemma {:induction false} NormalizeByCodePoint(u: Ucd, s: string)
    ensures Normalize(u, s) == FoldAll(u, s)
  {
    if s != [] {
      NormalizeByCodePoint(u, s[1..]);
      assert LowerStr(u, s) == [u.lower(s[0])] + LowerStr(u, s[1..]);
      assert LowerStr(u, s)[1..] == LowerStr(u, s[1..]);
      FilterConcat(NotMark, u.decompose(u.lower(s[0])), Nfd(u, LowerStr(u, s[1..])));
    }
  }

  lemma {:induction false} FoldAllConcat(u: Ucd, a: string, b: string)
    ensures FoldAll(u, a + b) == FoldAll(u, a) + FoldAll(u, b)
  {
    if a == [] {
      assert a + b == b;
    } else {
      assert (a + b)[0] == a[0];
      assert (a + b)[1..] == a[1..] + b;
      FoldAllConcat(u, a[1..], b);
    }
  }

  /** Normalization distributes over concatenation. */
  lemma NormalizeConcat(u: Ucd, a: string, b: string)
    ensures Normalize(u, a + b) == Normalize(u, a) + Normalize(u, b)
  {
    NormalizeByCodePoint(u, a + b);
    NormalizeByCodePoint(u, a);
    NormalizeByCodePoint(u, b);
    FoldAllConcat(u, a, b);
  }

  /** The tables agree with each other: every code point that normalization
      produces is left alone by normalization.  Unicode's own tables have this
      property for the letters that matter here (a lower-case letter stays
      lower-case, and a decomposed base letter does not decompose again). */
  ghost predicate Coherent(u: Ucd)
  {
    forall c, d :: d in Fold(u, c) ==> Fold(u, d) == [d]
  }

  lemma {:induction false} FoldAllFixed(u: Ucd, t: string)
    requires forall d :: d in t ==> Fold(u, d) == [d]
    ensures FoldAll(u, t) == t
  {
    if t != [] {
      FoldAllFixed(u, t[1..]);
    }
  }

  lemma {:induction false} FoldAllCodePoints(u: Ucd, s: string, d: char)
    requires d in FoldAll(u, s)
    ensures exists c :: c in s && d in Fold(u, c)
  {
    if s != [] {
      if d !in Fold(u, s[0]) {
        FoldAllCodePoints(u, s[1..], d);
      }
    }
  }

  /** normalize(normalize(s)) == normalize(s). */
  lemma NormalizeIdempotent(u: Ucd, s: string)
    requires Coherent(u)
    ensures Normalize(u, Normalize(u, s)) == Normalize(u, s)
  {
    var t := Normalize(u, s);
    NormalizeByCodePoint(u, s);
    NormalizeByCodePoint(u, t);
    forall d | d in t ensures Fold(u, d) == [d] {
      FoldAllCodePoints(u, s, d);
    }
    FoldAllFixed(u, t);
  }

  // ---- normalize applied to a JavaScript value ----

  /** `v.toLowerCase()` */
  function LowerOf(u: Ucd, v: Js): (r: Result<string>)
    ensures r.Ok? <==> v.Str?
    ensures v.Str? ==> r.value == LowerStr(u, v.s)
  {
    var s :- StringReceiver(v, "toLowerCase");
    Ok(LowerStr(u, s))
  }

  /** The route-local and autocomplete-page `normalize(v)`: no guard, so
      anything but a string makes `v.toLowerCase` throw. */
  function NormalizeOf(u: Ucd, v: Js): (r: Result<string>)
    ensures r.Ok? <==> v.Str?
    ensures v.Str? ==> r.value == Normalize(u, v.s)
  {
    var s :- StringReceiver(v, "toLowerCase");
    Ok(Normalize(u, s))
  }

  /** The shared helper's `normalize(v)`: `(v || "")` first, so every falsy
      value gives "" and only a truthy non-string throws. */
  function NormalizeOrEmpty(u: Ucd, v: Js): (r: Result<string>)
    ensures !Truthy(v) ==> r == Ok("")
    ensures v.Str? ==> r == Ok(Normalize(u, v.s))
    ensures r.Err? <==> Truthy(v) && !v.Str?
  {
    NormalizeOf(u, Or(v, Str("")))
  }

  // ---- includes and trim ----

  /** `s.includes(q)`; the empty string is contained in every string. */
  predicate Includes(s: string, q: string)
  {
    exists i :: 0 <= i <= |s| - |q| && OccursAt(s, q, i)
  }

  predicate OccursAt(s: string, q: string, i: int)
  {
    0 <= i <= |s| - |q| && s[i..i + |q|] == q
  }

  /** The code points `String.prototype.trim` removes: WhiteSpace and
      LineTerminator of ECMAScript. */
  predicate IsJsSpace(c: char)
  {
    || c == '\t' || c == '\n' || c == '\U{000B}' || c == '\U{000C}' || c == '\r' || c == ' '
    || c == '\U{00A0}' || c == '\U{1680}' || ('\U{2000}' <= c <= '\U{200A}')
    || c == '\U{2028}' || c == '\U{2029}' || c == '\U{202F}' || c == '\U{205F}'
    || c == '\U{3000}' || c == '\U{FEFF}'
  }

  function TrimStart(s: string): (r: string)
    ensures |r| <= |s| && r == s[|s| - |r|..]
    ensures forall i :: 0 <= i < |s| - |r| ==> IsJsSpace(s[i])
    ensures r != [] ==> !IsJsSpace(r[0])
  {
    if s != [] && IsJsSpace(s[0]) then TrimStart(s[1..]) else s
  }

  function TrimEnd(s: string): (r: string)
    ensures |r| <= |s| && r == s[..|r|]
    ensures forall i :: |r| <= i < |s| ==> IsJsSpace(s[i])
    ensures r != [] ==> !IsJsSpace(r[|r| - 1])
  {
    if s != [] && IsJsSpace(s[|s| - 1]) then TrimEnd(s[..|s| - 1]) else s
  }

  /** `s.trim()`: the longest slice of `s` that neither starts nor ends with white
      space, obtained by removing only white space. */
  function Trim(s: string): (r: string)
    ensures exists i, j :: 0 <= i <= j <= |s| && r == s[i..j]
                           && (forall k :: 0 <= k < i ==> IsJsSpace(s[k]))
                           && (forall k :: j <= k < |s| ==> IsJsSpace(s[k]))
    ensures r != [] ==> !IsJsSpace(r[0]) && !IsJsSpace(r[|r| - 1])
  {
    var t := TrimStart(s);
    var r := TrimEnd(t);
    assert r == s[|s| - |t|..|s| - |t| + |r|];
    r
  }

  // ---- A concrete table: ASCII and the Latin-1 letters ----

  function Latin1Lower(c: char): char
  {
    if 'A' <= c <= 'Z' || ('\U{00C0}' <= c <= '\U{00DE}' && c != '\U{00D7}') then (c as int + 32) as char else c
  }

  function Latin1Upper(c: char): char
  {
    if 'a' <= c <= 'z' || ('\U{00E0}' <= c <= '\U{00FE}' && c != '\U{00F7}') then (c as int - 32) as char else c
  }

  /** Base letter and combining mark of a precomposed lower-case Latin-1 letter. */
  function Latin1Parts(c: char): Option<(char, char)>
  {
    if c < '\U{00E0}' || '\U{00FF}' < c then None else
    match c
    case '\U{00E0}' => Some(('a', '\U{0300}'))
    case '\U{00E1}' => Some(('a', '\U{0301}'))
    case '\U{00E2}' => Some(('a', '\U{0302}'))
    case '\U{00E3}' => Some(('a', '\U{0303}'))
    case '\U{00E4}' => Some(('a', '\U{0308}'))
    case '\U{00E5}' => Some(('a', '\U{030A}'))
    case '\U{00E7}' => Some(('c', '\U{0327}'))
    case '\U{00E8}' => Some(('e', '\U{0300}'))
    case '\U{00E9}' => Some(('e', '\U{0301}'))
    case '\U{00EA}' => Some(('e', '\U{0302}'))
    case '\U{00EB}' => Some(('e', '\U{0308}'))
    case '\U{00EC}' => Some(('i', '\U{0300}'))
    case '\U{00ED}' => Some(('i', '\U{0301}'))
    case '\U{00EE}' => Some(('i', '\U{0302}'))
    case '\U{00EF}' => Some(('i', '\U{0308}'))
    case '\U{00F1}' => Some(('n', '\U{0303}'))
    case '\U{00F2}' => Some(('o', '\U{0300}'))
    case '\U{00F3}' => Some(('o', '\U{0301}'))
    case '\U{00F4}' => Some(('o', '\U{0302}'))
    case '\U{00F5}' => Some(('o', '\U{0303}'))
    case '\U{00F6}' => Some(('o', '\U{0308}'))
    case '\U{00F9}' => Some(('u', '\U{0300}'))
    case '\U{00FA}' => Some(('u', '\U{0301}'))
    case '\U{00FB}' => Some(('u', '\U{0302}'))
    case '\U{00FC}' => Some(('u', '\U{0308}'))
    case '\U{00FD}' => Some(('y', '\U{0301}'))
    case '\U{00FF}' => Some(('y', '\U{0308}'))
    case _ => None
  }

  function Latin1Decompose(c: char): string
  {
    if '\U{00C0}' <= c <= '\U{00DD}' && c != '\U{00D7}' then
      match Latin1Parts((c as int + 32) as char)
      case Some(p) => [(p.0 as int - 32) as char, p.1]
      case None => [c]
    else
      match Latin1Parts(c)
      case Some(p) => [p.0, p.1]
      case None => [c]
  }

  function Latin1(): Ucd
  {
    Ucd(Latin1Lower, Latin1Upper, Latin1Decompose)
  }

  /** What the Latin-1 table folds a code point to: its lower-case base letter. */
  function Latin1Folded(c: char): char
  {
    var l := Latin1Lower(c);
    match Latin1Parts(l)
    case Some(p) => p.0
    case None => l
  }

  lemma Latin1Fold(c: char)
    ensures Fold(Latin1(), c) == if IsMark(c) then [] else [Latin1Folded(c)]
  {
    var l := Latin1Lower(c);
    assert !('\U{00C0}' <= l <= '\U{00DD}' && l != '\U{00D7}');
    match Latin1Parts(l)
    case Some(p) =>
      assert Latin1Decompose(l) == [p.0, p.1];
      FilterCons(NotMark, p.0, [p.1]);
      FilterCons(NotMark, p.1, []);
    case None =>
      assert Latin1Decompose(l) == [l];
      FilterCons(NotMark, l, []);
  }

  lemma Latin1PartsShape(x: char)
    ensures Latin1Parts(x).Some? ==> 'a' <= Latin1Parts(x).value.0 <= 'z' && IsMark(Latin1Parts(x).value.1)
    ensures 'a' <= x <= 'z' ==> Latin1Parts(x).None?
  {
  }

  /** Folding with the Latin-1 table is a projection: a folded code point folds to itself. */
  lemma Latin1FoldedFixed(c: char)
    requires !IsMark(c)
    ensures !IsMark(Latin1Folded(c)) && Latin1Folded(Latin1Folded(c)) == Latin1Folded(c)
  {
    var l := Latin1Lower(c);
    assert Latin1Lower(l) == l;
    Latin1PartsShape(l);
    match Latin1Parts(l)
    case Some(p) =>
      Latin1PartsShape(p.0);
    case None =>
  }

  /** The Latin-1 table satisfies the coherence condition, so normalization
      with it is idempotent. */
  lemma Latin1Coherent()
    ensures Coherent(Latin1())
  {
    forall c, d | d in Fold(Latin1(), c) ensures Fold(Latin1(), d) == [d] {
      Latin1Fold(c);
      assert !IsMark(c) && d == Latin1Folded(c);
      Latin1FoldedFixed(c);
      Latin1Fold(d);
    }
  }

  lemma {:induction false} FoldAllPointwise(u: Ucd, s: string, t: string)
    requires |s| == |t|
    requires forall i :: 0 <= i < |s| ==> Fold(u, s[i]) == [t[i]]
    ensures FoldAll(u, s) == t
  {
    if s != [] {
      FoldAllPointwise(u, s[1..], t[1..]);
      assert t == [t[0]] + t[1..];
    }
  }

  lemma Latin1FoldIs(c: char, x: char)
    requires !IsMark(c) && Latin1Folded(c) == x
    ensures Fold(Latin1(), c) == [x]
  {
    Latin1Fold(c);
  }

  /** Normalizing with the Latin-1 table folds "S\U{00E3}o Paulo" letter by letter onto "sao paulo". */
  lemma SaoPauloFolds()
    ensures forall i :: 0 <= i < 9 ==> Fold(Latin1(), "S\U{00E3}o Paulo"[i]) == ["sao paulo"[i]]
  {
    var accented, plain := "S\U{00E3}o Paulo", "sao paulo";
    forall i | 0 <= i < 9 ensures Fold(Latin1(), accented[i]) == [plain[i]] {
      if i == 0 { Latin1FoldIs('S', 's'); }
      else if i == 1 { Latin1FoldIs('\U{00E3}', 'a'); }
      else if i == 2 { Latin1FoldIs('o', 'o'); }
      else if i == 3 { Latin1FoldIs(' ', ' '); }
      else if i == 4 { Latin1FoldIs('P', 'p'); }
      else if i == 5 { Latin1FoldIs('a', 'a'); }
      else if i == 6 { Latin1FoldIs('u', 'u'); }
      else if i == 7 { Latin1FoldIs('l', 'l'); }
      else { assert i == 8; Latin1FoldIs('o', 'o'); }
    }
  }

  lemma SaoPauloPlainFixed()
    ensures forall i :: 0 <= i < 9 ==> Fold(Latin1(), "sao paulo"[i]) == ["sao paulo"[i]]
  {
    var plain := "sao paulo";
    forall i | 0 <= i < 9 ensures Fold(Latin1(), plain[i]) == [plain[i]] {
      if i == 0 { Latin1FoldIs('s', 's'); }
      else if i == 1 { Latin1FoldIs('a', 'a'); }
      else if i == 2 { Latin1FoldIs('o', 'o'); }
      else if i == 3 { Latin1FoldIs(' ', ' '); }
      else if i == 4 { Latin1FoldIs('p', 'p'); }
      else if i == 5 { Latin1FoldIs('a', 'a'); }
      else if i == 6 { Latin1FoldIs('u', 'u'); }
      else if i == 7 { Latin1FoldIs('l', 'l'); }
      else { assert i == 8; Latin1FoldIs('o', 'o'); }
    }
  }

  /** normalize("S\U{00E3}o Paulo") == normalize("sao paulo") == "sao paulo": the city
      comparison in the municipal routes ignores case and accents. */
  lemma SaoPauloExample()
    ensures Normalize(Latin1(), "S\U{00E3}o Paulo") == Normalize(Latin1(), "sao paulo") == "sao paulo"
  {
    var u := Latin1();
    var accented, plain := "S\U{00E3}o Paulo", "sao paulo";
    SaoPauloFolds();
    SaoPauloPlainFixed();
    NormalizeByCodePoint(u, accented);
    NormalizeByCodePoint(u, plain);
    FoldAllPointwise(u, accented, plain);
    FoldAllPointwise(u, plain, plain);
  }
}
