/** Sequence vocabulary shared by the model: filtering, mapping, prefixes and
    the stable sort that stands for JavaScript's Array.prototype.sort. */
module Seqs {

  /** JavaScript's `xs.filter(p)` for a callback that cannot throw. */
  function Filter<T(!new)>(p: T -> bool, xs: seq<T>): (r: seq<T>)
    ensures |r| <= |xs|
    ensures forall x :: x in r <==> x in xs && p(x)
    ensures forall i :: 0 <= i < |r| ==> p(r[i])
  {
    if xs == [] then [] else (if p(xs[0]) then [xs[0]] else []) + Filter(p, xs[1..])
  }

  /** JavaScript's `xs.map(f)` for a callback that cannot throw. */
  function Map<A, B>(f: A -> B, xs: seq<A>): (r: seq<B>)
    ensures |r| == |xs|
    ensures forall i :: 0 <= i < |xs| ==> r[i] == f(xs[i])
  {
    if xs == [] then [] else [f(xs[0])] + Map(f, xs[1..])
  }

  /** JavaScript's `xs.slice(0, n)`. */
  function Take<T>(xs: seq<T>, n: nat): (r: seq<T>)
    ensures |r| <= n && r <= xs
    ensures |xs| <= n ==> r == xs
    ensures n <= |xs| ==> |r| == n
  {
    if |xs| <= n then xs else xs[..n]
  }

  /** `sub` is obtained from `xs` by deleting elements, keeping the order. */
  predicate IsSubsequence<T(==)>(sub: seq<T>, xs: seq<T>)
  {
    if sub == [] then true
    else if xs == [] then false
    else (sub[0] == xs[0] && IsSubsequence(sub[1..], xs[1..])) || IsSubsequence(sub, xs[1..])
  }

  lemma FilterCons<T(!new)>(p: T -> bool, x: T, xs: seq<T>)
    ensures Filter(p, [x] + xs) == (if p(x) then [x] else []) + Filter(p, xs)
  {
    assert ([x] + xs)[1..] == xs;
  }

  lemma FilterConcat<T(!new)>(p: T -> bool, a: seq<T>, b: seq<T>)
    ensures Filter(p, a + b) == Filter(p, a) + Filter(p, b)
  {
    if a == [] {
      assert a + b == b;
    } else {
      assert (a + b)[1..] == a[1..] + b;
      FilterConcat(p, a[1..], b);
    }
  }

  /** A sequence that agrees with `f` at every index is `Map(f, xs)`. */
  lemma MapPointwise<A, B>(f: A -> B, xs: seq<A>, ys: seq<B>)
    requires |xs| == |ys| && forall i :: 0 <= i < |xs| ==> f(xs[i]) == ys[i]
    ensures Map(f, xs) == ys
  {
  }

  lemma {:induction false} MapConcat<A, B>(f: A -> B, a: seq<A>, b: seq<A>)
    ensures Map(f, a + b) == Map(f, a) + Map(f, b)
  {
    if a == [] {
      assert a + b == b;
    } else {
      assert (a + b)[1..] == a[1..] + b;
      MapConcat(f, a[1..], b);
    }
  }

  /** Filtering depends only on which elements the predicate keeps. */
  lemma FilterExtensional<T(!new)>(p: T -> bool, q: T -> bool, xs: seq<T>)
    requires forall x :: x in xs ==> p(x) == q(x)
    ensures Filter(p, xs) == Filter(q, xs)
  {
    if xs != [] {
      FilterExtensional(p, q, xs[1..]);
    }
  }

  /** A filter keeps the order of the elements it keeps. */
  lemma {:induction false} FilterIsSubsequence<T(!new)>(p: T -> bool, xs: seq<T>)
    ensures IsSubsequence(Filter(p, xs), xs)
  {
    if xs != [] {
      FilterIsSubsequence(p, xs[1..]);
      FilterCons(p, xs[0], xs[1..]);
      assert xs == [xs[0]] + xs[1..];
      if p(xs[0]) {
        assert Filter(p, xs)[1..] == Filter(p, xs[1..]);
      } else {
        assert Filter(p, xs) == Filter(p, xs[1..]);
      }
    }
  }

  /** A prefix of a subsequence is a subsequence. */
  lemma {:induction false} PrefixIsSubsequence<T>(sub: seq<T>, k: nat, xs: seq<T>)
    requires IsSubsequence(sub, xs) && k <= |sub|
    ensures IsSubsequence(sub[..k], xs)
  {
    if k > 0 && xs != [] {
      if sub[0] == xs[0] && IsSubsequence(sub[1..], xs[1..]) {
        PrefixIsSubsequence(sub[1..], k - 1, xs[1..]);
        assert sub[..k][1..] == sub[1..][..k - 1];
      } else {
        PrefixIsSubsequence(sub, k, xs[1..]);
      }
    }
  }

  /** Subsequences compose. */
  lemma {:induction false} SubsequenceTransitive<T>(a: seq<T>, b: seq<T>, c: seq<T>)
    requires IsSubsequence(a, b) && IsSubsequence(b, c)
    ensures IsSubsequence(a, c)
    decreases |c|
  {
    if a != [] {
      assert b != [] && c != [];
      if b[0] == c[0] && IsSubsequence(b[1..], c[1..]) {
        if a[0] == b[0] && IsSubsequence(a[1..], b[1..]) {
          SubsequenceTransitive(a[1..], b[1..], c[1..]);
        } else {
          SubsequenceTransitive(a, b[1..], c[1..]);
        }
      } else {
        SubsequenceTransitive(a, b, c[1..]);
      }
    }
  }

  // ---- Ordering relations ----

  /** Every two elements are comparable and the relation is transitive:
      what a consistent sort comparator induces (ties allowed). */
  ghost predicate TotalPreorder<T(!new)>(le: (T, T) -> bool)
  {
    && (forall x, y :: le(x, y) || le(y, x))
    && (forall x, y, z :: le(x, y) && le(y, z) ==> le(x, z))
  }

  ghost predicate SortedBy<T>(le: (T, T) -> bool, xs: seq<T>)
  {
    forall i, j :: 0 <= i < j < |xs| ==> le(xs[i], xs[j])
  }

  /** The elements tied with `p` under `le`. */
  function TiedWith<T>(le: (T, T) -> bool, p: T): T -> bool
  {
    y => le(p, y) && le(y, p)
  }

  /** Inserts `x` before the first element it may precede, hence before every
      element it is tied with. */
  function Insert<T>(le: (T, T) -> bool, x: T, ys: seq<T>): seq<T>
  {
    if ys == [] then [x]
    else if le(x, ys[0]) then [x] + ys
    else [ys[0]] + Insert(le, x, ys[1..])
  }

  /** A stable sort: insertion sort from the back of the sequence.  It stands for
      Array.prototype.sort with a comparator `cmp` where `le(a, b)` is `cmp(a, b) <= 0`;
      that sort has been required to be stable since ECMAScript 2019, so for a
      consistent comparator its result is exactly this one. */
  function SortBy<T>(le: (T, T) -> bool, xs: seq<T>): seq<T>
  {
    if xs == [] then [] else Insert(le, xs[0], SortBy(le, xs[1..]))
  }

  lemma {:induction false} InsertMultiset<T>(le: (T, T) -> bool, x: T, ys: seq<T>)
    ensures multiset(Insert(le, x, ys)) == multiset{x} + multiset(ys)
  {
    if ys != [] && !le(x, ys[0]) {
      InsertMultiset(le, x, ys[1..]);
      assert ys == [ys[0]] + ys[1..];
    }
  }

  /** The sort returns a permutation of its input. */
  lemma {:induction false} SortByPermutation<T>(le: (T, T) -> bool, xs: seq<T>)
    ensures multiset(SortBy(le, xs)) == multiset(xs)
    ensures |SortBy(le, xs)| == |xs|
  {
    if xs != [] {
      SortByPermutation(le, xs[1..]);
      InsertMultiset(le, xs[0], SortBy(le, xs[1..]));
      assert xs == [xs[0]] + xs[1..];
    }
    assert |multiset(SortBy(le, xs))| == |multiset(xs)|;
  }

  lemma {:induction false} InsertSorted<T(!new)>(le: (T, T) -> bool, x: T, ys: seq<T>)
    requires TotalPreorder(le)
    requires SortedBy(le, ys)
    ensures SortedBy(le, Insert(le, x, ys))
  {
    if ys != [] && !le(x, ys[0]) {
      InsertSorted(le, x, ys[1..]);
      InsertMultiset(le, x, ys[1..]);
      var rest := Insert(le, x, ys[1..]);
      forall k | 0 <= k < |rest| ensures le(ys[0], rest[k]) {
        assert rest[k] in multiset(rest);
        assert rest[k] == x || rest[k] in ys[1..];
      }
    }
  }

  /** The sort returns a sequence ordered by `le`. */
  lemma {:induction false} SortBySorted<T(!new)>(le: (T, T) -> bool, xs: seq<T>)
    requires TotalPreorder(le)
    ensures SortedBy(le, SortBy(le, xs))
  {
    if xs != [] {
      SortBySorted(le, xs[1..]);
      InsertSorted(le, xs[0], SortBy(le, xs[1..]));
    }
  }

  /** Two elements both tied with `p` would be tied with each other. */
  lemma NotBothTied<T(!new)>(le: (T, T) -> bool, x: T, y: T, p: T)
    requires TotalPreorder(le) && !le(x, y)
    ensures !(TiedWith(le, p)(x) && TiedWith(le, p)(y))
  {
  }

  lemma {:induction false} InsertStable<T(!new)>(le: (T, T) -> bool, x: T, ys: seq<T>, p: T)
    requires TotalPreorder(le)
    ensures Filter(TiedWith(le, p), Insert(le, x, ys)) == Filter(TiedWith(le, p), [x] + ys)
  {
    if ys != [] && !le(x, ys[0]) {
      InsertStable(le, x, ys[1..], p);
      NotBothTied(le, x, ys[0], p);
      assert Insert(le, x, ys) == [ys[0]] + Insert(le, x, ys[1..]);
      PassUntied(x, ys[0], ys[1..], Insert(le, x, ys[1..]), TiedWith(le, p));
      assert ys == [ys[0]] + ys[1..];
    }
  }

  /** One step of InsertStable: `x` passes `y`, which `e` does not keep
      together with it; `ins` is `x` inserted into `rest`. */
  lemma PassUntied<T(!new)>(x: T, y: T, rest: seq<T>, ins: seq<T>, e: T -> bool)
    requires !(e(y) && e(x))
    requires Filter(e, ins) == Filter(e, [x] + rest)
    ensures Filter(e, [y] + ins) == Filter(e, [x] + ([y] + rest))
  {
    FilterCons(e, y, ins);
    FilterCons(e, x, rest);
    FilterCons(e, y, rest);
    FilterCons(e, x, [y] + rest);
  }

  /** Stability: the elements tied with any `p` appear in the output in the
      same relative order as in the input. */
  lemma {:induction false} SortByStable<T(!new)>(le: (T, T) -> bool, xs: seq<T>, p: T)
    requires TotalPreorder(le)
    ensures Filter(TiedWith(le, p), SortBy(le, xs)) == Filter(TiedWith(le, p), xs)
  {
    if xs != [] {
      var e := TiedWith(le, p);
      SortByStable(le, xs[1..], p);
      InsertStable(le, xs[0], SortBy(le, xs[1..]), p);
      FilterCons(e, xs[0], SortBy(le, xs[1..]));
      FilterCons(e, xs[0], xs[1..]);
      assert xs == [xs[0]] + xs[1..];
    }
  }
}
