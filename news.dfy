/** The news page: the Câmara and Senado feeds are concatenated and sorted
    newest first with the stable `Array.prototype.sort`. */
module News {
  import opened Seqs
  import opened JsRuntime

  /** `new Date(item.pubDate).getTime()`, as an integer, for the item `x`;
      `time` is the date parser. */
  function Time(time: Js -> int, x: Js): int
  {
    time(Field(x, "pubDate"))
  }

  /** The order the comparator `(a, b) => time(b) - time(a)` induces: `a` may
      precede `b` iff the comparator is not positive, that is iff `a` is not
      older than `b`. */
  function Newer(time: Js -> int): (Js, Js) -> bool
  {
    (a, b) => Time(time, a) >= Time(time, b)
  }

  lemma NewerIsPreorder(time: Js -> int)
    ensures TotalPreorder(Newer(time))
  {
  }

  /** `mergeAndSortNews(camara, senado)`: the spread copy `[...camara, ...senado]`
      sorted; the input lists are left as they were. */
  function MergeAndSortNews(time: Js -> int, camara: seq<Js>, senado: seq<Js>): seq<Js>
  {
    SortBy(Newer(time), camara + senado)
  }

  /** Nothing is lost or added: the result is a permutation of both feeds. */
  lemma MergeKeepsItems(time: Js -> int, camara: seq<Js>, senado: seq<Js>)
    ensures var r := MergeAndSortNews(time, camara, senado);
            && multiset(r) == multiset(camara) + multiset(senado)
            && |r| == |camara| + |senado|
  {
    SortByPermutation(Newer(time), camara + senado);
  }

  /** The result is ordered newest first. */
  lemma MergeNewestFirst(time: Js -> int, camara: seq<Js>, senado: seq<Js>)
    ensures var r := MergeAndSortNews(time, camara, senado);
            forall i, j :: 0 <= i < j < |r| ==> Time(time, r[i]) >= Time(time, r[j])
  {
    NewerIsPreorder(time);
    SortBySorted(Newer(time), camara + senado);
  }

  /** The items published at the same instant as `p`. */
  function SameTime(time: Js -> int, p: Js): Js -> bool
  {
    x => Time(time, x) == Time(time, p)
  }

  /** Ties keep their order: among items with equal timestamps the Câmara items
      come first, in their feed order, then the Senado items in theirs. */
  lemma MergeKeepsTies(time: Js -> int, camara: seq<Js>, senado: seq<Js>, p: Js)
    ensures Filter(SameTime(time, p), MergeAndSortNews(time, camara, senado))
            == Filter(SameTime(time, p), camara) + Filter(SameTime(time, p), senado)
  {
    var le := Newer(time);
    NewerIsPreorder(time);
    SortByStable(le, camara + senado, p);
    forall x ensures TiedWith(le, p)(x) == SameTime(time, p)(x) {
    }
    FilterExtensional(TiedWith(le, p), SameTime(time, p), SortBy(le, camara + senado));
    FilterExtensional(TiedWith(le, p), SameTime(time, p), camara + senado);
    FilterConcat(SameTime(time, p), camara, senado);
  }
}
