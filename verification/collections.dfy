/** The three list updates every store operation is made of, as the source
    writes them on JavaScript arrays: append (`[...prev, x]`), replace by id
    (`prev.map(item => item.id === x.id ? x : item)`) and remove
    (`prev.filter(keep)`). The key of a record is passed as a function so
    that one definition serves all eight collections. */
module Collections {

  /** The elements of `s` that satisfy `keep`, in their original order. */
  function Filter<T(!new)>(s: seq<T>, keep: T -> bool): (r: seq<T>)
    ensures |r| <= |s|
    ensures forall x :: x in r <==> x in s && keep(x)
    decreases |s|
  {
    if |s| == 0 then []
    else
      var rest := Filter(s[1..], keep);
      assert s == [s[0]] + s[1..];
      assert forall x :: x in s[1..] ==> x in s;
      if keep(s[0]) then [s[0]] + rest else rest
  }

  /** Filtering a concatenation filters each part and keeps the parts in
      order: the surviving records never change their relative order. */
  lemma {:induction false} FilterAppend<T(!new)>(s: seq<T>, t: seq<T>, keep: T -> bool)
    ensures Filter(s + t, keep) == Filter(s, keep) + Filter(t, keep)
    decreases |s|
  {
    if |s| > 0 {
      FilterAppend(s[1..], t, keep);
      assert (s + t)[1..] == s[1..] + t;
    } else {
      assert s + t == t;
    }
  }

  /** Filtering keeps the records at positions i < j in that order: the
      result is a subsequence of the input. */
  lemma FilterKeepsOrder<T(!new)>(s: seq<T>, keep: T -> bool, i: int, j: int)
    requires 0 <= i < j < |s| && keep(s[i]) && keep(s[j])
    ensures exists a, b :: 0 <= a < b < |Filter(s, keep)| && Filter(s, keep)[a] == s[i] && Filter(s, keep)[b] == s[j]
  {
    var r := Filter(s, keep);
    var before, between, after := Filter(s[..i], keep), Filter(s[i..j], keep), Filter(s[j..], keep);
    assert s == s[..i] + (s[i..j] + s[j..]);
    FilterAppend(s[..i], s[i..j] + s[j..], keep);
    FilterAppend(s[i..j], s[j..], keep);
    assert r == before + (between + after);
    assert between == [s[i]] + Filter(s[i..j][1..], keep);
    assert after == [s[j]] + Filter(s[j..][1..], keep);
    assert r[|before|] == s[i];
    assert r[|before| + |between|] == s[j];
  }

  /** Filtering keeps every accepted record as many times as it occurs and
      drops every other one: the result is determined up to order by the
      input and the predicate. */
  lemma {:induction false} FilterCounts<T(!new)>(s: seq<T>, keep: T -> bool)
    ensures forall x :: multiset(Filter(s, keep))[x] == if keep(x) then multiset(s)[x] else 0
    decreases |s|
  {
    if |s| > 0 {
      FilterCounts(s[1..], keep);
      assert s == [s[0]] + s[1..];
    }
  }

  /** `r` is `s` with `x` added at the end. */
  predicate Appended<T(==)>(r: seq<T>, s: seq<T>, x: T) {
    |r| == |s| + 1 && r[..|s|] == s && r[|s|] == x
  }

  /** `r` is `s` with every record keyed like `x` replaced by `x`, and every
      other record left at its place. */
  predicate ReplacedByKey<T(==)>(r: seq<T>, s: seq<T>, key: T -> string, x: T) {
    && |r| == |s|
    && (forall i :: 0 <= i < |s| && key(s[i]) != key(x) ==> r[i] == s[i])
    && (forall i :: 0 <= i < |s| && key(s[i]) == key(x) ==> r[i] == x)
  }

  /** Replace by key: `prev.map(item => item.id === x.id ? x : item)`. */
  function ReplaceByKey<T(==)>(s: seq<T>, key: T -> string, x: T): (r: seq<T>)
    ensures ReplacedByKey(r, s, key, x)
  {
    seq(|s|, i requires 0 <= i < |s| => if key(s[i]) == key(x) then x else s[i])
  }

  /** True when no record of `s` has the key `k`. */
  predicate KeyAbsent<T>(s: seq<T>, key: T -> string, k: string) {
    forall i :: 0 <= i < |s| ==> key(s[i]) != k
  }

  /** Replacing a key that is not present leaves the list as it was: an
      update of an unknown id is silently dropped. */
  lemma ReplaceAbsentKeyIsIdentity<T>(s: seq<T>, key: T -> string, x: T)
    requires KeyAbsent(s, key, key(x))
    ensures ReplaceByKey(s, key, x) == s
  {
  }

  /** Filtering with a predicate every element satisfies is the identity. */
  lemma {:induction false} FilterKeepAll<T(!new)>(s: seq<T>, keep: T -> bool)
    requires forall i :: 0 <= i < |s| ==> keep(s[i])
    ensures Filter(s, keep) == s
    decreases |s|
  {
    if |s| > 0 {
      FilterKeepAll(s[1..], keep);
      assert s == [s[0]] + s[1..];
    }
  }

  /** Two filters in a row are one filter by the conjunction `both`: it
      does not matter whether a cascade removes records in one pass or in
      several. */
  lemma {:induction false} FilterFilter<T(!new)>(s: seq<T>, f: T -> bool, g: T -> bool, both: T -> bool)
    requires forall x :: both(x) == (f(x) && g(x))
    ensures Filter(Filter(s, f), g) == Filter(s, both)
    decreases |s|
  {
    if |s| > 0 {
      FilterFilter(s[1..], f, g, both);
      var rest := Filter(s[1..], f);
      if f(s[0]) {
        assert Filter(s, f) == [s[0]] + rest;
        assert ([s[0]] + rest)[1..] == rest;
      }
    }
  }

  /** `ok` holds of every ordered pair of records at distinct positions,
      the earlier one first. */
  predicate Pairwise<T>(s: seq<T>, ok: (T, T) -> bool) {
    forall i, j :: 0 <= i < j < |s| ==> ok(s[i], s[j])
  }

  /** Pairwise over a list with a head: the head goes with every later
      record, and the tail is pairwise itself. */
  lemma PairwiseCons<T>(x: T, t: seq<T>, ok: (T, T) -> bool)
    ensures Pairwise([x] + t, ok) <==> (forall y :: y in t ==> ok(x, y)) && Pairwise(t, ok)
  {
    var s := [x] + t;
    if Pairwise(s, ok) {
      forall y | y in t ensures ok(x, y) {
        var k :| 0 <= k < |t| && t[k] == y;
        assert s[0] == x && s[k + 1] == y;
      }
      forall i, j | 0 <= i < j < |t| ensures ok(t[i], t[j]) {
        assert s[i + 1] == t[i] && s[j + 1] == t[j];
      }
    }
    if (forall y :: y in t ==> ok(x, y)) && Pairwise(t, ok) {
      forall i, j | 0 <= i < j < |s| ensures ok(s[i], s[j]) {
        assert s[j] == t[j - 1];
        if i > 0 {
          assert s[i] == t[i - 1];
        }
      }
    }
  }

  /** A pairwise property survives filtering: removal never brings two
      records together that were not together before. */
  lemma {:induction false} FilterKeepsPairwise<T(!new)>(s: seq<T>, keep: T -> bool, ok: (T, T) -> bool)
    requires Pairwise(s, ok)
    ensures Pairwise(Filter(s, keep), ok)
    decreases |s|
  {
    if |s| > 0 {
      assert s == [s[0]] + s[1..];
      PairwiseCons(s[0], s[1..], ok);
      FilterKeepsPairwise(s[1..], keep, ok);
      var rest := Filter(s[1..], keep);
      if keep(s[0]) {
        PairwiseCons(s[0], rest, ok);
      }
    }
  }
}
