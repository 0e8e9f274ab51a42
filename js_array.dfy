/**
 * The parts of JavaScript's `Array.prototype` that the modelled code relies on.
 *
 * Every ranking in the application sorts `[key, score]` entries with the
 * comparator `(a, b) => b[1] - a[1]`. Since ES2019 `Array.prototype.sort` is
 * stable, so that call is a stable sort by descending score: `SortDesc`.
 */
module JsArray {
  import opened Wrappers

  /** The entries of a JavaScript object: `[key, value]` pairs in insertion order. */
  type Entries<K> = seq<(K, int)>

  /** Scores never increase from left to right. */
  predicate SortedDesc<K>(s: Entries<K>)
  {
    forall i, j :: 0 <= i < j < |s| ==> s[i].1 >= s[j].1
  }

  /** The entries of `s` whose score is `v`, in their order in `s`. */
  function Ties<K>(s: Entries<K>, v: int): (r: Entries<K>)
  {
    if s == [] then []
    else if s[0].1 == v then [s[0]] + Ties(s[1..], v)
    else Ties(s[1..], v)
  }

  /**
   * Puts `x` in front of the first entry whose score is not greater than its own,
   * so that `x` stays in front of the entries it tied with.
   */
  function Insert<K>(x: (K, int), t: Entries<K>): (r: Entries<K>)
    ensures |r| == |t| + 1
    ensures multiset(r) == multiset(t) + multiset{x}
  {
    if t == [] || t[0].1 <= x.1 then [x] + t
    else
      assert t == [t[0]] + t[1..];
      [t[0]] + Insert(x, t[1..])
  }

  lemma {:induction false} InsertSorted<K>(x: (K, int), t: Entries<K>)
    requires SortedDesc(t)
    ensures SortedDesc(Insert(x, t))
  {
    if !(t == [] || t[0].1 <= x.1) {
      var rest := Insert(x, t[1..]);
      InsertSorted(x, t[1..]);
      forall e | e in rest ensures t[0].1 >= e.1 {
        assert e in multiset(rest);
        assert e == x || e in multiset(t[1..]);
      }
    }
  }

  /** `entries.sort((a, b) => b[1] - a[1])`: a stable sort by descending score. */
  function SortDesc<K>(s: Entries<K>): (r: Entries<K>)
    ensures |r| == |s|
    ensures multiset(r) == multiset(s)
    ensures SortedDesc(r)
  {
    if s == [] then []
    else
      assert s == [s[0]] + s[1..];
      InsertSorted(s[0], SortDesc(s[1..]));
      Insert(s[0], SortDesc(s[1..]))
  }

  lemma {:induction false} InsertTies<K>(x: (K, int), t: Entries<K>, v: int)
    ensures Ties(Insert(x, t), v) == if x.1 == v then [x] + Ties(t, v) else Ties(t, v)
  {
    if t == [] || t[0].1 <= x.1 {
      assert ([x] + t)[1..] == t;
    } else {
      InsertTies(x, t[1..], v);
      assert ([t[0]] + Insert(x, t[1..]))[1..] == Insert(x, t[1..]);
    }
  }

  /**
   * Stability: the entries that share one score come out of the sort in the
   * order they went in.
   */
  lemma {:induction false} SortDescStable<K>(s: Entries<K>, v: int)
    ensures Ties(SortDesc(s), v) == Ties(s, v)
  {
    if s != [] {
      SortDescStable(s[1..], v);
      InsertTies(s[0], SortDesc(s[1..]), v);
    }
  }

  /** The first element of a descending sort carries the largest score. */
  lemma SortDescHeadIsMax<K>(s: Entries<K>)
    requires s != []
    ensures forall e :: e in s ==> SortDesc(s)[0].1 >= e.1
  {
    var r := SortDesc(s);
    forall e | e in s ensures r[0].1 >= e.1 {
      assert e in multiset(r);
      var k :| 0 <= k < |r| && r[k] == e;
    }
  }

  /** Sorting an already sorted list leaves it as it is. */
  lemma {:induction false} SortDescOfSorted<K>(s: Entries<K>)
    requires SortedDesc(s)
    ensures SortDesc(s) == s
  {
    if s != [] {
      SortDescOfSorted(s[1..]);
      assert s == [s[0]] + s[1..];
    }
  }

  /** Pointwise image of a sequence under `f`. */
  function Map<A, B>(s: seq<A>, f: A -> B): (r: seq<B>)
    ensures |r| == |s|
    ensures forall i :: 0 <= i < |s| ==> r[i] == f(s[i])
  {
    if s == [] then [] else [f(s[0])] + Map(s[1..], f)
  }

  /** `s.filter(p)`. */
  function Filter<T>(s: seq<T>, p: T -> bool): (r: seq<T>)
    ensures |r| <= |s|
  {
    if s == [] then [] else (if p(s[0]) then [s[0]] else []) + Filter(s[1..], p)
  }

  /** `filter` keeps exactly the elements that pass `p`. */
  lemma {:induction false} FilterMembers<T>(s: seq<T>, p: T -> bool, x: T)
    ensures x in Filter(s, p) <==> x in s && p(x)
  {
    if s != [] {
      FilterMembers(s[1..], p, x);
      assert s == [s[0]] + s[1..];
    }
  }

  /** Filtering distributes over concatenation, so the kept elements keep their order. */
  lemma {:induction false} FilterConcat<T>(s: seq<T>, t: seq<T>, p: T -> bool)
    ensures Filter(s + t, p) == Filter(s, p) + Filter(t, p)
  {
    if s == [] {
      assert s + t == t;
    } else {
      var u := s + t;
      assert u[0] == s[0] && u[1..] == s[1..] + t;
      calc {
        Filter(u, p);
        (if p(s[0]) then [s[0]] else []) + Filter(s[1..] + t, p);
        { FilterConcat(s[1..], t, p); }
        (if p(s[0]) then [s[0]] else []) + (Filter(s[1..], p) + Filter(t, p));
      }
    }
  }

  /** A filter keeps every occurrence of a value it accepts and none of one it rejects. */
  lemma {:induction false} FilterCount<T>(s: seq<T>, p: T -> bool, x: T)
    ensures multiset(Filter(s, p))[x] == if p(x) then multiset(s)[x] else 0
  {
    if s != [] {
      FilterCount(s[1..], p, x);
      assert s == [s[0]] + s[1..];
    }
  }

  /** When every element passes, `filter` returns its input unchanged. */
  lemma {:induction false} FilterAll<T>(s: seq<T>, p: T -> bool)
    requires forall i :: 0 <= i < |s| ==> p(s[i])
    ensures Filter(s, p) == s
  {
    if s != [] {
      FilterAll(s[1..], p);
    }
  }

  /** When no element passes, `filter` returns the empty list. */
  lemma {:induction false} FilterNone<T>(s: seq<T>, p: T -> bool)
    requires forall i :: 0 <= i < |s| ==> !p(s[i])
    ensures Filter(s, p) == []
  {
    if s != [] {
      FilterNone(s[1..], p);
    }
  }

  /** `r` is `s` with some elements left out, the rest in their order. */
  predicate Subsequence<T(==)>(r: seq<T>, s: seq<T>)
  {
    if s == [] then r == []
    else (r != [] && r[0] == s[0] && Subsequence(r[1..], s[1..])) || Subsequence(r, s[1..])
  }

  /** Every list is a subsequence of itself. */
  lemma {:induction false} SubsequenceRefl<T>(s: seq<T>)
    ensures Subsequence(s, s)
  {
    if s != [] {
      SubsequenceRefl(s[1..]);
    }
  }

  /** `filter` keeps the order of what it keeps. */
  lemma {:induction false} FilterSubsequence<T>(s: seq<T>, p: T -> bool)
    ensures Subsequence(Filter(s, p), s)
  {
    if s != [] {
      FilterSubsequence(s[1..], p);
      if p(s[0]) {
        assert Filter(s, p) == [s[0]] + Filter(s[1..], p);
        assert Filter(s, p)[1..] == Filter(s[1..], p);
      } else {
        assert Filter(s, p) == Filter(s[1..], p);
      }
    }
  }

  /** `s.find(p)`: the first element that passes `p`, if any (FindFirst says which one). */
  function Find<T>(s: seq<T>, p: T -> bool): (r: Option<T>)
    ensures r.Some? ==> r.value in s && p(r.value)
    ensures r.None? <==> forall i :: 0 <= i < |s| ==> !p(s[i])
  {
    if s == [] then None
    else if p(s[0]) then Some(s[0])
    else Find(s[1..], p)
  }

  /** `find` returns the element at the first position that passes. */
  lemma {:induction false} FindFirst<T>(s: seq<T>, p: T -> bool, k: int)
    requires 0 <= k < |s| && p(s[k])
    requires forall j :: 0 <= j < k ==> !p(s[j])
    ensures Find(s, p) == Some(s[k])
  {
    if k > 0 {
      assert !p(s[0]);
      forall j | 0 <= j < k - 1 ensures !p(s[1..][j]) {
        assert s[1..][j] == s[j + 1];
      }
      FindFirst(s[1..], p, k - 1);
    }
  }

  /** `find` on a concatenation looks in the second part only when the first has no match. */
  lemma {:induction false} FindConcat<T>(s: seq<T>, t: seq<T>, p: T -> bool)
    ensures Find(s + t, p) == if Find(s, p).Some? then Find(s, p) else Find(t, p)
  {
    if s == [] {
      assert s + t == t;
    } else {
      assert (s + t)[0] == s[0] && (s + t)[1..] == s[1..] + t;
      FindConcat(s[1..], t, p);
    }
  }

  /** `s.slice(0, n)`. */
  function Take<T>(s: seq<T>, n: nat): (r: seq<T>)
    ensures |r| == if |s| < n then |s| else n
    ensures r == s[..|r|]
  {
    if |s| <= n then s else s[..n]
  }

  /** The ties at `v` of a prefix are a prefix of the ties at `v`. */
  lemma {:induction false} TiesPrefix<K>(s: Entries<K>, k: nat, v: int)
    requires k <= |s|
    ensures Ties(s[..k], v) <= Ties(s, v)
  {
    if k > 0 {
      TiesPrefix(s[1..], k - 1, v);
      assert s[..k][1..] == s[1..][..k - 1];
    }
  }

  /** `map` distributes over concatenation. */
  lemma {:induction false} MapConcat<A, B>(s: seq<A>, t: seq<A>, f: A -> B)
    ensures Map(s + t, f) == Map(s, f) + Map(t, f)
  {
  }

  /**
   * `set.add(x)` on an insertion-ordered JavaScript `Set` (or the first
   * assignment of a key in an object), viewed as the list of its elements.
   */
  function AddNew<T(==)>(xs: seq<T>, x: T): (r: seq<T>)
    ensures x in r && xs <= r && |r| <= |xs| + 1
  {
    if x in xs then xs else xs + [x]
  }

  /** `ys.forEach(y => set.add(y))`. */
  function AddAll<T(==)>(xs: seq<T>, ys: seq<T>): seq<T>
    decreases |ys|
  {
    if ys == [] then xs else AddAll(AddNew(xs, ys[0]), ys[1..])
  }

  /** After the adds the set holds what it held and what was added, each once, the old elements first. */
  lemma {:induction false} AddAllFacts<T>(xs: seq<T>, ys: seq<T>)
    requires Distinct(xs)
    ensures Distinct(AddAll(xs, ys))
    ensures xs <= AddAll(xs, ys)
    ensures forall y :: y in AddAll(xs, ys) <==> y in xs || y in ys
    decreases |ys|
  {
    if ys != [] {
      var xs' := AddNew(xs, ys[0]);
      assert Distinct(xs');
      AddAllFacts(xs', ys[1..]);
      assert ys == [ys[0]] + ys[1..];
    }
  }

  /** Adding in two rounds is adding the concatenation. */
  lemma {:induction false} AddAllConcat<T>(xs: seq<T>, a: seq<T>, b: seq<T>)
    ensures AddAll(xs, a + b) == AddAll(AddAll(xs, a), b)
    decreases |a|
  {
    if a == [] {
      assert a + b == b;
    } else {
      assert (a + b)[0] == a[0] && (a + b)[1..] == a[1..] + b;
      AddAllConcat(AddNew(xs, a[0]), a[1..], b);
    }
  }

  /** Adding the same element several times adds it once. */
  lemma {:induction false} AddAllSame<T>(xs: seq<T>, ys: seq<T>, x: T)
    requires |ys| >= 1
    requires forall k :: 0 <= k < |ys| ==> ys[k] == x
    ensures AddAll(xs, ys) == AddNew(xs, x)
    decreases |ys|
  {
    if |ys| > 1 {
      AddAllSame(AddNew(xs, x), ys[1..], x);
    }
  }

  /** No value occurs twice. */
  predicate Distinct<T(==)>(s: seq<T>)
  {
    forall i, j :: 0 <= i < j < |s| ==> s[i] != s[j]
  }

  /** The keys of a list of entries. */
  function Keys<K>(s: Entries<K>): (r: seq<K>)
    ensures |r| == |s|
    ensures forall i :: 0 <= i < |s| ==> r[i] == s[i].0
  {
    Map(s, (e: (K, int)) => e.0)
  }

  /** The first `n` entries of a descending sort: as many as there are up to `n`, in order, each an input entry, the first one the largest. */
  lemma {:induction false} TopOfSort<K>(s: Entries<K>, n: nat)
    ensures |Take(SortDesc(s), n)| == if |s| < n then |s| else n
    ensures SortedDesc(Take(SortDesc(s), n))
    ensures forall e :: e in Take(SortDesc(s), n) ==> e in s
    ensures n > 0 && s != [] ==> forall e :: e in s ==> Take(SortDesc(s), n)[0].1 >= e.1
  {
    var r := SortDesc(s);
    var t := Take(r, n);
    assert t == r[..|t|];
    forall i, j | 0 <= i < j < |t| ensures t[i].1 >= t[j].1 {
      assert t[i] == r[i] && t[j] == r[j];
    }
    forall e | e in t ensures e in s {
      var k :| 0 <= k < |t| && t[k] == e;
      assert r[k] == e;
      assert e in multiset(r);
    }
    if n > 0 && s != [] {
      SortDescHeadIsMax(s);
      assert t[0] == r[0];
    }
  }

  /** A value occurs at most once in a list without repetitions. */
  lemma {:induction false} DistinctCount<T>(s: seq<T>, x: T)
    requires Distinct(s)
    ensures multiset(s)[x] <= 1
  {
    if s != [] {
      assert Distinct(s[1..]);
      DistinctCount(s[1..], x);
      assert s == [s[0]] + s[1..];
      if s[0] == x {
        assert x !in s[1..];
      }
    }
  }

  /** A value at two positions occurs at least twice. */
  lemma {:induction false} TwiceCount<T>(s: seq<T>, i: int, j: int)
    requires 0 <= i < j < |s| && s[i] == s[j]
    ensures multiset(s)[s[i]] >= 2
  {
    assert s == s[..j] + s[j..];
    assert s[i] in s[..j];
    assert s[j] in s[j..];
  }

  /** No two elements of `s` have the same image under `f`. */
  predicate DistinctBy<T, X(==)>(s: seq<T>, f: T -> X)
  {
    forall i, j :: 0 <= i < j < |s| ==> f(s[i]) != f(s[j])
  }

  /** Reordering a list keeps its images under `f` distinct. */
  lemma {:induction false} ReorderDistinctBy<T, X>(s: seq<T>, r: seq<T>, f: T -> X)
    requires multiset(r) == multiset(s) && DistinctBy(s, f)
    ensures DistinctBy(r, f)
  {
    forall i, j | 0 <= i < j < |r| ensures f(r[i]) != f(r[j]) {
      if f(r[i]) == f(r[j]) {
        assert r[i] in multiset(s) && r[j] in multiset(s);
        var a :| 0 <= a < |s| && s[a] == r[i];
        var b :| 0 <= b < |s| && s[b] == r[j];
        assert a == b;
        TwiceCount(r, i, j);
        assert Distinct(s) by {
          forall p, q | 0 <= p < q < |s| ensures s[p] != s[q] {
            assert f(s[p]) != f(s[q]);
          }
        }
        DistinctCount(s, r[i]);
        assert false;
      }
    }
  }

  /** Reordering entries with distinct keys keeps the keys distinct. */
  lemma {:induction false} ReorderKeysDistinct<K>(s: Entries<K>, r: Entries<K>)
    requires multiset(r) == multiset(s) && Distinct(Keys(s))
    ensures Distinct(Keys(r))
  {
    var key := (e: (K, int)) => e.0;
    assert DistinctBy(s, key) by {
      forall i, j | 0 <= i < j < |s| ensures key(s[i]) != key(s[j]) {
        assert Keys(s)[i] != Keys(s)[j];
      }
    }
    ReorderDistinctBy(s, r, key);
    forall i, j | 0 <= i < j < |r| ensures Keys(r)[i] != Keys(r)[j] {
      assert key(r[i]) != key(r[j]);
    }
  }

  /** The top entries of a sort over distinct keys repeat no key. */
  lemma {:induction false} TopOfSortKeysDistinct<K>(s: Entries<K>, n: nat)
    requires Distinct(Keys(s))
    ensures Distinct(Keys(Take(SortDesc(s), n)))
  {
    var r := SortDesc(s);
    ReorderKeysDistinct(s, r);
    var t := Take(r, n);
    forall i, j | 0 <= i < j < |t| ensures t[i].0 != t[j].0 {
      assert t[i] == r[i] && t[j] == r[j];
      assert Keys(r)[i] != Keys(r)[j];
    }
  }

  /** The entries with every key renamed by `f`. */
  function Rename<K, L>(s: Entries<K>, f: K -> L): (r: Entries<L>)
    ensures |r| == |s|
    ensures forall i :: 0 <= i < |s| ==> r[i] == (f(s[i].0), s[i].1)
  {
    if s == [] then [] else [(f(s[0].0), s[0].1)] + Rename(s[1..], f)
  }

  lemma {:induction false} InsertRename<K, L>(x: (K, int), t: Entries<K>, f: K -> L)
    ensures Insert((f(x.0), x.1), Rename(t, f)) == Rename(Insert(x, t), f)
  {
    if t == [] || t[0].1 <= x.1 {
      assert Rename([x] + t, f) == [(f(x.0), x.1)] + Rename(t, f);
    } else {
      InsertRename(x, t[1..], f);
      assert Rename(t, f)[1..] == Rename(t[1..], f);
      assert ([t[0]] + Insert(x, t[1..]))[1..] == Insert(x, t[1..]);
    }
  }

  /** The sort looks only at scores, so renaming keys before or after it gives the same list. */
  lemma {:induction false} SortDescRename<K, L>(s: Entries<K>, f: K -> L)
    ensures SortDesc(Rename(s, f)) == Rename(SortDesc(s), f)
  {
    if s != [] {
      SortDescRename(s[1..], f);
      assert Rename(s, f)[1..] == Rename(s[1..], f);
      InsertRename(s[0], SortDesc(s[1..]), f);
    }
  }

  /** Entries whose scores are strictly decreasing. */
  predicate StrictlyDesc<K>(s: Entries<K>)
  {
    forall i, j :: 0 <= i < j < |s| ==> s[i].1 > s[j].1
  }

  /** With no tied scores, the descending sort is strictly decreasing. */
  lemma {:induction false} SortDescStrict<K>(s: Entries<K>)
    requires DistinctBy(s, (e: (K, int)) => e.1)
    ensures StrictlyDesc(SortDesc(s))
  {
    var r := SortDesc(s);
    ReorderDistinctBy(s, r, (e: (K, int)) => e.1);
  }
}
