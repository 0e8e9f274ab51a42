/**
 * `processTopGroups` (src/utils/processTopGroups.ts): the bucket rule that turns
 * six Holland scores into at most three "top groups".
 *
 * The entries are upper-cased and sorted by descending score; equal scores are
 * gathered into buckets; a top bucket of four or more types yields nothing;
 * otherwise whole buckets are taken, in order, while the total stays at most
 * three. A bucket that does not fit is skipped and the walk goes on, so a later,
 * smaller bucket can still be taken.
 */
module TopGroupsRule {
  import opened Wrappers
  import opened JsArray
  import JsString

  datatype TopGroup = TopGroup(typ: string, score: int)

  /** The types that share one score, in sorted order. */
  datatype Bucket = Bucket(score: int, types: seq<string>)

  /** `[k.toUpperCase(), Number(v)]` for every entry (scores are already integers here). */
  function Normalize(hs: Entries<string>): (r: Entries<string>)
    ensures |r| == |hs|
    ensures forall i :: 0 <= i < |hs| ==> r[i] == (JsString.Upper(hs[i].0), hs[i].1)
  {
    Map(hs, (e: (string, int)) => (JsString.Upper(e.0), e.1))
  }

  /** The sorted entries of `hollandScores || {}`. */
  function SortedEntries(hollandScores: Option<Entries<string>>): Entries<string>
  {
    match hollandScores
    case None => []
    case Some(hs) => SortDesc(Normalize(hs))
  }

  /** How many leading entries of `s` have score `v`. */
  function Run(s: Entries<string>, v: int): (n: nat)
    ensures n <= |s|
  {
    if s == [] || s[0].1 != v then 0 else 1 + Run(s[1..], v)
  }

  /** The buckets of consecutive equal scores, in order. */
  function Buckets(s: Entries<string>): seq<Bucket>
    decreases |s|
  {
    if s == [] then []
    else
      var n := Run(s, s[0].1);
      [Bucket(s[0].1, Keys(s[..n]))] + Buckets(s[n..])
  }

  /** The top groups a bucket contributes: each of its types with the bucket's score. */
  function Expand(b: Bucket): (r: seq<TopGroup>)
    ensures |r| == |b.types|
    ensures forall k :: 0 <= k < |r| ==> r[k] == TopGroup(b.types[k], b.score)
  {
    seq(|b.types|, k requires 0 <= k < |b.types| => TopGroup(b.types[k], b.score))
  }

  /** The walk of lines 29-36: whole buckets are added while the total stays at most 3. */
  function Include(groups: seq<Bucket>, included: seq<TopGroup>): seq<TopGroup>
    decreases |groups|
  {
    if groups == [] || |included| >= 3 then included
    else if |included| + |groups[0].types| <= 3 then Include(groups[1..], included + Expand(groups[0]))
    else Include(groups[1..], included)
  }

  /** The rule of line 25 under which the result is empty. */
  predicate Degenerate(groups: seq<Bucket>)
  {
    groups != [] && (|groups[0].types| >= 4 || (|groups| == 1 && |groups[0].types| == 6))
  }

  /** Keys that are already upper case. */
  predicate UpperKeys(hs: Entries<string>)
  {
    forall i :: 0 <= i < |hs| ==> JsString.Upper(hs[i].0) == hs[i].0
  }

  /** Upper-casing leaves upper-case keys as they are. */
  lemma {:induction false} NormalizeUpper(hs: Entries<string>)
    requires UpperKeys(hs)
    ensures Normalize(hs) == hs
  {
  }

  /** What `processTopGroups(hollandScores)` returns. */
  function TopGroups(hollandScores: Option<Entries<string>>): seq<TopGroup>
  {
    var groups := Buckets(SortedEntries(hollandScores));
    if groups == [] || Degenerate(groups) then [] else Include(groups, [])
  }

  // ---------------------------------------------------------------------------
  // The method, as the source writes it

  lemma {:induction false} RunIs(s: Entries<string>, v: int, n: nat)
    requires n <= |s|
    requires forall k :: 0 <= k < n ==> s[k].1 == v
    requires n == |s| || s[n].1 != v
    ensures Run(s, v) == n
  {
    if n > 0 {
      RunIs(s[1..], v, n - 1);
    }
  }

  lemma {:induction false} BucketsStep(s: Entries<string>, n: nat)
    requires 0 < n <= |s|
    requires forall k :: 0 <= k < n ==> s[k].1 == s[0].1
    requires n == |s| || s[n].1 != s[0].1
    ensures Buckets(s) == [Bucket(s[0].1, Keys(s[..n]))] + Buckets(s[n..])
  {
    RunIs(s, s[0].1, n);
  }

  /** One pass of the outer loop: the run from `start` to `i` is the first bucket of `sorted[start..]`. */
  lemma {:induction false} GroupStep(sorted: Entries<string>, start: nat, i: nat, types: seq<string>)
    requires start < i <= |sorted|
    requires forall k :: start <= k < i ==> sorted[k].1 == sorted[start].1
    requires i == |sorted| || sorted[i].1 != sorted[start].1
    requires |types| == i - start && forall k :: 0 <= k < |types| ==> types[k] == sorted[start + k].0
    ensures Buckets(sorted[start..]) == [Bucket(sorted[start].1, types)] + Buckets(sorted[i..])
  {
    var rest := sorted[start..];
    BucketsStep(rest, i - start);
    assert rest[i - start..] == sorted[i..];
    assert types == Keys(rest[..i - start]);
  }

  /** Lines 10-19: the nested loops that gather equal scores, advancing `i` by hand. */
  method GroupByScore(sorted: Entries<string>) returns (groupsByScore: seq<Bucket>)
    ensures groupsByScore == Buckets(sorted)
  {
    groupsByScore := [];
    var i := 0;
    while i < |sorted|
      invariant 0 <= i <= |sorted|
      invariant groupsByScore + Buckets(sorted[i..]) == Buckets(sorted)
      decreases |sorted| - i
    {
      var score := sorted[i].1;
      var types: seq<string> := [];
      ghost var start := i;
      while i < |sorted| && sorted[i].1 == score
        invariant start <= i <= |sorted|
        invariant |types| == i - start
        invariant forall k :: 0 <= k < |types| ==> types[k] == sorted[start + k].0
        invariant forall k :: start <= k < i ==> sorted[k].1 == score
      {
        types := types + [sorted[i].0];
        i := i + 1;
      }
      GroupStep(sorted, start, i, types);
      groupsByScore := groupsByScore + [Bucket(score, types)];
    }
    assert sorted[i..] == [];
  }

  /** Lines 22-39: the degenerate rule, then the walk that takes whole buckets. */
  method SelectBuckets(groupsByScore: seq<Bucket>) returns (topGroups: seq<TopGroup>)
    ensures topGroups == if groupsByScore == [] || Degenerate(groupsByScore) then [] else Include(groupsByScore, [])
  {
    topGroups := [];
    if |groupsByScore| > 0 {
      var maxBucket := groupsByScore[0];
      if |maxBucket.types| >= 4 || (|groupsByScore| == 1 && |maxBucket.types| == 6) {
        topGroups := [];
      } else {
        var included: seq<TopGroup> := [];
        var bi := 0;
        while bi < |groupsByScore| && |included| < 3
          invariant 0 <= bi <= |groupsByScore|
          invariant Include(groupsByScore[bi..], included) == Include(groupsByScore, [])
        {
          var bucket := groupsByScore[bi];
          assert groupsByScore[bi..][1..] == groupsByScore[bi + 1..];
          if |included| + |bucket.types| <= 3 {
            ghost var before := included;
            var k := 0;
            while k < |bucket.types|
              invariant 0 <= k <= |bucket.types|
              invariant included == before + Expand(Bucket(bucket.score, bucket.types[..k]))
            {
              included := included + [TopGroup(bucket.types[k], bucket.score)];
              k := k + 1;
            }
            assert bucket.types[..k] == bucket.types;
          }
          bi := bi + 1;
        }
        assert bi == |groupsByScore| ==> groupsByScore[bi..] == [];
        topGroups := included;
      }
    }
  }

  method ProcessTopGroups(hollandScores: Option<Entries<string>>) returns (topGroups: seq<TopGroup>)
    ensures topGroups == TopGroups(hollandScores)
    ensures |topGroups| <= 3
  {
    var sorted := SortedEntries(hollandScores);
    var groupsByScore := GroupByScore(sorted);
    topGroups := SelectBuckets(groupsByScore);
    TopGroupsAtMostThree(hollandScores);
  }

  // ---------------------------------------------------------------------------
  // Properties of the rule

  lemma {:induction false} IncludeAtMostThree(groups: seq<Bucket>, included: seq<TopGroup>)
    requires |included| <= 3
    ensures |Include(groups, included)| <= 3
  {
    if groups != [] && |included| < 3 {
      if |included| + |groups[0].types| <= 3 {
        IncludeAtMostThree(groups[1..], included + Expand(groups[0]));
      } else {
        IncludeAtMostThree(groups[1..], included);
      }
    }
  }

  /** The result never has more than three entries. */
  lemma {:induction false} TopGroupsAtMostThree(hollandScores: Option<Entries<string>>)
    ensures |TopGroups(hollandScores)| <= 3
  {
    IncludeAtMostThree(Buckets(SortedEntries(hollandScores)), []);
  }

  // Buckets partition the sorted entries into maximal runs of one score

  /** The entries a list of buckets stands for, bucket after bucket. */
  function Members(groups: seq<Bucket>): Entries<string>
  {
    if groups == [] then [] else Pairs(groups[0]) + Members(groups[1..])
  }

  function Pairs(b: Bucket): (r: Entries<string>)
    ensures |r| == |b.types|
    ensures forall k :: 0 <= k < |r| ==> r[k] == (b.types[k], b.score)
  {
    seq(|b.types|, k requires 0 <= k < |b.types| => (b.types[k], b.score))
  }

  lemma {:induction false} RunFacts(s: Entries<string>, v: int)
    ensures forall k :: 0 <= k < Run(s, v) ==> s[k].1 == v
    ensures Run(s, v) < |s| ==> s[Run(s, v)].1 != v
  {
    if s != [] && s[0].1 == v {
      RunFacts(s[1..], v);
    }
  }

  /** Reading the buckets back in order gives the entries. */
  lemma {:induction false} BucketsMembers(s: Entries<string>)
    ensures Members(Buckets(s)) == s
    decreases |s|
  {
    if s != [] {
      var n := Run(s, s[0].1);
      BucketsUnfold(s);
      BucketsMembers(s[n..]);
      assert Pairs(Bucket(s[0].1, Keys(s[..n]))) == s[..n] by {
        RunFacts(s, s[0].1);
      }
      assert s[..n] + s[n..] == s;
    }
  }

  /** Every bucket holds at least one type. */
  lemma {:induction false} BucketsNonEmpty(s: Entries<string>)
    ensures forall k :: 0 <= k < |Buckets(s)| ==> |Buckets(s)[k].types| >= 1
    decreases |s|
  {
    if s != [] {
      var n := Run(s, s[0].1);
      BucketsUnfold(s);
      BucketsNonEmpty(s[n..]);
      forall k | 0 < k < |Buckets(s)| ensures |Buckets(s)[k].types| >= 1 {
        assert Buckets(s)[k] == Buckets(s[n..])[k - 1];
      }
    }
  }

  /** Every bucket is non-empty, and reading the buckets back in order gives the entries. */
  lemma {:induction false} BucketsPartition(s: Entries<string>)
    ensures Members(Buckets(s)) == s
    ensures forall k :: 0 <= k < |Buckets(s)| ==> |Buckets(s)[k].types| >= 1
  {
    BucketsMembers(s);
    BucketsNonEmpty(s);
  }

  predicate Decreasing(groups: seq<Bucket>)
  {
    forall i, j :: 0 <= i < j < |groups| ==> groups[i].score > groups[j].score
  }

  lemma {:induction false} TiesAll(s: Entries<string>, v: int)
    requires forall k :: 0 <= k < |s| ==> s[k].1 == v
    ensures Ties(s, v) == s
  {
    if s != [] {
      TiesAll(s[1..], v);
    }
  }

  lemma {:induction false} TiesNone(s: Entries<string>, v: int)
    requires forall k :: 0 <= k < |s| ==> s[k].1 != v
    ensures Ties(s, v) == []
  {
    if s != [] {
      TiesNone(s[1..], v);
    }
  }

  lemma {:induction false} TiesConcat(a: Entries<string>, b: Entries<string>, v: int)
    ensures Ties(a + b, v) == Ties(a, v) + Ties(b, v)
  {
    if a == [] {
      assert a + b == b;
    } else {
      TiesConcat(a[1..], b, v);
      assert (a + b)[0] == a[0] && (a + b)[1..] == a[1..] + b;
    }
  }

  /** The first bucket of `s` carries the first score; the rest are the buckets after its run. */
  lemma {:induction false} BucketsUnfold(s: Entries<string>)
    requires s != []
    ensures Run(s, s[0].1) >= 1
    ensures Buckets(s) != [] && Buckets(s)[0] == Bucket(s[0].1, Keys(s[..Run(s, s[0].1)]))
    ensures Buckets(s)[1..] == Buckets(s[Run(s, s[0].1)..])
  {
  }

  /** After the first run of a sorted list, every score is lower. */
  lemma {:induction false} AfterRunLower(s: Entries<string>)
    requires SortedDesc(s) && s != []
    ensures forall k :: Run(s, s[0].1) <= k < |s| ==> s[k].1 < s[0].1
  {
    var n := Run(s, s[0].1);
    RunFacts(s, s[0].1);
    forall k | n <= k < |s| ensures s[k].1 < s[0].1 {
      assert s[k].1 <= s[n].1;
    }
  }

  /** On sorted entries the bucket scores strictly decrease, starting from the first score. */
  lemma {:induction false} BucketsSorted(s: Entries<string>)
    requires SortedDesc(s)
    ensures Decreasing(Buckets(s))
    ensures s != [] ==> Buckets(s)[0].score == s[0].1
    decreases |s|
  {
    if s != [] {
      BucketsUnfold(s);
      AfterRunLower(s);
      var n := Run(s, s[0].1);
      var t := s[n..];
      var g := Buckets(s);
      var g' := Buckets(t);
      BucketsSorted(t);
      forall i, j | 0 <= i < j < |g| ensures g[i].score > g[j].score {
        assert g[j] == g'[j - 1];
        if i > 0 {
          assert g[i] == g'[i - 1];
        } else {
          assert g'[0].score == t[0].1 < s[0].1;
        }
      }
    }
  }

  /** The leading run of score `v` is where `Ties(s, v)` starts. */
  lemma {:induction false} TiesRun(s: Entries<string>, v: int)
    ensures Ties(s, v) == s[..Run(s, v)] + Ties(s[Run(s, v)..], v)
  {
    if s != [] && s[0].1 == v {
      TiesRun(s[1..], v);
      assert s[1..][Run(s[1..], v)..] == s[Run(s, v)..];
      assert s[..Run(s, v)] == [s[0]] + s[1..][..Run(s[1..], v)];
    }
  }

  /** Entries of any other score are unaffected by dropping the leading run of `v`. */
  lemma {:induction false} TiesSkipRun(s: Entries<string>, v: int, w: int)
    requires w != v
    ensures Ties(s, w) == Ties(s[Run(s, v)..], w)
  {
    if s != [] && s[0].1 == v {
      TiesSkipRun(s[1..], v, w);
      assert s[1..][Run(s[1..], v)..] == s[Run(s, v)..];
    }
  }

  /** On sorted entries each bucket holds every entry of its score, in order. */
  lemma {:induction false} BucketsTies(s: Entries<string>)
    requires SortedDesc(s)
    ensures forall k :: 0 <= k < |Buckets(s)| ==> Buckets(s)[k].types == Keys(Ties(s, Buckets(s)[k].score))
    decreases |s|
  {
    if s != [] {
      var v := s[0].1;
      var n := Run(s, v);
      var t := s[n..];
      var g := Buckets(s);
      BucketsUnfold(s);
      assert SortedDesc(t);
      BucketsTies(t);
      BucketsSorted(s);
      forall k | 0 <= k < |g| ensures g[k].types == Keys(Ties(s, g[k].score)) {
        if k == 0 {
          AfterRunLower(s);
          TiesRun(s, v);
          TiesNone(t, v);
          assert Ties(s, v) == s[..n] + [];
        } else {
          assert g[k] == Buckets(t)[k - 1];
          TiesSkipRun(s, v, g[k].score);
        }
      }
    }
  }

  // The walk takes whole buckets, in order

  predicate NonIncreasing(r: seq<TopGroup>)
  {
    forall i, j :: 0 <= i < j < |r| ==> r[i].score >= r[j].score
  }

  /** Every score chosen so far is higher than every score still to come. */
  predicate Above(included: seq<TopGroup>, groups: seq<Bucket>)
  {
    forall i, j :: 0 <= i < |included| && 0 <= j < |groups| ==> included[i].score > groups[j].score
  }

  /** Bucket `b` is taken whole: each of its types appears with its score. */
  predicate WhollyIn(b: Bucket, r: seq<TopGroup>)
  {
    forall k :: 0 <= k < |b.types| ==> TopGroup(b.types[k], b.score) in r
  }

  /** Bucket `b` is left out whole: no entry of its score appears. */
  predicate WhollyOut(b: Bucket, r: seq<TopGroup>)
  {
    forall i :: 0 <= i < |r| ==> r[i].score != b.score
  }

  /** Each result entry was chosen before the walk or comes from one of the buckets. */
  lemma {:induction false} IncludeFrom(groups: seq<Bucket>, included: seq<TopGroup>)
    ensures included <= Include(groups, included)
    ensures forall x :: x in Include(groups, included) ==>
      x in included || exists j :: 0 <= j < |groups| && x in Expand(groups[j])
    decreases |groups|
  {
    if groups != [] && |included| < 3 {
      var next := if |included| + |groups[0].types| <= 3 then included + Expand(groups[0]) else included;
      IncludeFrom(groups[1..], next);
      forall x | x in Include(groups, included)
        ensures x in included || exists j :: 0 <= j < |groups| && x in Expand(groups[j])
      {
        if x !in next {
          var j :| 0 <= j < |groups[1..]| && x in Expand(groups[1..][j]);
          assert groups[1..][j] == groups[j + 1];
        } else if x !in included {
          assert x in Expand(groups[0]);
        }
      }
    }
  }

  lemma {:induction false} IncludeOrdered(groups: seq<Bucket>, included: seq<TopGroup>)
    requires Decreasing(groups) && NonIncreasing(included) && Above(included, groups)
    ensures NonIncreasing(Include(groups, included))
    decreases |groups|
  {
    if groups != [] && |included| < 3 {
      if |included| + |groups[0].types| <= 3 {
        IncludeOrdered(groups[1..], included + Expand(groups[0]));
      } else {
        IncludeOrdered(groups[1..], included);
      }
    }
  }

  /** Bucket atomicity: each bucket is wholly in the result or wholly absent. */
  lemma {:induction false} IncludeAtomic(groups: seq<Bucket>, included: seq<TopGroup>)
    requires Decreasing(groups) && Above(included, groups)
    ensures forall k :: 0 <= k < |groups| ==>
      WhollyIn(groups[k], Include(groups, included)) || WhollyOut(groups[k], Include(groups, included))
    decreases |groups|
  {
    var r := Include(groups, included);
    if groups != [] && |included| < 3 {
      var take := |included| + |groups[0].types| <= 3;
      var next := if take then included + Expand(groups[0]) else included;
      assert Above(next, groups[1..]);
      IncludeAtomic(groups[1..], next);
      IncludeFrom(groups[1..], next);
      forall k | 0 <= k < |groups| ensures WhollyIn(groups[k], r) || WhollyOut(groups[k], r) {
        if k > 0 {
          assert groups[1..][k - 1] == groups[k];
        } else if take {
          assert forall i :: 0 <= i < |groups[0].types| ==> TopGroup(groups[0].types[i], groups[0].score) in next;
        } else {
          forall i | 0 <= i < |r| ensures r[i].score != groups[0].score {
            var x := r[i];
            if x !in included {
              var j :| 0 <= j < |groups[1..]| && x in Expand(groups[1..][j]);
              assert x.score == groups[j + 1].score;
            }
          }
        }
      }
    }
  }

  // The rule, stated on the input

  lemma {:induction false} NormalizeTies(hs: Entries<string>, v: int)
    ensures |Ties(Normalize(hs), v)| == |Ties(hs, v)|
  {
    if hs != [] {
      NormalizeTies(hs[1..], v);
      assert Normalize(hs)[1..] == Normalize(hs[1..]);
    }
  }

  /** The buckets of the sorted input, with the facts the rule relies on. */
  lemma {:induction false} SortedBuckets(hs: Entries<string>)
    ensures Decreasing(Buckets(SortedEntries(Some(hs))))
    ensures Members(Buckets(SortedEntries(Some(hs)))) == SortDesc(Normalize(hs))
    ensures forall k :: 0 <= k < |Buckets(SortedEntries(Some(hs)))| ==> |Buckets(SortedEntries(Some(hs)))[k].types| >= 1
  {
    BucketsSorted(SortDesc(Normalize(hs)));
    BucketsPartition(SortDesc(Normalize(hs)));
  }

  /** Result scores never increase. */
  lemma {:induction false} TopGroupsOrdered(hollandScores: Option<Entries<string>>)
    ensures NonIncreasing(TopGroups(hollandScores))
  {
    if hollandScores.Some? {
      SortedBuckets(hollandScores.value);
      IncludeOrdered(Buckets(SortedEntries(hollandScores)), []);
    }
  }

  /** Bucket atomicity on the input: every bucket is wholly taken or wholly left out. */
  lemma {:induction false} TopGroupsAtomic(hollandScores: Option<Entries<string>>)
    ensures forall k :: 0 <= k < |Buckets(SortedEntries(hollandScores))| ==>
      WhollyIn(Buckets(SortedEntries(hollandScores))[k], TopGroups(hollandScores)) ||
      WhollyOut(Buckets(SortedEntries(hollandScores))[k], TopGroups(hollandScores))
  {
    var g := Buckets(SortedEntries(hollandScores));
    if hollandScores.Some? {
      SortedBuckets(hollandScores.value);
      IncludeAtomic(g, []);
    }
  }

  /** An entry of the sorted list is an input entry with its key upper-cased. */
  lemma {:induction false} SortedFromInput(hs: Entries<string>, e: (string, int))
    requires e in SortDesc(Normalize(hs))
    ensures exists i :: 0 <= i < |hs| && e == (JsString.Upper(hs[i].0), hs[i].1)
  {
    assert e in multiset(Normalize(hs));
    var i :| 0 <= i < |hs| && Normalize(hs)[i] == e;
  }

  /** An entry of a bucket of the sorted input is an input key, upper-cased, with its score. */
  lemma {:induction false} BucketEntryFromInput(hs: Entries<string>, g: seq<Bucket>, j: nat, x: TopGroup)
    requires Members(g) == SortDesc(Normalize(hs))
    requires j < |g| && x in Expand(g[j])
    ensures exists i :: 0 <= i < |hs| && x == TopGroup(JsString.Upper(hs[i].0), hs[i].1)
  {
    var k :| 0 <= k < |g[j].types| && x == TopGroup(g[j].types[k], g[j].score);
    MembersHas(g, j, k);
    SortedFromInput(hs, (x.typ, x.score));
  }

  /** Each result entry is an input key, upper-cased, with its score. */
  lemma {:induction false} TopGroupsFromInput(hs: Entries<string>)
    ensures forall x :: x in TopGroups(Some(hs)) ==>
      exists i :: 0 <= i < |hs| && x == TopGroup(JsString.Upper(hs[i].0), hs[i].1)
  {
    var g := Buckets(SortedEntries(Some(hs)));
    SortedBuckets(hs);
    IncludeFrom(g, []);
    forall x | x in TopGroups(Some(hs))
      ensures exists i :: 0 <= i < |hs| && x == TopGroup(JsString.Upper(hs[i].0), hs[i].1)
    {
      var j :| 0 <= j < |g| && x in Expand(g[j]);
      BucketEntryFromInput(hs, g, j, x);
    }
  }

  lemma {:induction false} MembersHas(g: seq<Bucket>, j: nat, k: nat)
    requires j < |g| && k < |g[j].types|
    ensures (g[j].types[k], g[j].score) in Members(g)
  {
    if j == 0 {
      assert Pairs(g[0])[k] == (g[0].types[k], g[0].score);
    } else {
      MembersHas(g[1..], j - 1, k);
      assert g[1..][j - 1] == g[j];
    }
  }

  /** With `m` the highest input score, the sorted list starts with an `m` entry. */
  lemma {:induction false} SortedHeadIsTop(hs: Entries<string>, m: int)
    requires forall i :: 0 <= i < |hs| ==> hs[i].1 <= m
    requires exists i :: 0 <= i < |hs| && hs[i].1 == m
    ensures SortDesc(Normalize(hs)) != [] && SortDesc(Normalize(hs))[0].1 == m
  {
    var n := Normalize(hs);
    var s := SortDesc(n);
    var i0 :| 0 <= i0 < |hs| && hs[i0].1 == m;
    assert n[i0] in multiset(s);
    var p :| 0 <= p < |s| && s[p] == n[i0];
    assert s[0] in multiset(n);
    var q :| 0 <= q < |n| && n[q] == s[0];
  }

  /** The first bucket holds the `m` entries, keys upper-cased, in input order. */
  lemma {:induction false} TopBucketIsTies(hs: Entries<string>, m: int)
    requires SortDesc(Normalize(hs)) != [] && SortDesc(Normalize(hs))[0].1 == m
    ensures Buckets(SortedEntries(Some(hs))) != []
    ensures Buckets(SortedEntries(Some(hs)))[0] == Bucket(m, Keys(Ties(Normalize(hs), m)))
    ensures |Keys(Ties(Normalize(hs), m))| == |Ties(hs, m)|
  {
    var s := SortDesc(Normalize(hs));
    BucketsSorted(s);
    BucketsTies(s);
    SortDescStable(Normalize(hs), m);
    NormalizeTies(hs, m);
  }

  /** The rule on the buckets: a top bucket of four or more gives nothing, a smaller one is taken whole. */
  lemma {:induction false} RuleOnTopBucket(g: seq<Bucket>)
    requires g != [] && |g[0].types| >= 1
    ensures (if Degenerate(g) then [] else Include(g, [])) == [] <==> |g[0].types| >= 4
    ensures |g[0].types| <= 3 ==>
      Expand(g[0]) <= (if Degenerate(g) then [] else Include(g, []))
  {
    if |g[0].types| <= 3 {
      assert !Degenerate(g);
      var none: seq<TopGroup> := [];
      assert none + Expand(g[0]) == Expand(g[0]);
      assert Include(g, none) == Include(g[1..], Expand(g[0]));
      IncludeFrom(g[1..], Expand(g[0]));
    }
  }

  /**
   * With `m` the highest input score: the result is empty exactly when four or
   * more entries score `m`; otherwise it begins with all of them, in input order,
   * so its first score is `m`.
   */
  lemma {:induction false} TopGroupsTopBucket(hs: Entries<string>, m: int)
    requires forall i :: 0 <= i < |hs| ==> hs[i].1 <= m
    requires exists i :: 0 <= i < |hs| && hs[i].1 == m
    ensures TopGroups(Some(hs)) == [] <==> |Ties(hs, m)| >= 4
    ensures |Ties(hs, m)| <= 3 ==>
      Expand(Bucket(m, Keys(Ties(Normalize(hs), m)))) <= TopGroups(Some(hs)) &&
      TopGroups(Some(hs))[0].score == m
  {
    SortedHeadIsTop(hs, m);
    TopBucketIsTies(hs, m);
    var g := Buckets(SortedEntries(Some(hs)));
    assert TopGroups(Some(hs)) == if Degenerate(g) then [] else Include(g, []);
    RuleOnTopBucket(g);
    if |g[0].types| <= 3 {
      assert Expand(g[0])[0] == TopGroup(g[0].types[0], m);
    }
  }

  /** Four or more equal scores (all six zero, say) leave nothing to report. */
  lemma {:induction false} TopGroupsAllEqual(hs: Entries<string>)
    requires |hs| >= 4
    requires forall i :: 0 <= i < |hs| ==> hs[i].1 == hs[0].1
    ensures TopGroups(Some(hs)) == []
  {
    TiesAll(hs, hs[0].1);
    TopGroupsTopBucket(hs, hs[0].1);
  }

  /** Scores hs[0] > hs[1] = hs[2] = hs[3] > hs[4] > hs[5]: a top entry, a tie of three, then two singles. */
  predicate SkipShape(hs: Entries<string>)
  {
    |hs| == 6 && hs[0].1 > hs[1].1 && hs[2].1 == hs[1].1 && hs[3].1 == hs[1].1 && hs[1].1 > hs[4].1 > hs[5].1
  }

  /** The four buckets of such entries. */
  lemma {:induction false} BucketsOfSkipShape(hs: Entries<string>)
    requires SkipShape(hs)
    ensures Buckets(hs) == [Bucket(hs[0].1, [hs[0].0]), Bucket(hs[1].1, [hs[1].0, hs[2].0, hs[3].0]),
                            Bucket(hs[4].1, [hs[4].0]), Bucket(hs[5].1, [hs[5].0])]
  {
    assert Buckets(hs[5..]) == [Bucket(hs[5].1, [hs[5].0])] by {
      BucketsStep(hs[5..], 1);
      assert hs[5..][1..] == [];
      assert Keys(hs[5..][..1]) == [hs[5].0];
    }
    assert Buckets(hs[4..]) == [Bucket(hs[4].1, [hs[4].0])] + Buckets(hs[5..]) by {
      BucketsStep(hs[4..], 1);
      assert hs[4..][1..] == hs[5..];
      assert Keys(hs[4..][..1]) == [hs[4].0];
    }
    assert Buckets(hs[1..]) == [Bucket(hs[1].1, [hs[1].0, hs[2].0, hs[3].0])] + Buckets(hs[4..]) by {
      BucketsStep(hs[1..], 3);
      assert hs[1..][3..] == hs[4..];
      assert Keys(hs[1..][..3]) == [hs[1].0, hs[2].0, hs[3].0];
    }
    BucketsStep(hs, 1);
    assert Keys(hs[..1]) == [hs[0].0];
  }

  /** The walk over those buckets takes the first, skips the tie of three, and takes the last two. */
  lemma {:induction false} WalkOfSkipShape(g: seq<Bucket>)
    requires |g| == 4 && |g[0].types| == 1 && |g[1].types| == 3 && |g[2].types| == 1 && |g[3].types| == 1
    ensures Include(g, []) ==
      [TopGroup(g[0].types[0], g[0].score), TopGroup(g[2].types[0], g[2].score), TopGroup(g[3].types[0], g[3].score)]
  {
    var one := [TopGroup(g[0].types[0], g[0].score)];
    var two := one + [TopGroup(g[2].types[0], g[2].score)];
    var none: seq<TopGroup> := [];
    assert none + Expand(g[0]) == one;
    assert Include(g, none) == Include(g[1..], one);
    assert g[1..][1..] == g[2..];
    assert Include(g[1..], one) == Include(g[2..], one);
    assert g[2..][0] == g[2] && g[2..][1..] == g[3..];
    assert Expand(g[2]) == [TopGroup(g[2].types[0], g[2].score)];
    assert Include(g[2..], one) == Include(g[3..], two);
    assert g[3..][0] == g[3] && g[3..][1..] == g[4..];
    assert Expand(g[3]) == [TopGroup(g[3].types[0], g[3].score)];
    assert Include(g[3..], two) == Include(g[4..], two + [TopGroup(g[3].types[0], g[3].score)]);
  }

  /**
   * Under upper-case keys and scores hs[0] > hs[1] = hs[2] = hs[3] > hs[4] > hs[5],
   * the tie of three does not fit beside the top entry and is skipped, and the
   * walk goes on to take hs[4] and hs[5].
   */
  lemma {:induction false} SkipShapeTopGroups(hs: Entries<string>)
    requires UpperKeys(hs) && SkipShape(hs)
    ensures TopGroups(Some(hs)) == [TopGroup(hs[0].0, hs[0].1), TopGroup(hs[4].0, hs[4].1), TopGroup(hs[5].0, hs[5].1)]
  {
    assert SortedEntries(Some(hs)) == hs by {
      NormalizeUpper(hs);
      assert SortedDesc(hs);
      SortDescOfSorted(hs);
    }
    BucketsOfSkipShape(hs);
    WalkOfSkipShape(Buckets(hs));
  }

  /**
   * A bucket that does not fit is skipped and the walk continues: with R:9,
   * I=A=S:5, E:1, C:0 the three-way tie is dropped but E and C are taken.
   */
  lemma {:induction false} SkippedBucketDoesNotStopTheWalk()
    ensures TopGroups(Some([("R", 9), ("I", 5), ("A", 5), ("S", 5), ("E", 1), ("C", 0)])) ==
      [TopGroup("R", 9), TopGroup("E", 1), TopGroup("C", 0)]
  {
    var hs := [("R", 9), ("I", 5), ("A", 5), ("S", 5), ("E", 1), ("C", 0)];
    assert JsString.Upper("R") == "R" && JsString.Upper("I") == "I" && JsString.Upper("A") == "A";
    assert JsString.Upper("S") == "S" && JsString.Upper("E") == "E" && JsString.Upper("C") == "C";
    SkipShapeTopGroups(hs);
  }

  /** No scores (a missing object or an empty one) give no top groups. */
  lemma {:induction false} TopGroupsOfNothing()
    ensures TopGroups(None) == []
    ensures TopGroups(Some([])) == []
  {
  }
}
