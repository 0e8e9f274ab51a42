/**
 * How the four copies of the "top three Holland types" logic relate: the bucket
 * rule of src/utils/processTopGroups.ts, the quiz's literal slice in
 * src/pages/HollandTest.tsx, and the two result views in
 * src/pages/Admin/ResultStep.tsx and src/pages/Admin/StudentResults.tsx.
 * Without ties they all agree; with ties the bucket rule can differ.
 */
module CrossCopies {
  import opened Wrappers
  import opened JsArray
  import opened TestData
  import JsString
  import TopGroupsRule
  import HollandTest
  import ResultStep
  import StudentResults

  function Single(e: (string, int)): TopGroupsRule.Bucket
  {
    TopGroupsRule.Bucket(e.1, [e.0])
  }

  function AsGroup(e: (string, int)): TopGroupsRule.TopGroup
  {
    TopGroupsRule.TopGroup(e.0, e.1)
  }

  function Score<K>(e: (K, int)): int
  {
    e.1
  }

  /** Strictly decreasing scores form one bucket per entry. */
  lemma {:induction false} SingletonBuckets(s: Entries<string>)
    requires StrictlyDesc(s)
    ensures TopGroupsRule.Buckets(s) == Map(s, Single)
    decreases |s|
  {
    if s != [] {
      TopGroupsRule.BucketsStep(s, 1);
      assert StrictlyDesc(s[1..]) by {
        forall i, j | 0 <= i < j < |s[1..]| ensures s[1..][i].1 > s[1..][j].1 {
          assert s[1..][i] == s[i + 1] && s[1..][j] == s[j + 1];
        }
      }
      SingletonBuckets(s[1..]);
      assert Keys(s[..1]) == [s[0].0];
      assert Map(s, Single) == [Single(s[0])] + Map(s[1..], Single);
    }
  }

  /** The bucket walk over one-type buckets takes entries until it holds three. */
  lemma {:induction false} IncludeSingles(t: Entries<string>, included: seq<TopGroupsRule.TopGroup>)
    requires |included| <= 3
    ensures TopGroupsRule.Include(Map(t, Single), included) == included + Map(Take(t, 3 - |included|), AsGroup)
    decreases |t|
  {
    var g := Map(t, Single);
    if t == [] || |included| == 3 {
      assert Take(t, 3 - |included|) == [];
    } else {
      assert g[0].types == [t[0].0];
      assert TopGroupsRule.Expand(g[0]) == [AsGroup(t[0])];
      assert g[1..] == Map(t[1..], Single);
      IncludeSingles(t[1..], included + [AsGroup(t[0])]);
      var n := 3 - |included|;
      var a := Map(Take(t, n), AsGroup);
      var b := Map(Take(t[1..], n - 1), AsGroup);
      assert a == [AsGroup(t[0])] + b by {
        assert |a| == 1 + |b|;
        forall k | 0 <= k < |a| ensures a[k] == ([AsGroup(t[0])] + b)[k] {
          if k > 0 {
            assert Take(t, n)[k] == t[k] == t[1..][k - 1] == Take(t[1..], n - 1)[k - 1];
          }
        }
      }
    }
  }

  /**
   * With no two scores equal, the bucket rule gives exactly the first three
   * entries of the upper-cased, descending sort.
   */
  lemma {:induction false} DistinctScoresTopGroups(hs: Entries<string>)
    requires DistinctBy(hs, Score)
    ensures TopGroupsRule.TopGroups(Some(hs)) == Map(Take(SortDesc(TopGroupsRule.Normalize(hs)), 3), AsGroup)
  {
    var u := TopGroupsRule.Normalize(hs);
    assert DistinctBy(u, Score) by {
      forall i, j | 0 <= i < j < |u| ensures Score(u[i]) != Score(u[j]) {
        assert Score(hs[i]) != Score(hs[j]);
      }
    }
    var s := SortDesc(u);
    SortDescStrict(u);
    assert StrictlyDesc(s);
    SingletonBuckets(s);
    IncludeSingles(s, []);
    assert TopGroupsRule.SortedEntries(Some(hs)) == s;
    if s != [] {
      assert Map(s, Single)[0] == Single(s[0]);
      assert !TopGroupsRule.Degenerate(Map(s, Single));
    }
  }

  /**
   * For a stored score object with upper-case keys and no two equal scores, the
   * card's top three, the table's helper and the bucket rule list the same
   * types with the same scores in the same order.
   */
  lemma {:induction false} ViewsAgreeWithoutTies(hs: Entries<string>)
    requires TopGroupsRule.UpperKeys(hs) && DistinctBy(hs, Score)
    ensures |ResultStep.TopThree(Some(hs))| == |StudentResults.GetTopHollandTypes(hs)| == |TopGroupsRule.TopGroups(Some(hs))|
    ensures forall k :: 0 <= k < |ResultStep.TopThree(Some(hs))| ==>
      ResultStep.TopThree(Some(hs))[k].typ == StudentResults.GetTopHollandTypes(hs)[k].typ == TopGroupsRule.TopGroups(Some(hs))[k].typ &&
      ResultStep.TopThree(Some(hs))[k].score == StudentResults.GetTopHollandTypes(hs)[k].score == TopGroupsRule.TopGroups(Some(hs))[k].score
  {
    DistinctScoresTopGroups(hs);
    TopGroupsRule.NormalizeUpper(hs);
  }

  /** Two result views share their ranking: on every stored object they list the same pairs. */
  lemma {:induction false} ResultViewsAgree(hs: Entries<string>)
    ensures |ResultStep.TopThree(Some(hs))| == |StudentResults.GetTopHollandTypes(hs)|
    ensures forall k :: 0 <= k < |ResultStep.TopThree(Some(hs))| ==>
      ResultStep.TopThree(Some(hs))[k].typ == StudentResults.GetTopHollandTypes(hs)[k].typ &&
      ResultStep.TopThree(Some(hs))[k].score == StudentResults.GetTopHollandTypes(hs)[k].score
  {
  }

  /** With ties the copies part: six zero scores give the views three types and the bucket rule none. */
  lemma {:induction false} CopiesDifferOnTies()
    ensures |StudentResults.GetTopHollandTypes([("R", 0), ("I", 0), ("A", 0), ("S", 0), ("E", 0), ("C", 0)])| == 3
    ensures TopGroupsRule.TopGroups(Some([("R", 0), ("I", 0), ("A", 0), ("S", 0), ("E", 0), ("C", 0)])) == []
  {
    var hs := [("R", 0), ("I", 0), ("A", 0), ("S", 0), ("E", 0), ("C", 0)];
    TopGroupsRule.TopGroupsAllEqual(hs);
  }

  // ---- The quiz ----

  /** No two of the six counters are equal. */
  predicate NoTies(t: HollandTest.Tally)
  {
    forall a: Cat, b: Cat :: a != b ==> HollandTest.Get(t, a) != HollandTest.Get(t, b)
  }

  /** The quiz's counters as a score object keyed by type letter, in key order. */
  function ScoreObject(t: HollandTest.Tally): Entries<string>
  {
    Rename(HollandTest.TallyEntries(t), CatName)
  }

  lemma UpperCatName(c: Cat)
    ensures JsString.Upper(CatName(c)) == CatName(c)
  {
    assert JsString.Upper(CatName(c))[0] == JsString.UpperChar(CatName(c)[0]);
  }

  /** Without equal counters the counter entries have distinct scores. */
  lemma {:induction false} NoTiesDistinct(t: HollandTest.Tally)
    requires NoTies(t)
    ensures DistinctBy(HollandTest.TallyEntries(t), Score)
  {
    var te := HollandTest.TallyEntries(t);
    forall i, j | 0 <= i < j < |te| ensures Score(te[i]) != Score(te[j]) {
      assert Keys(te)[i] != Keys(te)[j];
    }
  }

  /** The bucket rule on type-lettered entries with distinct scores: the first three of their sort. */
  lemma {:induction false} LetteredTopGroups(te: Entries<Cat>)
    requires DistinctBy(te, Score)
    ensures TopGroupsRule.TopGroups(Some(Rename(te, CatName))) == Map(Take(Rename(SortDesc(te), CatName), 3), AsGroup)
  {
    var hs := Rename(te, CatName);
    assert DistinctBy(hs, Score) by {
      forall i, j | 0 <= i < j < |hs| ensures Score(hs[i]) != Score(hs[j]) {
        assert Score(te[i]) != Score(te[j]);
      }
    }
    forall i | 0 <= i < |hs| ensures JsString.Upper(hs[i].0) == hs[i].0 {
      UpperCatName(te[i].0);
    }
    DistinctScoresTopGroups(hs);
    TopGroupsRule.NormalizeUpper(hs);
    SortDescRename(te, CatName);
  }

  /** The bucket rule against a literal top three of type-lettered entries with distinct scores. */
  lemma {:induction false} LetteredAgree(te: Entries<Cat>, head: Entries<Cat>, top: seq<HollandTest.TypeScore>)
    requires DistinctBy(te, Score) && |te| >= 3 && head == Take(SortDesc(te), 3) && |top| == 3
    requires forall k :: 0 <= k < 3 ==> top[k] == HollandTest.TypeScore(head[k].0, head[k].1)
    ensures |TopGroupsRule.TopGroups(Some(Rename(te, CatName)))| == 3
    ensures forall k :: 0 <= k < 3 ==>
      TopGroupsRule.TopGroups(Some(Rename(te, CatName)))[k] == TopGroupsRule.TopGroup(CatName(top[k].typ), top[k].score)
  {
    LetteredTopGroups(te);
    var sorted := SortDesc(te);
    var r := TopGroupsRule.TopGroups(Some(Rename(te, CatName)));
    forall k | 0 <= k < 3 ensures r[k] == TopGroupsRule.TopGroup(CatName(top[k].typ), top[k].score) {
      assert head[k] == sorted[k];
      assert r[k] == AsGroup(Rename(sorted, CatName)[k]);
    }
  }

  /**
   * The quiz's literal top three, with no two counters equal, is exactly what
   * the bucket rule gives for the same counters as a score object.
   */
  lemma {:induction false} QuizAgreesWithBucketRule(t: HollandTest.Tally)
    requires NoTies(t)
    ensures |TopGroupsRule.TopGroups(Some(ScoreObject(t)))| == 3
    ensures forall k :: 0 <= k < 3 ==>
      TopGroupsRule.TopGroups(Some(ScoreObject(t)))[k] ==
      TopGroupsRule.TopGroup(CatName(HollandTest.SortedTypes(t)[k].typ), HollandTest.SortedTypes(t)[k].score)
  {
    NoTiesDistinct(t);
    LetteredAgree(HollandTest.TallyEntries(t), HollandTest.TopEntries(t), HollandTest.SortedTypes(t));
  }
}
