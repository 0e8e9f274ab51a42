/**
 * The admin table of stored test results (src/pages/Admin/StudentResults.tsx):
 * its top-three helper, the Holland badges of each row and the truncated list
 * of recommended majors.
 */
module StudentResults {
  import opened Wrappers
  import opened JsArray
  import opened JsString
  import opened TestData

  /** `{ type, score }`. */
  datatype TopType = TopType(typ: string, score: int)

  /** `([type, score]) => ({ type, score })`. */
  function AsTopType(e: (string, int)): TopType
  {
    TopType(e.0, e.1)
  }

  /** `getTopHollandTypes`: the entries sorted by descending score, cut to three. */
  function GetTopHollandTypes(scores: Entries<string>): (r: seq<TopType>)
    ensures |r| == if |scores| < 3 then |scores| else 3
  {
    Map(Take(SortDesc(scores), 3), AsTopType)
  }

  /** The text of one Holland badge, `{type}: {score}`. */
  function BadgeText(t: TopType): string
  {
    t.typ + ": " + IntToString(t.score)
  }

  /** The Holland badges of a table row: every stored entry, in key order. */
  function RowBadges(hollandScores: Entries<string>): (r: seq<TopType>)
    ensures |r| == |hollandScores|
    ensures forall k :: 0 <= k < |r| ==> r[k] == TopType(hollandScores[k].0, hollandScores[k].1)
  {
    Map(hollandScores, AsTopType)
  }

  /** The badges the "Top Holland" column evidently means: the row's top three. */
  function TopRowBadges(hollandScores: Entries<string>): (r: seq<TopType>)
    ensures |r| <= 3
  {
    GetTopHollandTypes(hollandScores)
  }

  /** The names of the majors shown in a row: the first two. */
  function ShownMajors(majors: seq<Major>): (r: seq<string>)
    ensures |r| == if |majors| < 2 then |majors| else 2
    ensures forall k :: 0 <= k < |r| ==> r[k] == majors[k].name
  {
    Map(Take(majors, 2), (m: Major) => m.name)
  }

  /** The "+n khác" badge: the number of majors not shown, when there are any. */
  function MoreBadge(majors: seq<Major>): (r: Option<int>)
    ensures r.Some? <==> |majors| > 2
  {
    if |majors| > 2 then Some(|majors| - 2) else None
  }

  // ---- The top-three helper ----

  /**
   * `getTopHollandTypes` returns min(3, n) items with non-increasing scores,
   * each a (key, score) pair of the input, the first carrying the largest score.
   */
  lemma {:induction false} TopHollandTypesRanked(scores: Entries<string>)
    ensures |GetTopHollandTypes(scores)| == if |scores| < 3 then |scores| else 3
    ensures forall i, j :: 0 <= i < j < |GetTopHollandTypes(scores)| ==>
      GetTopHollandTypes(scores)[i].score >= GetTopHollandTypes(scores)[j].score
    ensures forall k :: 0 <= k < |GetTopHollandTypes(scores)| ==>
      (GetTopHollandTypes(scores)[k].typ, GetTopHollandTypes(scores)[k].score) in scores
    ensures GetTopHollandTypes(scores) != [] ==>
      forall e :: e in scores ==> GetTopHollandTypes(scores)[0].score >= e.1
  {
    var r := GetTopHollandTypes(scores);
    var t := Take(SortDesc(scores), 3);
    TopOfSort(scores, 3);
    forall k | 0 <= k < |r| ensures (r[k].typ, r[k].score) in scores {
      assert (r[k].typ, r[k].score) == t[k];
      assert t[k] in t;
    }
    forall i, j | 0 <= i < j < |r| ensures r[i].score >= r[j].score {
      assert r[i].score == t[i].1 && r[j].score == t[j].1;
    }
  }

  /** No type appears twice among the top three, since the stored object's keys are distinct. */
  lemma {:induction false} TopHollandTypesDistinct(scores: Entries<string>)
    requires Distinct(Keys(scores))
    ensures forall i, j :: 0 <= i < j < |GetTopHollandTypes(scores)| ==>
      GetTopHollandTypes(scores)[i].typ != GetTopHollandTypes(scores)[j].typ
  {
    var r := GetTopHollandTypes(scores);
    var t := Take(SortDesc(scores), 3);
    TopOfSortKeysDistinct(scores, 3);
    forall i, j | 0 <= i < j < |r| ensures r[i].typ != r[j].typ {
      assert r[i].typ == Keys(t)[i] && r[j].typ == Keys(t)[j];
    }
  }

  // ---- The row ----

  /** Each badge names its type and reads back, after the type and ": ", as its score. */
  lemma {:induction false} BadgeNamesTypeAndScore(t: TopType)
    ensures BadgeText(t)[..|t.typ| + 2] == t.typ + ": "
    ensures ParseInt(BadgeText(t)[|t.typ| + 2..]) == Some(t.score)
  {
    assert BadgeText(t)[|t.typ| + 2..] == IntToString(t.score);
    ParseIntToString(t.score);
  }

  /**
   * The row shows every stored entry, untruncated and unsorted: a row with four
   * entries shows four badges, and the first badge need not carry the largest score.
   */
  lemma RowBadgesUnranked()
    ensures |RowBadges([("R", 1), ("I", 5), ("A", 3), ("S", 0)])| == 4
    ensures RowBadges([("R", 1), ("I", 5), ("A", 3), ("S", 0)])[0].score <
            RowBadges([("R", 1), ("I", 5), ("A", 3), ("S", 0)])[1].score
  {
  }

  /** The row's top three are the ranked entries: never more than three, largest first. */
  lemma {:induction false} TopRowBadgesRanked(hollandScores: Entries<string>)
    ensures |TopRowBadges(hollandScores)| <= 3
    ensures forall i, j :: 0 <= i < j < |TopRowBadges(hollandScores)| ==>
      TopRowBadges(hollandScores)[i].score >= TopRowBadges(hollandScores)[j].score
    ensures TopRowBadges(hollandScores) != [] ==>
      forall e :: e in hollandScores ==> TopRowBadges(hollandScores)[0].score >= e.1
  {
    TopHollandTypesRanked(hollandScores);
  }

  // ---- The majors column ----

  /** The badges account for every major: the names shown plus the "+n" count give the length. */
  lemma {:induction false} MajorBadgesCoverAll(majors: seq<Major>)
    ensures |ShownMajors(majors)| + (if MoreBadge(majors).Some? then MoreBadge(majors).value else 0) == |majors|
    ensures MoreBadge(majors).Some? ==> MoreBadge(majors).value >= 1 && |ShownMajors(majors)| == 2
    ensures MoreBadge(majors).None? ==> ShownMajors(majors) == Map(majors, (m: Major) => m.name)
  {
    if |majors| <= 2 {
      assert Take(majors, 2) == majors;
    }
  }
}
