/**
 * The printable result card of one student (src/pages/Admin/ResultStep.tsx):
 * the stored record fetched for the student becomes the card's personal
 * information and test result, with its own copy of the top-three ranking,
 * the defaults for missing fields, the group label and the score advice.
 */
module ResultStep {
  import opened Wrappers
  import opened JsArray
  import opened JsString
  import opened ScoreAdvice
  import opened TestData

  /** `{ type, score }`: one ranked Holland type on the card. */
  datatype RankedType = RankedType(typ: string, score: int)

  /**
   * The stored student record as the server returns it; the fields the card
   * reads with a default are optional.
   */
  datatype StudentRecord = StudentRecord(
    name: string, className: string, number: string,
    hollandScores: Option<Entries<string>>,
    recommendedMajors: Option<seq<Major>>,
    selectedBlocks: Option<seq<string>>,
    scores: Option<seq<ScoreInput>>,
    recommendationText: Option<string>,
    advice: Option<string>)

  /** The card's personal information; `university` and `major` are fields the header reads. */
  datatype PersonalInfo = PersonalInfo(name: string, className: string, number: string,
                                       university: Option<string>, major: Option<string>)

  /** The card's test result. */
  datatype CardResult = CardResult(
    topThreeTypes: seq<RankedType>,
    compatibleMajors: seq<Major>,
    selectedBlocks: seq<string>,
    scores: seq<ScoreInput>,
    recommendationText: Option<string>,
    advice: Option<string>)

  datatype Card = Card(info: PersonalInfo, result: CardResult)

  /** `([type, score]) => ({ type, score })`. */
  function Ranked(e: (string, int)): RankedType
  {
    RankedType(e.0, e.1)
  }

  /** `Object.entries(s.hollandScores || {})`: a missing object has no entries. */
  function ScoreEntries(h: Option<Entries<string>>): Entries<string>
  {
    match h
    case None => []
    case Some(entries) => entries
  }

  /** The sorted entries, cut to the first three and turned into ranked types. */
  function TopThree(h: Option<Entries<string>>): (r: seq<RankedType>)
    ensures |r| == if |ScoreEntries(h)| < 3 then |ScoreEntries(h)| else 3
  {
    Map(Take(SortDesc(ScoreEntries(h)), 3), Ranked)
  }

  /** `x || []`: a missing list is empty. */
  function OrEmpty<T>(x: Option<seq<T>>): seq<T>
  {
    match x
    case None => []
    case Some(v) => v
  }

  /** The card built from a fetched record. */
  function CardOf(s: StudentRecord): Card
  {
    Card(PersonalInfo(s.name, s.className, s.number, None, None),
         CardResult(TopThree(s.hollandScores), OrEmpty(s.recommendedMajors), OrEmpty(s.selectedBlocks),
                    OrEmpty(s.scores), s.recommendationText, s.advice))
  }

  /** `x || fallback` on a string: a missing or empty text shows the fallback. */
  function OrText(x: Option<string>, fallback: string): (r: string)
    ensures r == fallback || (x.Some? && r == x.value)
    ensures r == fallback <== x.None? || x.value == ""
  {
    if x.Some? && x.value != "" then x.value else fallback
  }

  const NoUniversity := "Chưa chọn"
  const NoMajor := "Chưa nhập"
  const Balanced := "cân bằng"

  /** The header's university label. */
  function UniversityLabel(info: PersonalInfo): string
  {
    OrText(info.university, NoUniversity)
  }

  /** The header's major label. */
  function MajorLabel(info: PersonalInfo): string
  {
    OrText(info.major, NoMajor)
  }

  /** "Bạn thuộc nhóm …": the types joined in rank order, or "cân bằng" for an empty list. */
  function GroupLabel(top: seq<RankedType>): string
  {
    if |top| > 0 then Join(Map(top, (t: RankedType) => t.typ), "") else Balanced
  }

  /** The "Top nhóm Holland" section is shown only for a non-empty list. */
  predicate ShowsHollandSection(top: seq<RankedType>)
  {
    |top| > 0
  }

  /** A text section (analysis or advice) is shown only for a present, non-empty text. */
  predicate ShowsText(x: Option<string>)
  {
    x.Some? && x.value != ""
  }

  /** The score-advice section is shown only when there are score rows. */
  predicate ShowsScoreSection(card: CardResult)
  {
    |card.scores| > 0
  }

  /** The item's badge, `{item.score}/10`. */
  function ScoreBadge(item: RankedType): string
  {
    IntToString(item.score) + "/10"
  }

  /** The advice under each score row, in row order. */
  function ScoreAdvices(card: CardResult): (r: seq<Advice>)
    ensures |r| == |card.scores|
    ensures forall i :: 0 <= i < |r| ==>
      (r[i].NeedsImprovement? <==> card.scores[i].targetScore > card.scores[i].currentScore) &&
      (r[i].TargetMet? <==> card.scores[i].targetScore == card.scores[i].currentScore) &&
      (r[i].Exceeded? <==> card.scores[i].targetScore < card.scores[i].currentScore)
  {
    Map(card.scores, AdviceFor)
  }

  // ---- The ranking ----

  /**
   * The top list holds the first min(3, n) of the n entries, in non-increasing
   * score order; each item is an input entry and the first carries the largest score.
   */
  lemma {:induction false} TopThreeRanked(h: Option<Entries<string>>)
    ensures |TopThree(h)| == if |ScoreEntries(h)| < 3 then |ScoreEntries(h)| else 3
    ensures forall i, j :: 0 <= i < j < |TopThree(h)| ==> TopThree(h)[i].score >= TopThree(h)[j].score
    ensures forall k :: 0 <= k < |TopThree(h)| ==> (TopThree(h)[k].typ, TopThree(h)[k].score) in ScoreEntries(h)
    ensures TopThree(h) != [] ==> forall e :: e in ScoreEntries(h) ==> TopThree(h)[0].score >= e.1
  {
    var s := ScoreEntries(h);
    TopOfSort(s, 3);
    var t := Take(SortDesc(s), 3);
    forall k | 0 <= k < |TopThree(h)| ensures (TopThree(h)[k].typ, TopThree(h)[k].score) in s {
      assert (TopThree(h)[k].typ, TopThree(h)[k].score) == t[k];
      assert t[k] in t;
    }
    forall i, j | 0 <= i < j < |TopThree(h)| ensures TopThree(h)[i].score >= TopThree(h)[j].score {
      assert TopThree(h)[i].score == t[i].1 && TopThree(h)[j].score == t[j].1;
    }
  }

  /** A record without Holland scores ranks nothing; the same holds for an empty score object. */
  lemma MissingScoresRankNothing(s: StudentRecord)
    requires s.hollandScores.None? || s.hollandScores == Some([])
    ensures CardOf(s).result.topThreeTypes == []
    ensures GroupLabel(CardOf(s).result.topThreeTypes) == Balanced
    ensures !ShowsHollandSection(CardOf(s).result.topThreeTypes)
  {
  }

  /** Types with the same score keep the order of the stored object's keys. */
  lemma {:induction false} TopThreeKeepsTieOrder(h: Option<Entries<string>>, v: int)
    ensures Ties(Take(SortDesc(ScoreEntries(h)), 3), v) <= Ties(ScoreEntries(h), v)
  {
    var s := SortDesc(ScoreEntries(h));
    SortDescStable(ScoreEntries(h), v);
    TiesPrefix(s, |Take(s, 3)|, v);
    assert Take(s, 3) == s[..|Take(s, 3)|];
  }

  // ---- Defaults ----

  /** A missing list reads as empty; a present list is carried over unchanged. */
  lemma CardKeepsLists(s: StudentRecord)
    ensures s.recommendedMajors.None? ==> CardOf(s).result.compatibleMajors == []
    ensures s.selectedBlocks.None? ==> CardOf(s).result.selectedBlocks == []
    ensures s.scores.None? ==> CardOf(s).result.scores == [] && !ShowsScoreSection(CardOf(s).result)
    ensures s.recommendedMajors.Some? ==> CardOf(s).result.compatibleMajors == s.recommendedMajors.value
    ensures s.selectedBlocks.Some? ==> CardOf(s).result.selectedBlocks == s.selectedBlocks.value
    ensures s.scores.Some? ==> CardOf(s).result.scores == s.scores.value
  {
  }

  /**
   * The card never copies a university or a desired major, so its header always
   * shows the two fallbacks, while the name, class and number come from the record.
   */
  lemma HeaderShowsFallbacks(s: StudentRecord)
    ensures UniversityLabel(CardOf(s).info) == NoUniversity
    ensures MajorLabel(CardOf(s).info) == NoMajor
    ensures CardOf(s).info.name == s.name && CardOf(s).info.className == s.className
    ensures CardOf(s).info.number == s.number
  {
  }

  /** The analysis and advice sections appear exactly when the record holds a non-empty text for them. */
  lemma TextSectionsFollowRecord(s: StudentRecord)
    ensures ShowsText(CardOf(s).result.recommendationText) <==> s.recommendationText.Some? && s.recommendationText.value != ""
    ensures ShowsText(CardOf(s).result.advice) <==> s.advice.Some? && s.advice.value != ""
  {
  }

  // ---- The label ----

  /** Joining one-letter strings without a separator spells the letters in order. */
  lemma {:induction false} JoinLetters(xs: seq<string>)
    requires forall i :: 0 <= i < |xs| ==> |xs[i]| == 1
    ensures |Join(xs, "")| == |xs|
    ensures forall k :: 0 <= k < |xs| ==> Join(xs, "")[k] == xs[k][0]
  {
    if |xs| >= 2 {
      JoinLetters(xs[1..]);
      assert Join(xs, "") == xs[0] + "" + Join(xs[1..], "");
    }
  }

  /**
   * For one-letter types the label is "cân bằng" exactly when the Holland
   * section is hidden; otherwise it spells the type letters in rank order.
   */
  lemma {:induction false} LabelSpellsTypes(top: seq<RankedType>)
    requires |top| <= 3
    requires forall k :: 0 <= k < |top| ==> |top[k].typ| == 1
    ensures GroupLabel(top) == Balanced <==> !ShowsHollandSection(top)
    ensures ShowsHollandSection(top) ==>
      |GroupLabel(top)| == |top| && forall k :: 0 <= k < |top| ==> GroupLabel(top)[k] == top[k].typ[0]
  {
    if |top| > 0 {
      var xs := Map(top, (t: RankedType) => t.typ);
      JoinLetters(xs);
      assert |GroupLabel(top)| != |Balanced|;
    }
  }

  /**
   * When the stored keys are one-letter types, the card's label is "cân bằng"
   * exactly when the record has no Holland scores.
   */
  lemma {:induction false} RecordLabel(s: StudentRecord)
    requires forall e :: e in ScoreEntries(s.hollandScores) ==> |e.0| == 1
    ensures GroupLabel(CardOf(s).result.topThreeTypes) == Balanced <==> ScoreEntries(s.hollandScores) == []
  {
    var top := CardOf(s).result.topThreeTypes;
    TopThreeRanked(s.hollandScores);
    forall k | 0 <= k < |top| ensures |top[k].typ| == 1 {
      assert (top[k].typ, top[k].score) in ScoreEntries(s.hollandScores);
    }
    LabelSpellsTypes(top);
  }

  /** Each badge reads back, through `parseInt`, as the item's score. */
  lemma {:induction false} BadgeShowsScore(item: RankedType)
    ensures ParseInt(ScoreBadge(item)) == Some(item.score)
    ensures ScoreBadge(item)[|ScoreBadge(item)| - 3..] == "/10"
  {
    ParseIntPrefix(item.score, "/10");
  }

  /** The score section's advice for a record is the three-way gap rule, row by row. */
  lemma {:induction false} RecordAdvice(s: StudentRecord, i: int)
    requires s.scores.Some? && 0 <= i < |s.scores.value|
    ensures ShowsScoreSection(CardOf(s).result)
    ensures ScoreAdvices(CardOf(s).result)[i] == AdviceFor(s.scores.value[i])
  {
  }
}
