/**
 * The score rows of the quiz and the advice both result views give for each
 * row (src/pages/HollandTest.tsx and src/pages/Admin/ResultStep.tsx): the gap
 * `targetScore - currentScore` falls into exactly one of three classes.
 */
module ScoreAdvice {

  /** `ScoreInput`: one subject with the student's current and target marks. */
  datatype ScoreInput = ScoreInput(subject: string, currentScore: real, targetScore: real)

  /** "Cần cải thiện: +gap", "Đã đạt mục tiêu" and "Vượt mục tiêu". */
  datatype Advice = NeedsImprovement(gap: real) | TargetMet | Exceeded

  /** The advice shown for a score row. */
  function AdviceFor(score: ScoreInput): (r: Advice)
    ensures r.NeedsImprovement? <==> score.targetScore > score.currentScore
    ensures r.TargetMet? <==> score.targetScore == score.currentScore
    ensures r.Exceeded? <==> score.targetScore < score.currentScore
    ensures r.NeedsImprovement? ==> r.gap > 0.0 && score.currentScore + r.gap == score.targetScore
  {
    var gap := score.targetScore - score.currentScore;
    if gap > 0.0 then NeedsImprovement(gap) else if gap == 0.0 then TargetMet else Exceeded
  }

  /** Improving by the advised amount meets the target. */
  lemma {:induction false} AdvisedImprovementMeetsTarget(score: ScoreInput)
    requires AdviceFor(score).NeedsImprovement?
    ensures AdviceFor(ScoreInput(score.subject, score.currentScore + AdviceFor(score).gap, score.targetScore)) == TargetMet
  {
  }
}
