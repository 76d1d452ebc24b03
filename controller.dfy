/**
 * The assessment component: the five state fields it updates in place and
 * the handlers that update them. Each handler is one atomic update, and
 * its new state is the one the Assessment state machine prescribes.
 */
module Controller {
  import opened Scoring
  import opened Assessment

  class IndustryAssessmentTool {
    const content: Content
    var stage: Stage
    var answers: Answers
    var industryLevel: Option<int>
    var progress: real
    var detailedScores: Answers

    /** The fields as one state-machine value. */
    ghost function AsState(): State
      reads this
    {
      State(stage, answers, industryLevel, progress, detailedScores)
    }

    ghost predicate Valid()
      reads this
    {
      content.Valid() && Inv(AsState())
    }

    /** Mounting the component: every field at its default. */
    constructor (content: Content)
      requires content.Valid()
      ensures Valid() && this.content == content
      ensures stage == Initial && answers == map[] && industryLevel == None
      ensures progress == 0.0 && detailedScores == map[]
    {
      this.content := content;
      stage := Initial;
      answers := map[];
      industryLevel := None;
      progress := 0.0;
      detailedScores := map[];
    }

    /** Selecting an option: upsert the score under the question's index. */
    method HandleAnswer(questionIndex: nat, score: int)
      requires Valid()
      modifies this
      ensures Valid()
      ensures answers == old(answers)[questionIndex := score]
      ensures stage == old(stage) && industryLevel == old(industryLevel)
      ensures progress == old(progress) && detailedScores == old(detailedScores)
      ensures AsState() == Step(content, old(AsState()), Choose(questionIndex, score))
    {
      answers := answers[questionIndex := score];
    }

    /** The level the recorded answers give, from their average. */
    method CalculateIndustryLevel() returns (level: int)
      ensures IsLevel(level)
      ensures |answers| > 0 ==> (level == 2 <==> 2 * Total(answers) <= 5 * |answers|)
      ensures |answers| > 0 ==> (level == 3 <==> 5 * |answers| < 2 * Total(answers) <= 7 * |answers|)
      ensures level == IndustryLevelOf(answers)
    {
      var totalScore := SumScores(answers);
      level := Classify(totalScore, |answers|);
    }

    /**
     * Pressing the submit button: from the initial stage, move to the
     * detailed stage of the computed level with no answers; from an
     * industry stage, record progress and the answers and show the result;
     * in the result stage, nothing.
     */
    method HandleSubmit()
      requires Valid()
      modifies this
      ensures Valid()
      ensures old(stage).Initial? ==>
        && industryLevel == Some(IndustryLevelOf(old(answers)))
        && stage == Industry(industryLevel.value)
        && answers == map[]
        && progress == old(progress) && detailedScores == old(detailedScores)
      ensures old(stage).Industry? ==>
        && progress == Percent(Total(old(answers)), 2 * |DetailedSet(content, old(stage))|)
        && detailedScores == old(answers)
        && stage == Result
        && industryLevel == old(industryLevel) && answers == old(answers)
      ensures old(stage).Result? ==> AsState() == old(AsState())
      ensures Rank(old(stage)) <= Rank(stage)
      ensures AsState() == Step(content, old(AsState()), Press)
    {
      if stage.Initial? {
        var level := CalculateIndustryLevel();
        industryLevel := Some(level);
        stage := Industry(level);
        answers := map[];
      } else if stage.Industry? {
        var totalScore := SumScores(answers);
        var maxScore := |content.detailedQuestions[stage]| * 2;
        progress := Percent(totalScore, maxScore);
        detailedScores := answers;
        stage := Result;
      }
    }

    /** Pressing "Start New Assessment": every field back to its default. */
    method HandleReset()
      requires Valid()
      modifies this
      ensures Valid()
      ensures stage == Initial && answers == map[] && industryLevel == None
      ensures progress == 0.0 && detailedScores == map[]
      ensures AsState() == Step(content, old(AsState()), Restart)
    {
      stage := Initial;
      answers := map[];
      industryLevel := None;
      progress := 0.0;
      detailedScores := map[];
    }
  }
}
