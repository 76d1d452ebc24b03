/**
 * The assessment controller as a state machine over values: its stages,
 * its static content (question sets and recommendation table), its five
 * state fields, and the three user actions (record an answer, submit,
 * start a new assessment) as functions from state to state.
 */
module Assessment {
  import opened Scoring

  datatype Option<T> = None | Some(value: T)

  /** A stage: the initial assessment, the detailed assessment of one industry level, or the result. */
  datatype Stage = Initial | Industry(level: int) | Result

  /** The industry levels the classification produces. */
  predicate IsLevel(n: int) {
    2 <= n <= 4
  }

  /** Forward position of a stage: initial, then an industry stage, then the result. */
  function Rank(st: Stage): nat {
    match st
    case Initial => 0
    case Industry(_) => 1
    case Result => 2
  }

  /** A question, reduced to the scores of its options (its text plays no part in the logic). */
  datatype Question = Question(optionScores: seq<int>)

  type QuestionSet = seq<Question>

  /** Every option of every question scores between lo and hi. */
  predicate ScoresWithin(qs: QuestionSet, lo: int, hi: int) {
    forall i, j :: 0 <= i < |qs| && 0 <= j < |qs[i].optionScores| ==> lo <= qs[i].optionScores[j] <= hi
  }

  /**
   * The hand-authored content: the initial question set, one detailed set
   * per industry stage, and the recommendations per industry level.
   */
  datatype Content = Content(
    initialQuestions: QuestionSet,
    detailedQuestions: map<Stage, QuestionSet>,
    recommendations: map<int, seq<string>>)
  {
    /** The shape the hand-authored tables have. */
    predicate Valid() {
      && ScoresWithin(initialQuestions, 2, 4)
      && detailedQuestions.Keys == {Industry(2), Industry(3), Industry(4)}
      && (forall st :: st in detailedQuestions ==> |detailedQuestions[st]| > 0)
      && (forall st :: st in detailedQuestions ==> ScoresWithin(detailedQuestions[st], 0, 2))
      && recommendations.Keys == {2, 3, 4}
    }
  }

  /** The five pieces of controller state. */
  datatype State = State(
    stage: Stage,
    answers: Answers,
    industryLevel: Option<int>,
    progress: real,
    detailedScores: Answers)

  /** The state at mount and after a reset. */
  const Defaults: State := State(Initial, map[], None, 0.0, map[])

  /**
   * What every reachable state satisfies: the level is missing exactly in
   * the initial stage, an industry stage is the stage of the recorded
   * level, and progress and the snapshot stay at their defaults until the
   * result is reached.
   */
  predicate Inv(s: State) {
    && (s.industryLevel.None? <==> s.stage.Initial?)
    && (s.industryLevel.Some? ==> IsLevel(s.industryLevel.value))
    && (s.stage.Industry? ==> s.industryLevel == Some(s.stage.level))
    && (!s.stage.Result? ==> s.progress == 0.0 && s.detailedScores == map[])
  }

  /** Recording score for question index i: an upsert into the answers. */
  function Answer(s: State, i: nat, score: int): State {
    s.(answers := s.answers[i := score])
  }

  /** The level the initial answers give. */
  ghost function IndustryLevelOf(answers: Answers): int {
    Classify(Total(answers), |answers|)
  }

  /** The question set of an industry stage. */
  function DetailedSet(c: Content, st: Stage): (qs: QuestionSet)
    requires c.Valid() && st.Industry? && IsLevel(st.level)
    ensures |qs| > 0 && ScoresWithin(qs, 0, 2)
  {
    c.detailedQuestions[st]
  }

  /**
   * Submitting: from the initial stage, classify and move to that level's
   * detailed stage with no answers; from an industry stage, record the
   * percentage reached and the answers, and move to the result; from the
   * result, nothing.
   */
  ghost function Submit(c: Content, s: State): State
    requires c.Valid() && Inv(s)
  {
    match s.stage
    case Initial =>
      var level := IndustryLevelOf(s.answers);
      s.(industryLevel := Some(level), stage := Industry(level), answers := map[])
    case Industry(_) =>
      var maxScore := |DetailedSet(c, s.stage)| * 2;
      s.(progress := Percent(Total(s.answers), maxScore), detailedScores := s.answers, stage := Result)
    case Result => s
  }

  /** The user actions: choose an option, press the submit button, start a new assessment. */
  datatype Action = Choose(index: nat, score: int) | Press | Restart

  /** One action; every one of them keeps the invariant. */
  ghost function Step(c: Content, s: State, a: Action): (t: State)
    requires c.Valid() && Inv(s)
    ensures Inv(t)
  {
    match a
    case Choose(i, score) => Answer(s, i, score)
    case Press => Submit(c, s)
    case Restart => Defaults
  }

  /** A sequence of actions, in order. */
  ghost function Run(c: Content, s: State, acts: seq<Action>): (t: State)
    requires c.Valid() && Inv(s)
    ensures Inv(t)
    decreases |acts|
  {
    if acts == [] then s else Run(c, Step(c, s, acts[0]), acts[1..])
  }

  /** The question set shown in a stage; the result stage shows none. */
  function CurrentQuestions(c: Content, st: Stage): (qs: Option<QuestionSet>)
    requires c.Valid()
    requires st.Industry? ==> IsLevel(st.level)
    ensures qs.Some? <==> !st.Result?
    ensures st.Initial? ==> qs == Some(c.initialQuestions)
    ensures st.Industry? ==> qs == Some(DetailedSet(c, st))
    ensures st.Initial? ==> qs.Some? && ScoresWithin(qs.value, 2, 4)
    ensures st.Industry? ==> qs.Some? && |qs.value| > 0 && ScoresWithin(qs.value, 0, 2)
  {
    if st.Initial? then Some(c.initialQuestions)
    else if st in c.detailedQuestions then Some(c.detailedQuestions[st])
    else None
  }

  /** The recommendations for the recorded level; missing only while there is no level. */
  function Recommendations(c: Content, s: State): (recs: Option<seq<string>>)
    requires c.Valid() && Inv(s)
    ensures recs.None? <==> s.stage.Initial?
    ensures recs.Some? ==> recs.value == c.recommendations[s.industryLevel.value]
  {
    match s.industryLevel
    case None => None
    case Some(level) => if level in c.recommendations then Some(c.recommendations[level]) else None
  }

  /** Every answer addresses a question of qs and is one of that question's option scores. */
  predicate AnswersFit(qs: QuestionSet, a: Answers) {
    forall k :: k in a ==> k < |qs| && a[k] in qs[k].optionScores
  }

  // ---------------------------------------------------------------------------
  // Properties of the transitions

  /** The defaults are a state of the controller. */
  lemma DefaultsValid()
    ensures Inv(Defaults) && Defaults.stage == Initial && Defaults.industryLevel.None?
  {
  }

  /**
   * Recording an answer sets that index, leaves every other index as it
   * was, and adds an entry only when the index was not yet answered.
   */
  lemma AnswerUpserts(s: State, i: nat, score: int)
    ensures var t := Answer(s, i, score);
      && t.answers[i] == score
      && (forall k :: k != i ==> (k in t.answers <==> k in s.answers))
      && (forall k :: k != i && k in s.answers ==> t.answers[k] == s.answers[k])
      && |t.answers| == (if i in s.answers then |s.answers| else |s.answers| + 1)
      && t.(answers := s.answers) == s
  {
  }

  /** Recording the same index twice keeps only the second score. */
  lemma AnswerOverwrites(s: State, i: nat, first: int, second: int)
    ensures Answer(Answer(s, i, first), i, second) == Answer(s, i, second)
    ensures |Answer(Answer(s, i, first), i, second).answers| == |Answer(s, i, first).answers|
  {
  }

  /**
   * Submitting from the initial stage classifies the average of the answers
   * (at most 2.5 gives 2, at most 3.5 gives 3, anything above gives 4),
   * moves to that level's stage and clears the answers; progress and the
   * snapshot are untouched.
   */
  lemma SubmitFromInitial(c: Content, s: State)
    requires c.Valid() && Inv(s) && s.stage.Initial? && |s.answers| > 0
    ensures var t := Submit(c, s); var total, n := Total(s.answers), |s.answers|;
      && t.stage.Industry? && IsLevel(t.stage.level)
      && t.industryLevel == Some(t.stage.level)
      && (t.stage.level == 2 <==> 2 * total <= 5 * n)
      && (t.stage.level == 3 <==> 5 * n < 2 * total <= 7 * n)
      && (t.stage.level == 4 <==> 7 * n < 2 * total)
      && t.answers == map[]
      && t.progress == s.progress && t.detailedScores == s.detailedScores
  {
  }

  /** With no answers the average is not a number, and the level falls through to 4. */
  lemma SubmitWithoutAnswers(c: Content, s: State)
    requires c.Valid() && Inv(s) && s.stage.Initial? && s.answers == map[]
    ensures Submit(c, s).stage == Industry(4) && Submit(c, s).industryLevel == Some(4)
  {
  }

  /** A higher initial average never gives a lower level. */
  lemma LevelMonotone(a1: Answers, a2: Answers)
    requires |a1| > 0 && |a2| > 0
    requires Total(a1) * |a2| <= Total(a2) * |a1|
    ensures IndustryLevelOf(a1) <= IndustryLevelOf(a2)
  {
    ClassifyMonotone(Total(a1), |a1|, Total(a2), |a2|);
  }

  /**
   * Submitting from an industry stage records the percentage of the set's
   * maximum score (two per question) that the answers reach, snapshots the
   * answers and moves to the result; the level is unchanged.
   */
  lemma SubmitFromIndustry(c: Content, s: State)
    requires c.Valid() && Inv(s) && s.stage.Industry?
    ensures var t := Submit(c, s); var maxScore := 2 * |DetailedSet(c, s.stage)|;
      && t.stage == Result
      && t.progress * maxScore as real == 100.0 * Total(s.answers) as real
      && t.detailedScores == s.answers
      && t.industryLevel == s.industryLevel && t.answers == s.answers
  {
  }

  /**
   * When the answers are keyed by indices of the detailed set and score
   * between 0 and 2, the recorded percentage lies between 0 and 100.
   */
  lemma ProgressWithinBounds(c: Content, s: State)
    requires c.Valid() && Inv(s) && s.stage.Industry?
    requires forall k :: k in s.answers ==> k < |DetailedSet(c, s.stage)| && 0 <= s.answers[k] <= 2
    ensures 0.0 <= Submit(c, s).progress <= 100.0
  {
    TotalWithin(s.answers);
    KeysBelow(s.answers, |DetailedSet(c, s.stage)|);
  }

  /**
   * Answers given through the detailed questions themselves (an index of
   * the set, one of that question's option scores) keep the percentage
   * between 0 and 100.
   */
  lemma FittingAnswersBoundProgress(c: Content, s: State)
    requires c.Valid() && Inv(s) && s.stage.Industry?
    requires AnswersFit(DetailedSet(c, s.stage), s.answers)
    ensures 0.0 <= Submit(c, s).progress <= 100.0
  {
    var qs := DetailedSet(c, s.stage);
    forall k | k in s.answers
      ensures 0 <= s.answers[k] <= 2
    {
      var j :| 0 <= j < |qs[k].optionScores| && qs[k].optionScores[j] == s.answers[k];
    }
    ProgressWithinBounds(c, s);
  }

  /** Submitting in the result stage changes nothing. */
  lemma SubmitFromResult(c: Content, s: State)
    requires c.Valid() && Inv(s) && s.stage.Result?
    ensures Submit(c, s) == s
  {
  }

  /** Starting a new assessment restores every default, from any state. */
  lemma RestartRestoresDefaults(c: Content, s: State)
    requires c.Valid() && Inv(s)
    ensures var t := Step(c, s, Restart);
      && t.stage == Initial && t.answers == map[] && t.industryLevel == None
      && t.progress == 0.0 && t.detailedScores == map[]
  {
  }

  /** Every action but a restart keeps the stage or moves it forward; submitting before the result always moves it. */
  lemma StepForward(c: Content, s: State, a: Action)
    requires c.Valid() && Inv(s) && !a.Restart?
    ensures Rank(s.stage) <= Rank(Step(c, s, a).stage)
    ensures a.Press? && !s.stage.Result? ==> Rank(s.stage) < Rank(Step(c, s, a).stage)
  {
  }

  /** No sequence of actions without a restart moves the stage backward. */
  lemma {:induction false} RunForward(c: Content, s: State, acts: seq<Action>)
    requires c.Valid() && Inv(s)
    requires forall i :: 0 <= i < |acts| ==> !acts[i].Restart?
    ensures Rank(s.stage) <= Rank(Run(c, s, acts).stage)
    decreases |acts|
  {
    if acts != [] {
      StepForward(c, s, acts[0]);
      RunForward(c, Step(c, s, acts[0]), acts[1..]);
    }
  }

  /**
   * Once the result is reached, the stage, level, progress and snapshot
   * stay as they are until a restart.
   */
  lemma {:induction false} ResultIsStable(c: Content, s: State, acts: seq<Action>)
    requires c.Valid() && Inv(s) && s.stage.Result?
    requires forall i :: 0 <= i < |acts| ==> !acts[i].Restart?
    ensures var t := Run(c, s, acts);
      && t.stage == Result && t.industryLevel == s.industryLevel
      && t.progress == s.progress && t.detailedScores == s.detailedScores
    decreases |acts|
  {
    if acts != [] {
      ResultIsStable(c, Step(c, s, acts[0]), acts[1..]);
    }
  }

  /** From the defaults, one submit and a later one reach the result at the level the initial answers gave. */
  lemma ResultKeepsInitialLevel(c: Content, s: State, acts: seq<Action>)
    requires c.Valid() && Inv(s) && s.stage.Initial?
    requires forall i :: 0 <= i < |acts| ==> acts[i].Choose?
    ensures var t := Submit(c, Run(c, Submit(c, s), acts));
      && t.stage == Result
      && t.industryLevel == Some(IndustryLevelOf(s.answers))
  {
    IndustryAnswersOnly(c, Submit(c, s), acts);
  }

  /** Choosing options in an industry stage changes only the answers. */
  lemma {:induction false} IndustryAnswersOnly(c: Content, s: State, acts: seq<Action>)
    requires c.Valid() && Inv(s) && s.stage.Industry?
    requires forall i :: 0 <= i < |acts| ==> acts[i].Choose?
    ensures Run(c, s, acts).(answers := s.answers) == s
    decreases |acts|
  {
    if acts != [] {
      IndustryAnswersOnly(c, Step(c, s, acts[0]), acts[1..]);
    }
  }

  // ---------------------------------------------------------------------------
  // Worked cases

  /** Initial answers 2, 3 and 4 average 3.0: level 3, the industry 3 stage, answers cleared. */
  lemma AverageThreeGivesLevelThree(c: Content)
    requires c.Valid()
    ensures var t := Submit(c, Answer(Answer(Answer(Defaults, 0, 2), 1, 3), 2, 4));
      t.stage == Industry(3) && t.industryLevel == Some(3) && t.answers == map[]
  {
    var a := map[0 := 2, 1 := 3, 2 := 4];
    assert Answer(Answer(Answer(Defaults, 0, 2), 1, 3), 2, 4).answers == a;
    TotalRemove(a, 0);
    TotalRemove(a - {0}, 1);
    TotalRemove(a - {0} - {1}, 2);
    assert a - {0} - {1} - {2} == map[];
    assert Total(a) == 9;
  }

  /** Three detailed questions answered 1, 1 and 1 reach exactly half of the maximum 6. */
  lemma HalfOfMaximumIsFifty(c: Content, s: State)
    requires c.Valid() && Inv(s) && s.stage.Industry?
    requires |DetailedSet(c, s.stage)| == 3 && s.answers == map[0 := 1, 1 := 1, 2 := 1]
    ensures Submit(c, s).progress == 50.0
  {
    var a := s.answers;
    TotalRemove(a, 0);
    TotalRemove(a - {0}, 1);
    TotalRemove(a - {0} - {1}, 2);
    assert a - {0} - {1} - {2} == map[];
  }
}
