# Industry assessment controller

A model of the state machine inside the `IndustryAssessmentTool` survey
component. The user answers an initial question set. The average score
places them at industry level 2, 3 or 4. They then answer that level's
detailed question set. The result shows the percentage of the maximum
detailed score they reached, plus the recommendations for their level.

The model has three modules:

- `Scoring` (scoring.dfy) holds the pure rules:
  - the total of the recorded answers (`Total`, a sum over map values that does not depend on order);
  - the `reduce` that computes that total, as a loop over the keys (`SumScores`);
  - the classification against the non-strict cut points 2.5 and 3.5 (`Classify`);
  - the percentage formula (`Percent`).
  Averages and percentages are Dafny `real`s.
- `Assessment` (assessment.dfy) holds:
  - the stages and the static content (question sets reduced to their option scores, and the recommendation table);
  - the five state fields as one value, with the invariant every reachable state keeps;
  - the three user actions as functions from state to state (`Answer`, `Submit`, `Step`), and sequences of actions (`Run`);
  - the two derived lookups (current question set, recommendations);
  - the lemmas about all of these.
- `Controller` (controller.dfy) holds the class `IndustryAssessmentTool`. Its fields are `stage`, `answers`, `industryLevel`, `progress` and `detailedScores`. Its handlers update those fields in place. Each handler's postcondition gives the new value of every field and ties the new state to `Assessment.Step`.

Submitting from the initial stage with no recorded answers divides 0 by 0. Both threshold comparisons then fail, so the level is 4. The model keeps this behaviour as the code has it (`Classify(_, 0) == 4`, lemma `SubmitWithoutAnswers`). It does not reject the transition, which a hardened design would do.

## Model

| member | source | states |
|---|---|---|
| Scoring.TotalRemove | industry-assessment-tool-fixed.tsx:90 | The sum of the answer values can start with any recorded answer, so it does not depend on the order of `Object.values` |
| Scoring.TotalUpsert | industry-assessment-tool-fixed.tsx:85-90 | After an upsert, the total is the new score plus the total of the other answers; the old score no longer counts |
| Scoring.TotalWithin | industry-assessment-tool-fixed.tsx:104-105 | Detailed scores of 0, 1 or 2 give a total between 0 and twice the number of answers |
| Scoring.KeysBelow | industry-assessment-tool-fixed.tsx:115-121 | Answers keyed by question indices below n number at most n |
| Scoring.SumScores | industry-assessment-tool-fixed.tsx:104-105 | The `reduce` accumulation over the answers returns the sum of all recorded scores |
| Scoring.Classify | industry-assessment-tool-fixed.tsx:89-95 | Returns 2, 3 or 4. With answers: 2 exactly when the average is at most 2.5, 3 exactly when it is above 2.5 and at most 3.5, 4 exactly when it is above 3.5 (as 2*total <= 5*count and 2*total <= 7*count). With no answers: 4 |
| Scoring.AverageAtMost | industry-assessment-tool-fixed.tsx:91-93 | Comparing the real average with bound/2 is the same as comparing 2*total with bound*count |
| Scoring.ClassifyMonotone | industry-assessment-tool-fixed.tsx:92-94 | A higher or equal average never gives a lower level |
| Scoring.Percent | industry-assessment-tool-fixed.tsx:106-107 | The progress is 100*total/maxScore, and it lies in [0,100] when 0 <= total <= maxScore |
| Assessment.DetailedSet | industry-assessment-tool-fixed.tsx:106 | Each industry stage's question set is non-empty, and its option scores lie in 0..2 |
| Assessment.Step | industry-assessment-tool-fixed.tsx:85-111 | Every action (answer, submit, reset) keeps the invariant: the level is null exactly in the initial stage, it is 2..4 otherwise, an industry stage matches the level, and progress and snapshot stay at their defaults before the result |
| Assessment.Run | industry-assessment-tool-fixed.tsx:79-83 | Every state reached from a valid state by any sequence of actions satisfies the invariant |
| Assessment.CurrentQuestions | industry-assessment-tool-fixed.tsx:114 | A question set exists in every stage except the result: exactly `initialQuestions` in the initial stage, with option scores 2..4, and exactly `detailedQuestions[stage]` in an industry stage, non-empty, with scores 0..2 |
| Assessment.Recommendations | industry-assessment-tool-fixed.tsx:193 | The recommendation lookup is defined in every stage except the initial one, and it is the table entry for the recorded level |
| Assessment.DefaultsValid | industry-assessment-tool-fixed.tsx:79-83 | The defaults at mount satisfy the invariant: stage initial, no level |
| Assessment.AnswerUpserts | industry-assessment-tool-fixed.tsx:85-87 | Answering sets `answers[i]`, keeps every other key and value, adds an entry only for a new index, and changes no other field |
| Assessment.AnswerOverwrites | industry-assessment-tool-fixed.tsx:85-87 | Answering the same index twice keeps only the second score and does not add a second entry |
| Assessment.SubmitFromInitial | industry-assessment-tool-fixed.tsx:98-102 | From the initial stage: the level is set by the threshold table, the stage becomes that level's industry stage, the answers are cleared, and progress and the snapshot are unchanged |
| Assessment.SubmitWithoutAnswers | industry-assessment-tool-fixed.tsx:90-94 | With no answers, the not-a-number average fails both comparisons, and the stage becomes industry 4 |
| Assessment.LevelMonotone | industry-assessment-tool-fixed.tsx:89-95 | Initial answers with a higher or equal average never get a lower level |
| Assessment.SubmitFromIndustry | industry-assessment-tool-fixed.tsx:103-110 | From an industry stage: progress * maxScore = 100 * total with maxScore = 2 * set size, the answers are snapshotted, the stage becomes result, and the level is unchanged |
| Assessment.ProgressWithinBounds | industry-assessment-tool-fixed.tsx:104-107 | If every answer is keyed by an index of the detailed set and scores between 0 and 2, the recorded progress is in [0,100] |
| Assessment.FittingAnswersBoundProgress | industry-assessment-tool-fixed.tsx:115-125 | Answers given through the detailed questions themselves (an index of the set, one of that question's option scores) give a recorded progress in [0,100] |
| Assessment.SubmitFromResult | industry-assessment-tool-fixed.tsx:97-111 | In the result stage, submitting changes nothing |
| Assessment.RestartRestoresDefaults | industry-assessment-tool-fixed.tsx:221-227 | Reset from any state gives stage initial, no answers, null level, progress 0 and no snapshot |
| Assessment.StepForward | industry-assessment-tool-fixed.tsx:97-111 | Answering and submitting never move the stage backward, and submitting before the result always moves it forward |
| Assessment.RunForward | industry-assessment-tool-fixed.tsx:97-111 | No sequence of actions without a reset moves the stage backward (initial, then industry N, then result) |
| Assessment.ResultIsStable | industry-assessment-tool-fixed.tsx:103-111 | Once the result is reached, stage, level, progress and snapshot stay as they are until a reset |
| Assessment.IndustryAnswersOnly | industry-assessment-tool-fixed.tsx:85-87 | In an industry stage, answering changes only the answers |
| Assessment.ResultKeepsInitialLevel | industry-assessment-tool-fixed.tsx:99-110 | After submit, any answers, and submit again, the result stage carries the level the initial answers gave |
| Assessment.AverageThreeGivesLevelThree | industry-assessment-tool-fixed.tsx:89-102 | Initial answers 2, 3 and 4 (average 3.0) give level 3 and stage industry 3, with the answers cleared |
| Assessment.HalfOfMaximumIsFifty | industry-assessment-tool-fixed.tsx:104-107 | Three detailed questions answered 1, 1, 1 give progress exactly 50 |
| Controller.IndustryAssessmentTool.constructor | industry-assessment-tool-fixed.tsx:79-83 | At mount: stage initial, empty answers, null level, progress 0, empty snapshot |
| Controller.IndustryAssessmentTool.HandleAnswer | industry-assessment-tool-fixed.tsx:85-87 | Upserts `answers[questionIndex] = score`; all other fields are unchanged |
| Controller.IndustryAssessmentTool.CalculateIndustryLevel | industry-assessment-tool-fixed.tsx:89-95 | Returns a level in 2..4, classified by the average of the recorded answers against 2.5 and 3.5 |
| Controller.IndustryAssessmentTool.HandleSubmit | industry-assessment-tool-fixed.tsx:97-111 | Gives the new value of every field in each of the three stages, and the stage never moves backward |
| Controller.IndustryAssessmentTool.HandleReset | industry-assessment-tool-fixed.tsx:221-227 | Every field returns to its default |

## Left out

- Rendering is not modelled: the JSX, the styling class strings, the indicator colour and icon (lines 139-150), and the headings and texts. None of it affects the state.
- The per-question bar values (line 175) and the "Industry {level+1}.0" texts (lines 189 and 215) are not modelled. They derive display values only.
- The UI boundary's `parseInt` and `toString` on option scores (lines 121 and 125) are not modelled, and neither is `toFixed` on the progress (line 215). Scores are integers from the start.
- React's state hooks and their batched, asynchronous setters are not modelled. Each handler is one atomic update of the five fields.
- Floating point is not modelled: averages and percentages are exact reals. The one IEEE effect kept is the not-a-number average on empty initial answers, which gives level 4. Exact reals agree with the double comparisons against 2.5 and 3.5 for any realistic number of answers.
- The question and recommendation texts are hand-authored, and most of them are elided in the source. Questions are reduced to their option scores. Each question set is a parameter whose option scores are 2..4 (initial) or 0..2 (detailed). Recommendations are a table keyed by 2, 3 and 4.
- HandleAnswer accepts any index and score, as the source does. The bound on progress therefore holds only when the answers fit the detailed set (`ProgressWithinBounds`).
- Which actions the screen offers in which stage is not modelled. The options and the submit button are shown only while the stage is not the result (lines 242-261), and the reset button only in the result view (lines 220-231). `Step` and `Run` accept every action in every stage, a superset of what the UI allows, so the properties proved over them hold for every sequence the UI can produce. `SubmitFromResult` covers a call the UI never makes.
- The `detailedQuestions[stage]` lookup for a stage name with no entry is not modelled. It would be an undefined `.length` in the source, and no reachable state has such a stage.
