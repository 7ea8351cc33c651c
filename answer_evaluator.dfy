/**
 * The answer evaluator of the sandbox: it records one answer on the user's
 * profile, saves it, and derives feedback, learning insights and a performance
 * summary from the updated profile; it also ranks a preferred difficulty and
 * picks recommendations for the analytics view.
 *
 * Accuracy thresholds are compared exactly, by cross-multiplication. Message
 * wording, emojis and percent formatting are reduced to the tier they belong to.
 */
module AnswerEvaluator {
  import opened Wrappers
  import opened Profiles
  import opened QuestionGenerator
  import SandboxStorage

  // ------------------------------------------------------------ recording an answer

  /** The profile after one answer: one more question, and the streak extended or reset. */
  function RecordAnswer(p: UserProfile, isCorrect: bool, now: string): (r: UserProfile)
    ensures r.total_questions == p.total_questions + 1
    ensures r.correct_answers == p.correct_answers + (if isCorrect then 1 else 0)
    ensures isCorrect ==> r.current_streak == p.current_streak + 1
    ensures isCorrect ==> r.longest_streak == (if r.current_streak > p.longest_streak then r.current_streak else p.longest_streak)
    ensures !isCorrect ==> r.current_streak == 0 && r.longest_streak == p.longest_streak
    ensures r.last_quiz_date == Some(now)
    ensures r.user_id == p.user_id && r.enrolled_course == p.enrolled_course && r.preferences == p.preferences
    ensures r.start_date == p.start_date && r.completed_course == p.completed_course
  {
    var q := p.(total_questions := p.total_questions + 1);
    var q := if isCorrect then
               var s := q.(correct_answers := q.correct_answers + 1, current_streak := q.current_streak + 1);
               if s.current_streak > s.longest_streak then s.(longest_streak := s.current_streak) else s
             else q.(current_streak := 0);
    q.(last_quiz_date := Some(now))
  }

  /** The longest streak is the larger of the old longest streak and the new current one. */
  lemma LongestIsMaximum(p: UserProfile, isCorrect: bool, now: string)
    requires Consistent(p)
    ensures var r := RecordAnswer(p, isCorrect, now);
      r.longest_streak == (if r.current_streak > p.longest_streak then r.current_streak else p.longest_streak)
  {
  }

  /** Recording an answer keeps `correct <= total` and `longest >= current >= 0`. */
  lemma RecordAnswerKeepsConsistent(p: UserProfile, isCorrect: bool, now: string)
    requires Consistent(p)
    ensures Consistent(RecordAnswer(p, isCorrect, now))
  {
  }

  /** The profile after a run of answers, oldest first. */
  function RecordAll(p: UserProfile, answers: seq<bool>, now: string): UserProfile
    decreases |answers|
  {
    if answers == [] then p
    else RecordAnswer(RecordAll(p, answers[..|answers| - 1], now), answers[|answers| - 1], now)
  }

  /** The number of correct answers at the end of the run. */
  function TrailingTrues(answers: seq<bool>): (n: nat)
    ensures n <= |answers|
    ensures forall i :: |answers| - n <= i < |answers| ==> answers[i]
    ensures n < |answers| ==> !answers[|answers| - 1 - n]
  {
    if answers == [] || !answers[|answers| - 1] then 0
    else TrailingTrues(answers[..|answers| - 1]) + 1
  }

  /** The number of correct answers in the run. */
  function CountTrue(answers: seq<bool>): (n: nat)
    ensures n <= |answers|
  {
    if answers == [] then 0
    else CountTrue(answers[..|answers| - 1]) + (if answers[|answers| - 1] then 1 else 0)
  }

  /**
   * After a run of answers: the total grows by the run's length, the correct
   * count by its correct answers, the current streak is the run's trailing
   * correct answers (added to the old streak when the whole run is correct),
   * and a consistent record stays consistent.
   */
  lemma {:induction false} RecordAllCounts(p: UserProfile, answers: seq<bool>, now: string)
    requires Consistent(p)
    ensures var r := RecordAll(p, answers, now);
      r.total_questions == p.total_questions + |answers|
      && r.correct_answers == p.correct_answers + CountTrue(answers)
      && r.current_streak == (if TrailingTrues(answers) == |answers| then p.current_streak + |answers| else TrailingTrues(answers))
      && Consistent(r)
    decreases |answers|
  {
    if answers != [] {
      var init := answers[..|answers| - 1];
      RecordAllCounts(p, init, now);
      RecordAnswerKeepsConsistent(RecordAll(p, init, now), answers[|answers| - 1], now);
    }
  }

  /** Correct, correct, wrong, correct on a fresh record: streak 1, best 2, 3 of 4. */
  lemma MixedRunExample(p: UserProfile, now: string)
    requires p.total_questions == 0 && p.correct_answers == 0 && p.current_streak == 0 && p.longest_streak == 0
    ensures var r := RecordAll(p, [true, true, false, true], now);
      r.current_streak == 1 && r.longest_streak == 2 && r.total_questions == 4 && r.correct_answers == 3
  {
    assert [true, true, false, true][..3] == [true, true, false];
    assert [true, true, false][..2] == [true, true];
    assert [true, true][..1] == [true];
    assert [true][..0] == [];
  }

  // ------------------------------------------------------------ feedback

  /** The `immediate` message, by tier. */
  datatype Immediate = StreakOnFire(streak: int) | StreakInARow(streak: int) | WellDone | NotQuiteRight

  /** The `encouragement` message, by tier. */
  datatype Encouragement = KeepUpTheWork | DontGiveUp

  /** The `next_steps` message, by tier. */
  datatype NextSteps = MoreChallenging | BuildConfidence | ReadCarefully | ReviewBasics | BreakItDown

  datatype Feedback = Feedback(immediate: Immediate, explanation: string, encouragement: Encouragement, next_steps: NextSteps)

  /**
   * `_generate_feedback` on the updated profile. After a correct answer the
   * accuracy is divided out without a guard, so a total of 0 raises
   * ZeroDivisionError, modelled as None.
   */
  function GenerateFeedback(p: UserProfile, question: QuizQuestion, result: QuizResult): (r: Option<Feedback>)
    ensures r.None? <==> result.is_correct && p.total_questions == 0
    ensures r.Some? ==> r.value.explanation == question.explanation
    ensures r.Some? && result.is_correct ==>
      r.value.encouragement == KeepUpTheWork
      && (r.value.immediate == StreakOnFire(p.current_streak) <==> p.current_streak >= 5)
      && (r.value.immediate == StreakInARow(p.current_streak) <==> 3 <= p.current_streak < 5)
      && (r.value.immediate == WellDone <==> p.current_streak < 3)
      && (r.value.next_steps == MoreChallenging <==>
            QuotientAtLeast(p.correct_answers, p.total_questions, 4, 5) && p.total_questions >= 5)
      && (r.value.next_steps != MoreChallenging ==> r.value.next_steps == BuildConfidence)
    ensures r.Some? && !result.is_correct ==>
      r.value.immediate == NotQuiteRight && r.value.encouragement == DontGiveUp
      && (r.value.next_steps == ReadCarefully <==> p.total_questions < 3)
      && (r.value.next_steps == ReviewBasics <==> p.current_streak == 0 && p.total_questions >= 5)
      && (r.value.next_steps != ReadCarefully && r.value.next_steps != ReviewBasics ==> r.value.next_steps == BreakItDown)
  {
    if result.is_correct then
      var immediate := if p.current_streak >= 5 then StreakOnFire(p.current_streak)
                       else if p.current_streak >= 3 then StreakInARow(p.current_streak)
                       else WellDone;
      if p.total_questions == 0 then None
      else
        var next := if QuotientAtLeast(p.correct_answers, p.total_questions, 4, 5) && p.total_questions >= 5
                    then MoreChallenging else BuildConfidence;
        Some(Feedback(immediate, question.explanation, KeepUpTheWork, next))
    else
      var next := if p.total_questions < 3 then ReadCarefully
                  else if p.current_streak == 0 && p.total_questions >= 5 then ReviewBasics
                  else BreakItDown;
      Some(Feedback(NotQuiteRight, question.explanation, DontGiveUp, next))
  }

  /**
   * On the profile `evaluate_answer` builds, an incorrect answer has reset the
   * streak, so from the fifth question on the advice is always to review the basics.
   */
  lemma WrongAnswerAdviceAfterRecording(p: UserProfile, question: QuizQuestion, result: QuizResult, now: string)
    requires !result.is_correct && p.total_questions >= 4
    ensures GenerateFeedback(RecordAnswer(p, false, now), question, result) ==
            Some(Feedback(NotQuiteRight, question.explanation, DontGiveUp, ReviewBasics))
  {
  }

  // ------------------------------------------------------------ insights

  datatype InsightKind = PerformanceStrength | PerformanceWeakness | StreakStrength | TopicRecommendation

  /** A learning insight; `confidence` is in percent (0.9 is 90). */
  datatype LearningInsight = LearningInsight(
    user_id: string,
    kind: InsightKind,
    topic: string,
    confidence: nat,
    generated_date: string)

  /** The `insight_type` string of a kind. */
  function InsightType(k: InsightKind): string {
    match k
    case PerformanceStrength => "strength"
    case PerformanceWeakness => "weakness"
    case StreakStrength => "strength"
    case TopicRecommendation => "recommendation"
  }

  /**
   * `_generate_learning_insights`: a performance insight from the fifth question
   * on (strength at 80% or more, weakness under 50%), a streak strength from a
   * streak of five, and a recommendation on the question's topic after a wrong answer.
   */
  function GenerateInsights(p: UserProfile, question: QuizQuestion, result: QuizResult, now: string): (r: seq<LearningInsight>)
    ensures |r| <= 3
    ensures forall i :: 0 <= i < |r| ==> r[i].user_id == p.user_id && r[i].generated_date == now
  {
    var performance :=
      if p.total_questions >= 5 then
        if AccuracyAtLeast(p.correct_answers, p.total_questions, 4, 5) then
          [LearningInsight(p.user_id, PerformanceStrength, question.topic, 90, now)]
        else if !AccuracyAtLeast(p.correct_answers, p.total_questions, 1, 2) then
          [LearningInsight(p.user_id, PerformanceWeakness, question.topic, 80, now)]
        else []
      else [];
    var streak :=
      if p.current_streak >= 5 then [LearningInsight(p.user_id, StreakStrength, "General", 95, now)] else [];
    var recommendation :=
      if !result.is_correct then [LearningInsight(p.user_id, TopicRecommendation, question.topic, 70, now)] else [];
    performance + streak + recommendation
  }

  /** The kinds of a list of insights, in order. */
  function Kinds(insights: seq<LearningInsight>): seq<InsightKind> {
    seq(|insights|, i requires 0 <= i < |insights| => insights[i].kind)
  }

  /**
   * Which insights appear, and in which order: each kind at most once, the
   * performance insight first, the streak insight next, the recommendation last.
   */
  lemma InsightsPresenceAndOrder(p: UserProfile, question: QuizQuestion, result: QuizResult, now: string)
    ensures var k := Kinds(GenerateInsights(p, question, result, now));
      var perf := p.total_questions >= 5 && 5 * p.correct_answers >= 4 * p.total_questions;
      var weak := p.total_questions >= 5 && 2 * p.correct_answers < p.total_questions;
      var streak := p.current_streak >= 5;
      var rec := !result.is_correct;
      k == (if perf then [PerformanceStrength] else if weak then [PerformanceWeakness] else [])
           + (if streak then [StreakStrength] else [])
           + (if rec then [TopicRecommendation] else [])
  {
    var r := GenerateInsights(p, question, result, now);
    var k := Kinds(r);
    var perf := p.total_questions >= 5 && 5 * p.correct_answers >= 4 * p.total_questions;
    var weak := p.total_questions >= 5 && 2 * p.correct_answers < p.total_questions;
    var expected := (if perf then [PerformanceStrength] else if weak then [PerformanceWeakness] else [])
                    + (if p.current_streak >= 5 then [StreakStrength] else [])
                    + (if !result.is_correct then [TopicRecommendation] else []);
    assert |k| == |expected|;
    assert forall i :: 0 <= i < |k| ==> k[i] == expected[i];
  }

  /** A recommendation is given exactly when the answer was wrong, and then it is last. */
  lemma RecommendationIffWrong(p: UserProfile, question: QuizQuestion, result: QuizResult, now: string)
    ensures var r := GenerateInsights(p, question, result, now);
      (exists i :: 0 <= i < |r| && r[i].kind == TopicRecommendation) <==> !result.is_correct
    ensures var r := GenerateInsights(p, question, result, now);
      !result.is_correct ==> r[|r| - 1] == LearningInsight(p.user_id, TopicRecommendation, question.topic, 70, now)
  {
    var r := GenerateInsights(p, question, result, now);
    InsightsPresenceAndOrder(p, question, result, now);
    if !result.is_correct {
      assert r[|r| - 1].kind == Kinds(r)[|r| - 1];
    } else {
      forall i | 0 <= i < |r|
        ensures r[i].kind != TopicRecommendation
      {
        assert r[i].kind == Kinds(r)[i];
      }
    }
  }

  // ------------------------------------------------------------ summary, difficulty, recommendations

  datatype Level = Excellent | Great | Good | Fair | Learning

  /** `_get_performance_summary`'s level, by accuracy (0 with no answers) from the top down. */
  function PerformanceLevel(correct: int, total: int): Level {
    if AccuracyAtLeast(correct, total, 9, 10) then Excellent
    else if AccuracyAtLeast(correct, total, 4, 5) then Great
    else if AccuracyAtLeast(correct, total, 7, 10) then Good
    else if AccuracyAtLeast(correct, total, 3, 5) then Fair
    else Learning
  }

  function LevelRank(l: Level): nat {
    match l
    case Learning => 0
    case Fair => 1
    case Good => 2
    case Great => 3
    case Excellent => 4
  }

  /** Each level is exactly one accuracy band: [0.9, ..), [0.8, 0.9), [0.7, 0.8), [0.6, 0.7), below 0.6. */
  lemma LevelBands(correct: int, total: int)
    requires total > 0
    ensures var l := PerformanceLevel(correct, total);
      (l == Excellent <==> 10 * correct >= 9 * total)
      && (l == Great <==> 5 * correct >= 4 * total && 10 * correct < 9 * total)
      && (l == Good <==> 10 * correct >= 7 * total && 5 * correct < 4 * total)
      && (l == Fair <==> 5 * correct >= 3 * total && 10 * correct < 7 * total)
      && (l == Learning <==> 5 * correct < 3 * total)
  {
  }

  /** With no answers the level is "Learning". */
  lemma NoAnswersIsLearning(correct: int)
    ensures PerformanceLevel(correct, 0) == Learning
  {
  }

  /** A higher accuracy never gives a lower level. */
  lemma LevelMonotone(c1: int, t1: int, c2: int, t2: int)
    requires t1 > 0 && t2 > 0 && c1 * t2 <= c2 * t1
    ensures LevelRank(PerformanceLevel(c1, t1)) <= LevelRank(PerformanceLevel(c2, t2))
  {
    AtLeastTransfers(c1, t1, c2, t2, 9, 10);
    AtLeastTransfers(c1, t1, c2, t2, 4, 5);
    AtLeastTransfers(c1, t1, c2, t2, 7, 10);
    AtLeastTransfers(c1, t1, c2, t2, 3, 5);
  }

  /** If c1/t1 <= c2/t2 and c1/t1 reaches num/den, so does c2/t2. */
  lemma AtLeastTransfers(c1: int, t1: int, c2: int, t2: int, num: nat, den: nat)
    requires t1 > 0 && t2 > 0 && den > 0 && c1 * t2 <= c2 * t1
    ensures AccuracyAtLeast(c1, t1, num, den) ==> AccuracyAtLeast(c2, t2, num, den)
  {
    if den * c1 >= num * t1 {
      assert den * c1 * t2 >= num * t1 * t2 by {
        MulLe(num * t1, den * c1, t2);
      }
      assert den * c2 * t1 >= den * c1 * t2 by {
        MulLe(c1 * t2, c2 * t1, den);
      }
      assert den * c2 * t1 >= num * t2 * t1;
      if den * c2 < num * t2 {
        MulLt(den * c2, num * t2, t1);
        assert false;
      }
    }
  }

  lemma MulLe(a: int, b: int, k: int)
    requires a <= b && k > 0
    ensures a * k <= b * k
  {
  }

  lemma MulLt(a: int, b: int, k: int)
    requires a < b && k > 0
    ensures a * k < b * k
  {
  }

  datatype Summary = Summary(level: Level, total_questions: int, correct_answers: int, current_streak: int, longest_streak: int)

  function PerformanceSummary(p: UserProfile): (s: Summary)
    ensures s.level == PerformanceLevel(p.correct_answers, p.total_questions)
    ensures s.total_questions == p.total_questions && s.correct_answers == p.correct_answers
    ensures s.current_streak == p.current_streak && s.longest_streak == p.longest_streak
  {
    Summary(PerformanceLevel(p.correct_answers, p.total_questions), p.total_questions, p.correct_answers,
            p.current_streak, p.longest_streak)
  }

  datatype Preferred = Advanced | Intermediate | Beginner

  /** `_get_preferred_difficulty` */
  function PreferredDifficulty(p: UserProfile): Preferred {
    if AccuracyAtLeast(p.correct_answers, p.total_questions, 4, 5) && p.total_questions >= 10 then Advanced
    else if AccuracyAtLeast(p.correct_answers, p.total_questions, 7, 10) && p.total_questions >= 5 then Intermediate
    else Beginner
  }

  /** "Advanced" iff 80% over ten or more answers; "Intermediate" iff 70% over five or more, short of that. */
  lemma PreferredDifficultyBands(p: UserProfile)
    ensures PreferredDifficulty(p) == Advanced <==>
              p.total_questions >= 10 && 5 * p.correct_answers >= 4 * p.total_questions
    ensures PreferredDifficulty(p) == Intermediate <==>
              p.total_questions >= 5 && 10 * p.correct_answers >= 7 * p.total_questions
              && !(p.total_questions >= 10 && 5 * p.correct_answers >= 4 * p.total_questions)
  {
  }

  /** A user the analytics call "Advanced" is still served "intermediate" questions by the generator. */
  lemma AdvancedPreferenceGetsIntermediateQuestions(p: UserProfile)
    requires PreferredDifficulty(p) == Advanced
    ensures DetermineDifficulty(p) == "intermediate"
  {
    DifficultyIsIntermediateOrBeginner(p);
  }

  datatype Recommendation = CompleteMoreQuestions | ReviewFundamentals | TryAdvancedTopics | TakeABreak | KeepPracticing

  /** `_get_recommendations`: each rule that fires adds its advice, in order; none firing gives "keep practicing". */
  function Recommendations(p: UserProfile): (r: seq<Recommendation>)
    ensures 1 <= |r| <= 4
  {
    var rules :=
      (if p.total_questions < 5 then [CompleteMoreQuestions] else [])
      + (if !AccuracyAtLeast(p.correct_answers, p.total_questions, 3, 5) then [ReviewFundamentals] else [])
      + (if p.current_streak >= 5 then [TryAdvancedTopics] else [])
      + (if p.current_streak == 0 && p.total_questions >= 3 then [TakeABreak] else []);
    if |rules| == 0 then [KeepPracticing] else rules
  }

  /** Each advice appears exactly when its rule fires; "keep practicing" only when no rule does. */
  lemma RecommendationRules(p: UserProfile)
    ensures var r := Recommendations(p);
      var fewQuestions := p.total_questions < 5;
      var lowAccuracy := !AccuracyAtLeast(p.correct_answers, p.total_questions, 3, 5);
      var onFire := p.current_streak >= 5;
      var cold := p.current_streak == 0 && p.total_questions >= 3;
      (CompleteMoreQuestions in r <==> fewQuestions)
      && (ReviewFundamentals in r <==> lowAccuracy)
      && (TryAdvancedTopics in r <==> onFire)
      && (TakeABreak in r <==> cold)
      && (KeepPracticing in r <==> !fewQuestions && !lowAccuracy && !onFire && !cold)
  {
  }

  /** A user with no answers yet is told both to answer more and to review the fundamentals. */
  lemma NewUserRecommendations(p: UserProfile)
    requires p.total_questions == 0 && p.current_streak == 0
    ensures Recommendations(p) == [CompleteMoreQuestions, ReviewFundamentals]
  {
  }

  // ------------------------------------------------------------ evaluate_answer

  datatype Evaluation =
    | ProfileNotFound
    | Failed(error: string)
    | Evaluated(result: QuizResult, feedback: Feedback, insights: seq<LearningInsight>,
                updated_profile: UserProfile, summary: Summary)

  /**
   * `evaluate_answer`: with no stored profile nothing changes; otherwise the
   * updated profile is saved (its outcome ignored), and the evaluation is built
   * from it, unless the feedback raises, which is reported after the save.
   */
  method EvaluateAnswer(store: SandboxStorage.Store, userId: string, question: QuizQuestion, result: QuizResult,
                        now: string, writeOk: bool) returns (e: Evaluation)
    requires store.Valid()
    modifies store
    ensures store.Valid() && store.quizzes == old(store.quizzes)
    ensures userId !in old(store.profiles) ==> e == ProfileNotFound && store.profiles == old(store.profiles)
    ensures userId in old(store.profiles) ==>
      var p := RecordAnswer(old(store.profiles)[userId], result.is_correct, now);
      store.profiles == SandboxStorage.SaveProfile(old(store.profiles), p, writeOk)
      && e == match GenerateFeedback(p, question, result)
              case None => Failed("division by zero")
              case Some(fb) => Evaluated(result, fb, GenerateInsights(p, question, result, now), p, PerformanceSummary(p))
  {
    var profile := store.GetUserProfile(userId);
    if profile.None? {
      return ProfileNotFound;
    }
    var p := profile.value;
    p := p.(total_questions := p.total_questions + 1);
    if result.is_correct {
      p := p.(correct_answers := p.correct_answers + 1, current_streak := p.current_streak + 1);
      if p.current_streak > p.longest_streak {
        p := p.(longest_streak := p.current_streak);
      }
    } else {
      p := p.(current_streak := 0);
    }
    p := p.(last_quiz_date := Some(now));
    assert p == RecordAnswer(profile.value, result.is_correct, now);
    var _ := store.SaveUserProfile(p, writeOk);
    var feedback := GenerateFeedback(p, question, result);
    if feedback.None? {
      return Failed("division by zero");
    }
    e := Evaluated(result, feedback.value, GenerateInsights(p, question, result, now), p, PerformanceSummary(p));
  }

  /** A successful evaluation is reported even when the profile could not be written. */
  lemma SuccessDespiteFailedSave(p: UserProfile, question: QuizQuestion, result: QuizResult, now: string)
    requires Consistent(p)
    ensures GenerateFeedback(RecordAnswer(p, result.is_correct, now), question, result).Some?
  {
  }
}
