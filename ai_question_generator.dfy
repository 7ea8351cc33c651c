/**
 * The question generator variant without a fallback table. Its course catalogue,
 * `_determine_difficulty`, `_select_topic`, `check_answer` and payload extraction
 * are the same code as the sandbox generator's and are used from there; what
 * differs is that every failure of `_generate_ai_question` yields None.
 */
module AiQuestionGenerator {
  import opened Wrappers
  import opened Profiles
  import opened FallbackTable
  import opened QuestionGenerator

  /**
   * `_generate_ai_question`: a question built from the reply, or None when the
   * course is unknown, the call fails, the reply does not decode, or a key is missing.
   */
  function GenerateAiQuestion(course: string, topic: string, difficulty: string, reply: Reply,
                              decode: string -> Option<ReplyData>, questionId: string, now: string): (r: Option<QuizQuestion>)
    ensures r.None? <==> ReplyQuestion(course, reply, decode).None?
    ensures r.Some? ==> r.value == FromData(course, topic, difficulty, ReplyQuestion(course, reply, decode).value, questionId, now)
  {
    match ReplyQuestion(course, reply, decode)
    case None => None
    case Some(d) => Some(FromData(course, topic, difficulty, d, questionId, now))
  }

  /** A failed call gives no question at all. */
  lemma FailedCallGivesNone(course: string, topic: string, difficulty: string,
                            decode: string -> Option<ReplyData>, questionId: string, now: string)
    ensures GenerateAiQuestion(course, topic, difficulty, CallFailed, decode, questionId, now) == None
  {
  }

  /**
   * Whenever this generator produces a question, the sandbox generator produces
   * the same one; where this one gives None, the sandbox one falls back.
   */
  lemma AgreesWithSandboxGenerator(course: string, topic: string, difficulty: string, reply: Reply,
                                   decode: string -> Option<ReplyData>, draw: nat,
                                   questionId: string, now: string)
    ensures var sandbox := QuestionGenerator.GenerateAiQuestion(course, topic, difficulty, reply, decode, draw, questionId, now);
            match GenerateAiQuestion(course, topic, difficulty, reply, decode, questionId, now)
            case Some(q) => sandbox == q
            case None => sandbox == FromData(course, topic, difficulty, FallbackQuestion(course, topic, difficulty, draw), questionId, now)
  {
  }

  /** `generate_personalized_question`, passing on a None from question generation. */
  function GeneratePersonalizedQuestion(profile: Option<UserProfile>, topicDraw: nat, reply: Reply,
                                        decode: string -> Option<ReplyData>,
                                        questionId: string, now: string): (r: Option<QuizQuestion>)
    ensures r.Some? ==> profile.Some? && profile.value.enrolled_course.Some?
                        && r.value.course == profile.value.enrolled_course.value
                        && CourseInfo(r.value.course).Some?
                        && r.value.topic in CourseInfo(r.value.course).value.topics
                        && r.value.difficulty == DetermineDifficulty(profile.value)
    ensures r.Some? <==> profile.Some? && profile.value.enrolled_course.Some?
                         && profile.value.enrolled_course.value != ""
                         && CourseInfo(profile.value.enrolled_course.value).Some?
                         && ReplyQuestion(profile.value.enrolled_course.value, reply, decode).Some?
    ensures reply.CallFailed? ==> r.None?
  {
    if profile.None? || profile.value.enrolled_course.None? || profile.value.enrolled_course.value == "" then None
    else
      var course := profile.value.enrolled_course.value;
      if CourseInfo(course).None? then None
      else GenerateAiQuestion(course, SelectTopic(course, topicDraw), DetermineDifficulty(profile.value),
                              reply, decode, questionId, now)
  }

  /** `generate_sample_question`: None for an unknown course, else a beginner question if the reply is usable. */
  function GenerateSampleQuestion(course: string, topicDraw: nat, reply: Reply,
                                  decode: string -> Option<ReplyData>,
                                  questionId: string, now: string): (r: Option<QuizQuestion>)
    ensures CourseInfo(course).None? ==> r.None?
    ensures r.Some? ==> r.value.difficulty == "beginner" && r.value.course == course
                        && r.value.topic in CourseInfo(course).value.topics
    ensures CourseInfo(course).Some? ==> (r.Some? <==> ReplyQuestion(course, reply, decode).Some?)
  {
    if CourseInfo(course).None? then None
    else GenerateAiQuestion(course, SelectTopic(course, topicDraw), "beginner", reply, decode, questionId, now)
  }
}
