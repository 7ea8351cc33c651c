/**
 * The sandbox question generator: the course catalogue, difficulty and topic
 * selection, extraction of the JSON payload from a fenced model reply, the
 * fallback path, and answer checking.
 *
 * The remote model call and the JSON decoder are not modelled: the call's
 * outcome is a `Reply` and the decoder is the `decode` parameter. The clock,
 * `random.choice` and `random.randint` are inputs (`now`, `draw`, `questionId`).
 */
module QuestionGenerator {
  import opened Wrappers
  import opened PyStr
  import opened Profiles
  import opened FallbackTable

  datatype QuizQuestion = QuizQuestion(
    question_id: string,
    course: string,
    difficulty: string,
    question_text: string,
    question_type: string,
    options: seq<string>,
    correct_answer: string,
    explanation: string,
    topic: string,
    estimated_time: int,
    created_date: string)

  datatype QuizResult = QuizResult(
    question_id: string,
    user_answer: string,
    correct_answer: string,
    is_correct: bool,
    time_taken: int,
    timestamp: string)

  /** One entry of `course_curricula`. */
  datatype Course = Course(topics: seq<string>, description: string, difficulty_levels: seq<string>)

  /** `course_curricula.get(course)`: the four courses the generator knows. */
  function CourseInfo(course: string): (r: Option<Course>)
    ensures r.Some? ==> |r.value.topics| == 8
  {
    if course == "python-basics" then
      Some(Course(
        ["Variables and Data Types", "Control Flow (if/else, loops)", "Functions and Parameters",
         "Lists and Dictionaries", "String Manipulation", "File Operations", "Error Handling",
         "Object-Oriented Programming Basics"],
        "Fundamental Python programming concepts",
        ["beginner", "intermediate"]))
    else if course == "javascript-intro" then
      Some(Course(
        ["Variables (let, const, var)", "Functions and Arrow Functions", "Arrays and Objects",
         "DOM Manipulation", "Event Handling", "Promises and Async/Await", "ES6+ Features",
         "Basic Node.js"],
        "JavaScript fundamentals for web development",
        ["beginner", "intermediate"]))
    else if course == "data-science" then
      Some(Course(
        ["Data Types and Structures", "Statistics and Probability", "Pandas DataFrames",
         "Data Visualization", "Machine Learning Basics", "Data Cleaning", "NumPy Arrays",
         "Hypothesis Testing"],
        "Introduction to data science concepts",
        ["intermediate", "advanced"]))
    else if course == "web-dev" then
      Some(Course(
        ["HTML5 Semantics", "CSS3 and Flexbox", "Responsive Design", "JavaScript DOM",
         "RESTful APIs", "Git and Version Control", "Web Security Basics",
         "Performance Optimization"],
        "Modern web development practices",
        ["beginner", "intermediate", "advanced"]))
    else None
  }

  /** Every (course, topic) the fallback table answers for is a topic of that course's curriculum. */
  lemma TableTopicsAreCurriculumTopics(course: string, topic: string)
    requires Lookup(course, topic).Some?
    ensures CourseInfo(course).Some? && topic in CourseInfo(course).value.topics
  {
  }

  // ---------------------------------------------------------------- difficulty

  /**
   * `_determine_difficulty`: "beginner" with no answers yet; otherwise the
   * intermediate test (accuracy >= 0.8 over at least 5 answers) is tried before
   * the advanced one (accuracy >= 0.9 over at least 10).
   */
  function DetermineDifficulty(p: UserProfile): string {
    var c := p.correct_answers;
    var t := p.total_questions;
    if t == 0 then "beginner"
    else if QuotientAtLeast(c, t, 4, 5) && t >= 5 then "intermediate"
    else if QuotientAtLeast(c, t, 9, 10) && t >= 10 then "advanced"
    else "beginner"
  }

  lemma ZeroAnswersIsBeginner(p: UserProfile)
    requires p.total_questions == 0
    ensures DetermineDifficulty(p) == "beginner"
  {
  }

  /**
   * Because the intermediate test comes first and the advanced test implies it,
   * the result is "intermediate" exactly when at least 5 answers are at least
   * 80% correct, and "beginner" otherwise; "advanced" is never chosen.
   */
  lemma DifficultyIsIntermediateOrBeginner(p: UserProfile)
    ensures DetermineDifficulty(p) == "intermediate"
            <==> p.total_questions >= 5 && 5 * p.correct_answers >= 4 * p.total_questions
    ensures DetermineDifficulty(p) != "intermediate" ==> DetermineDifficulty(p) == "beginner"
    ensures DetermineDifficulty(p) != "advanced"
  {
    var c := p.correct_answers;
    var t := p.total_questions;
    if t != 0 && QuotientAtLeast(c, t, 9, 10) && t >= 10 {
      assert 10 * c >= 9 * t;
      assert 5 * c >= 4 * t;
    }
  }

  /** Ten correct answers out of ten give "intermediate", not "advanced". */
  lemma PerfectTenIsIntermediate(p: UserProfile)
    requires p.total_questions == 10 && p.correct_answers == 10
    ensures DetermineDifficulty(p) == "intermediate"
  {
  }

  /** The choice ignores the course's own `difficulty_levels`: a data-science newcomer gets "beginner". */
  lemma DifficultyIgnoresCourseLevels(p: UserProfile)
    requires p.total_questions == 0 && p.enrolled_course == Some("data-science")
    ensures DetermineDifficulty(p) !in CourseInfo("data-science").value.difficulty_levels
  {
  }

  /** `_select_topic`: `random.choice` over the course's topics, the draw being an input. */
  function SelectTopic(course: string, draw: nat): (topic: string)
    requires CourseInfo(course).Some?
    ensures topic in CourseInfo(course).value.topics
  {
    Choose(CourseInfo(course).value.topics, draw)
  }

  // ------------------------------------------------------------ answer checking

  /** `s.strip().upper()` */
  function Clean(s: string): string {
    Upper(Strip(s))
  }

  predicate IsLetterAnswer(a: string) {
    a == "A" || a == "B" || a == "C" || a == "D"
  }

  predicate IsDigitAnswer(a: string) {
    a == "1" || a == "2" || a == "3" || a == "4"
  }

  /** `letter_map`: "1" -> "A" ... "4" -> "D". */
  function DigitLetter(a: string): (r: string)
    requires IsDigitAnswer(a)
    ensures IsLetterAnswer(r)
  {
    if a == "1" then "A" else if a == "2" then "B" else if a == "3" then "C" else "D"
  }

  /** `chr(65 + i) == answer`: the answer is the single character with code point 65 + i. */
  predicate IsLetterOf(answer: string, i: nat) {
    |answer| == 1 && answer[0] as int == 65 + i
  }

  /** The index of the first option at or after `i` whose lower-cased text contains `needle`. */
  function FirstMatch(options: seq<string>, needle: string, i: nat): (r: Option<nat>)
    requires i <= |options|
    ensures r.Some? ==> i <= r.value < |options| && Contains(Lower(options[r.value]), needle)
    ensures r.Some? ==> forall j :: i <= j < r.value ==> !Contains(Lower(options[j]), needle)
    ensures r.None? ==> forall j :: i <= j < |options| ==> !Contains(Lower(options[j]), needle)
    decreases |options| - i
  {
    if i == |options| then None
    else if Contains(Lower(options[i]), needle) then Some(i)
    else FirstMatch(options, needle, i + 1)
  }

  /**
   * Whether `check_answer` accepts `userAnswer`: a letter A-D (after strip and
   * upper-casing) is compared with the cleaned key; else a digit 1-4 is mapped to
   * its letter first; else the first option whose lower-cased text contains the
   * lower-cased raw answer names the letter; no such option means incorrect.
   */
  function AnswerIsCorrect(options: seq<string>, correctAnswer: string, userAnswer: string): bool {
    var ua := Clean(userAnswer);
    var ca := Clean(correctAnswer);
    if IsLetterAnswer(ua) then ua == ca
    else if IsDigitAnswer(ua) then DigitLetter(ua) == ca
    else
      match FirstMatch(options, Lower(userAnswer), 0)
      case None => false
      case Some(i) => IsLetterOf(ca, i)
  }

  /** `check_answer`, with the timestamp as an input. */
  method CheckAnswer(question: QuizQuestion, userAnswer: string, now: string) returns (r: QuizResult)
    ensures r.question_id == question.question_id && r.correct_answer == question.correct_answer
    ensures r.user_answer == userAnswer && r.time_taken == 0 && r.timestamp == now
    ensures r.is_correct == AnswerIsCorrect(question.options, question.correct_answer, userAnswer)
  {
    var userClean := Clean(userAnswer);
    var correctClean := Clean(question.correct_answer);
    var isCorrect: bool;
    if IsLetterAnswer(userClean) {
      isCorrect := userClean == correctClean;
    } else if IsDigitAnswer(userClean) {
      isCorrect := DigitLetter(userClean) == correctClean;
    } else {
      var options := question.options;
      var needle := Lower(userAnswer);
      isCorrect := false;
      var i := 0;
      while i < |options|
        invariant 0 <= i <= |options|
        invariant FirstMatch(options, needle, 0) == FirstMatch(options, needle, i)
        invariant !isCorrect
      {
        if Contains(Lower(options[i]), needle) {
          isCorrect := IsLetterOf(correctClean, i);
          assert FirstMatch(options, needle, 0) == Some(i);
          break;
        }
        i := i + 1;
      }
      assert isCorrect == match FirstMatch(options, needle, 0) case None => false case Some(j) => IsLetterOf(correctClean, j);
    }
    r := QuizResult(question.question_id, userAnswer, question.correct_answer, isCorrect, 0, now);
  }

  /** A letter answer is judged on its own, whatever the options say. */
  lemma LetterAnswerComparesKeys(options: seq<string>, correctAnswer: string, userAnswer: string)
    requires IsLetterAnswer(Clean(userAnswer))
    ensures AnswerIsCorrect(options, correctAnswer, userAnswer) <==> Clean(userAnswer) == Clean(correctAnswer)
  {
  }

  /** A digit answer is mapped to its letter and never matched as option text. */
  lemma DigitAnswerMapsToLetter(options: seq<string>, correctAnswer: string, userAnswer: string)
    requires IsDigitAnswer(Clean(userAnswer))
    ensures AnswerIsCorrect(options, correctAnswer, userAnswer)
            <==> DigitLetter(Clean(userAnswer)) == Clean(correctAnswer)
  {
  }

  /** Otherwise the first matching option decides, and later options are ignored. */
  lemma {:induction false} FirstMatchingOptionDecides(options: seq<string>, correctAnswer: string, userAnswer: string, i: nat)
    requires !IsLetterAnswer(Clean(userAnswer)) && !IsDigitAnswer(Clean(userAnswer))
    requires i < |options| && Contains(Lower(options[i]), Lower(userAnswer))
    requires forall j :: 0 <= j < i ==> !Contains(Lower(options[j]), Lower(userAnswer))
    ensures AnswerIsCorrect(options, correctAnswer, userAnswer) <==> IsLetterOf(Clean(correctAnswer), i)
  {
    FirstMatchIs(options, Lower(userAnswer), 0, i);
  }

  lemma {:induction false} FirstMatchIs(options: seq<string>, needle: string, from: nat, i: nat)
    requires from <= i < |options| && Contains(Lower(options[i]), needle)
    requires forall j :: from <= j < i ==> !Contains(Lower(options[j]), needle)
    ensures FirstMatch(options, needle, from) == Some(i)
    decreases i - from
  {
    if from < i {
      FirstMatchIs(options, needle, from + 1, i);
    }
  }

  /** An answer that is no letter, no digit and in no option is incorrect, and nothing is raised. */
  lemma NoMatchIsIncorrect(options: seq<string>, correctAnswer: string, userAnswer: string)
    requires !IsLetterAnswer(Clean(userAnswer)) && !IsDigitAnswer(Clean(userAnswer))
    requires forall j :: 0 <= j < |options| ==> !Contains(Lower(options[j]), Lower(userAnswer))
    ensures !AnswerIsCorrect(options, correctAnswer, userAnswer)
  {
  }

  /** The empty answer is contained in every option, so it selects the first one. */
  lemma EmptyAnswerSelectsFirstOption(options: seq<string>, correctAnswer: string)
    requires options != []
    ensures AnswerIsCorrect(options, correctAnswer, "") <==> IsLetterOf(Clean(correctAnswer), 0)
  {
    EmptyIsContained(Lower(options[0]));
    assert Clean("") == "";
    assert Lower("") == "";
  }

  /** Letters are compared case- and whitespace-insensitively: " b " is the answer "B". */
  lemma SpacedLowerLetterIsThatLetter(options: seq<string>)
    ensures AnswerIsCorrect(options, "B", " b ")
  {
    CleanSpacedLowerB();
    CleanUpperB();
    LetterAnswerComparesKeys(options, "B", " b ");
  }

  lemma CleanUpperB()
    ensures Clean("B") == "B"
  {
    assert Strip("B") == "B" by {
      assert !IsSpace('B');
      StripUnchanged("B");
    }
    assert Upper("B") == "B" by {
      assert Upper("B")[0] == 'B';
    }
  }

  lemma CleanSpacedLowerB()
    ensures Clean(" b ") == "B"
  {
    assert LStrip(" b ") == "b ";
    assert RStrip("b ") == "b";
    assert Strip(" b ") == "b";
  }

  // ------------------------------------------------------------ fence extraction

  /**
   * The payload extraction of `_generate_ai_question`: the stripped text after the
   * first "```json" up to the next "```"; failing that, after the first "```" up
   * to the next one; failing that, the text itself. A missing closing fence makes
   * `find` answer -1, and the slice then ends one character before the end.
   */
  function ExtractFenced(text: string): string {
    if Contains(text, "```json") then
      var start := Find(text, "```json", 0) + 7;
      Strip(PySlice(text, start, Find(text, "```", start)))
    else if Contains(text, "```") then
      var start := Find(text, "```", 0) + 3;
      Strip(PySlice(text, start, Find(text, "```", start)))
    else text
  }

  /** No occurrence of `sub` fits inside the slice `s[lo..lo + |u|]` when that slice is `u` and `u` holds none. */
  lemma NoneInSlice(s: string, lo: nat, u: string, sub: string)
    requires lo + |u| <= |s| && s[lo..lo + |u|] == u && !Contains(u, sub)
    ensures forall k :: lo <= k && k + |sub| <= lo + |u| ==> !OccursAt(s, sub, k)
  {
    forall k | lo <= k && k + |sub| <= lo + |u|
      ensures !OccursAt(s, sub, k)
    {
      var inU, inS := u[k - lo..k - lo + |sub|], s[k..k + |sub|];
      forall j | 0 <= j < |sub|
        ensures inU[j] == inS[j]
      {
        assert inU[j] == s[lo..lo + |u|][k - lo + j];
      }
      assert inU == inS;
      assert !OccursAt(u, sub, k - lo);
    }
  }

  /**
   * The first "```json" at `open` and the first "```" after it at `close`: the
   * extraction is the stripped text in between.
   */
  lemma JsonFenceAt(text: string, open: nat, close: nat, body: string)
    requires OccursAt(text, "```json", open) && forall k :: 0 <= k < open ==> !OccursAt(text, "```json", k)
    requires open + 7 <= close && OccursAt(text, "```", close)
    requires forall k :: open + 7 <= k < close ==> !OccursAt(text, "```", k)
    requires text[open + 7..close] == body
    ensures ExtractFenced(text) == Strip(body)
  {
    FindIsFirst(text, "```json", 0, open);
    FindIsFirst(text, "```", open + 7, close);
  }

  /** As `JsonFenceAt`, for a plain "```" fence in text without "```json". */
  lemma PlainFenceAt(text: string, open: nat, close: nat, body: string)
    requires !Contains(text, "```json")
    requires OccursAt(text, "```", open) && forall k :: 0 <= k < open ==> !OccursAt(text, "```", k)
    requires open + 3 <= close && OccursAt(text, "```", close)
    requires forall k :: open + 3 <= k < close ==> !OccursAt(text, "```", k)
    requires text[open + 3..close] == body
    ensures ExtractFenced(text) == Strip(body)
  {
    FindIsFirst(text, "```", 0, open);
    FindIsFirst(text, "```", open + 3, close);
  }

  /**
   * The first "```json" at `open` with no "```" after it: `find` answers -1 and
   * the extraction ends one character before the end of the text.
   */
  lemma JsonFenceUnclosedAt(text: string, open: nat, rest: string)
    requires OccursAt(text, "```json", open) && forall k :: 0 <= k < open ==> !OccursAt(text, "```json", k)
    requires open + 7 < |text| && forall k :: open + 7 <= k ==> !OccursAt(text, "```", k)
    requires text[open + 7..|text| - 1] == rest
    ensures ExtractFenced(text) == Strip(rest)
  {
    FindIsFirst(text, "```json", 0, open);
  }

  /** `ClosedJsonFence` on text described by its slices. */
  lemma ClosedJsonFenceSlices(text: string, pre: string, body: string)
    requires |pre| + |body| + 10 <= |text|
    requires text[..|pre| + 6] == pre + "```jso" && text[|pre|..|pre| + 7] == "```json"
    requires text[|pre| + 7..|pre| + |body| + 9] == body + "``"
    requires text[|pre| + |body| + 7..|pre| + |body| + 10] == "```"
    requires text[|pre| + 7..|pre| + |body| + 7] == body
    requires !Contains(pre + "```jso", "```json") && !Contains(body + "``", "```")
    ensures ExtractFenced(text) == Strip(body)
  {
    NoneInSlice(text, 0, pre + "```jso", "```json");
    NoneInSlice(text, |pre| + 7, body + "``", "```");
    JsonFenceAt(text, |pre|, |pre| + |body| + 7, body);
  }

  /** `ClosedPlainFence` on text described by its slices. */
  lemma ClosedPlainFenceSlices(text: string, pre: string, body: string)
    requires |pre| + |body| + 6 <= |text| && !Contains(text, "```json")
    requires text[..|pre| + 2] == pre + "``" && text[|pre|..|pre| + 3] == "```"
    requires text[|pre| + 3..|pre| + |body| + 5] == body + "``"
    requires text[|pre| + |body| + 3..|pre| + |body| + 6] == "```"
    requires text[|pre| + 3..|pre| + |body| + 3] == body
    requires !Contains(pre + "``", "```") && !Contains(body + "``", "```")
    ensures ExtractFenced(text) == Strip(body)
  {
    NoneInSlice(text, 0, pre + "``", "```");
    NoneInSlice(text, |pre| + 3, body + "``", "```");
    PlainFenceAt(text, |pre|, |pre| + |body| + 3, body);
  }

  /**
   * A closed "```json" fence yields its stripped contents, provided no earlier
   * "```json" ends before the fence does and no "```" ends before the closing one.
   */
  lemma ClosedJsonFence(pre: string, body: string, post: string)
    requires !Contains(pre + "```jso", "```json") && !Contains(body + "``", "```")
    ensures ExtractFenced(pre + "```json" + body + "```" + post) == Strip(body)
  {
    var text := pre + "```json" + body + "```" + post;
    assert text[..|pre| + 6] == pre + "```jso";
    assert text[|pre|..|pre| + 7] == "```json";
    assert text[|pre| + 7..|pre| + |body| + 9] == body + "``";
    assert text[|pre| + |body| + 7..|pre| + |body| + 10] == "```";
    assert text[|pre| + 7..|pre| + |body| + 7] == body;
    ClosedJsonFenceSlices(text, pre, body);
  }

  /**
   * A closed plain fence yields its stripped contents when "```json" occurs
   * nowhere, no earlier "```" ends before the fence does and no "```" ends
   * before the closing one.
   */
  lemma ClosedPlainFence(pre: string, body: string, post: string)
    requires !Contains(pre + "``", "```") && !Contains(body + "``", "```")
    requires !Contains(pre + "```" + body + "```" + post, "```json")
    ensures ExtractFenced(pre + "```" + body + "```" + post) == Strip(body)
  {
    var text := pre + "```" + body + "```" + post;
    assert text[..|pre| + 2] == pre + "``";
    assert text[|pre|..|pre| + 3] == "```";
    assert text[|pre| + 3..|pre| + |body| + 5] == body + "``";
    assert text[|pre| + |body| + 3..|pre| + |body| + 6] == "```";
    assert text[|pre| + 3..|pre| + |body| + 3] == body;
    ClosedPlainFenceSlices(text, pre, body);
  }

  /** Text with no fence at all is passed through unchanged. */
  lemma NoFenceUnchanged(text: string)
    requires !Contains(text, "```")
    ensures ExtractFenced(text) == text
  {
    if Contains(text, "```json") {
      var k :| OccursAt(text, "```json", k);
      assert text[k..k + 3] == text[k..k + 7][..3];
      assert OccursAt(text, "```", k);
      assert false;
    }
  }

  /** An unclosed "```json" fence loses the last character of what follows it. */
  lemma UnclosedJsonFenceDropsLastChar(pre: string, body: string)
    requires !Contains(pre + "```jso", "```json") && !Contains(body, "```") && body != []
    ensures ExtractFenced(pre + "```json" + body) == Strip(body[..|body| - 1])
  {
    var text := pre + "```json" + body;
    assert text[..|pre| + 6] == pre + "```jso";
    assert text[|pre|..|pre| + 7] == "```json";
    assert text[|pre| + 7..] == body;
    assert text[|pre| + 7..|text| - 1] == body[..|body| - 1];
    NoneInSlice(text, 0, pre + "```jso", "```json");
    NoneInSlice(text, |pre| + 7, body, "```");
    JsonFenceUnclosedAt(text, |pre|, body[..|body| - 1]);
  }

  // ------------------------------------------------------------ question creation

  /**
   * What the decoder found in a reply: each key the question needs, if present.
   * A reply that decodes to something other than an object has no keys.
   */
  datatype ReplyData = ReplyData(
    question_text: Option<string>,
    options: Option<seq<string>>,
    correct_answer: Option<string>,
    explanation: Option<string>,
    estimated_time: Option<int>)

  /** The outcome of the model call: an exception, or the reply's message content. */
  datatype Reply = CallFailed | Replied(content: string)

  /**
   * The question dictionary, when all four required keys are present
   * (`question_data["..."]` raises otherwise); `estimated_time` defaults to 60.
   */
  function Complete(d: ReplyData): (r: Option<QuestionData>)
    ensures r.Some? <==> d.question_text.Some? && d.options.Some? && d.correct_answer.Some? && d.explanation.Some?
    ensures r.Some? ==> r.value.estimated_time == d.estimated_time.GetOr(60)
  {
    if d.question_text.Some? && d.options.Some? && d.correct_answer.Some? && d.explanation.Some? then
      Some(QuestionData(d.question_text.value, d.options.value, d.correct_answer.value,
                        d.explanation.value, d.estimated_time.GetOr(60)))
    else None
  }

  /** `_create_question_from_data`, with the id and the creation time as inputs. */
  function FromData(course: string, topic: string, difficulty: string, d: QuestionData,
                    questionId: string, now: string): (q: QuizQuestion)
    ensures q.course == course && q.topic == topic && q.difficulty == difficulty
    ensures q.question_type == "multiple_choice" && q.question_id == questionId && q.created_date == now
    ensures q.question_text == d.question_text && q.options == d.options
    ensures q.correct_answer == d.correct_answer && q.explanation == d.explanation
    ensures q.estimated_time == d.estimated_time
  {
    QuizQuestion(questionId, course, difficulty, d.question_text, "multiple_choice", d.options,
                 d.correct_answer, d.explanation, topic, d.estimated_time, now)
  }

  /**
   * What the model's reply supplies, if anything: None when the course is
   * unknown, the call fails, the extracted text does not decode, or a key is missing.
   */
  function ReplyQuestion(course: string, reply: Reply, decode: string -> Option<ReplyData>): Option<QuestionData> {
    if CourseInfo(course).None? || reply.CallFailed? then None
    else
      match decode(ExtractFenced(Strip(reply.content)))
      case None => None
      case Some(d) => Complete(d)
  }

  /**
   * `_generate_ai_question` of the sandbox generator. Every failure (unknown
   * course, failed call, undecodable reply, missing key) ends in the fallback
   * question, so a question is always produced.
   */
  function GenerateAiQuestion(course: string, topic: string, difficulty: string, reply: Reply,
                              decode: string -> Option<ReplyData>, draw: nat,
                              questionId: string, now: string): (q: QuizQuestion)
    ensures q.course == course && q.topic == topic && q.difficulty == difficulty
    ensures q.question_type == "multiple_choice" && q.created_date == now
    ensures ReplyQuestion(course, reply, decode).Some? ==>
              q == FromData(course, topic, difficulty, ReplyQuestion(course, reply, decode).value, questionId, now)
    ensures ReplyQuestion(course, reply, decode).None? ==>
              q == FromData(course, topic, difficulty, FallbackQuestion(course, topic, difficulty, draw), questionId, now)
  {
    var data := match ReplyQuestion(course, reply, decode)
                case Some(d) => d
                case None => FallbackQuestion(course, topic, difficulty, draw);
    FromData(course, topic, difficulty, data, questionId, now)
  }

  /** When the model cannot be used, the question has four options and a letter key. */
  lemma FallbackQuestionIsWellFormed(course: string, topic: string, difficulty: string,
                                     decode: string -> Option<ReplyData>, draw: nat,
                                     questionId: string, now: string)
    ensures var q := GenerateAiQuestion(course, topic, difficulty, CallFailed, decode, draw, questionId, now);
            |q.options| == 4 && IsLetterAnswer(q.correct_answer)
  {
  }

  /** An unknown course never reaches the model and gets the generic question, keyed "B". */
  lemma UnknownCourseGetsGenericQuestion(course: string, topic: string, difficulty: string, reply: Reply,
                                         decode: string -> Option<ReplyData>, draw: nat,
                                         questionId: string, now: string)
    requires CourseInfo(course).None?
    ensures var q := GenerateAiQuestion(course, topic, difficulty, reply, decode, draw, questionId, now);
            q.correct_answer == "B" && q.estimated_time == 60
            && q.question_text == GenericQuestion(course, topic, difficulty).question_text
  {
    assert ReplyQuestion(course, reply, decode).None?;
    assert Lookup(course, topic).None?;
    assert Entries(course, topic) == [];
  }

  /**
   * `generate_personalized_question`: None without a profile, without a
   * (non-empty) enrolled course, or for an unknown course; otherwise a question on
   * a curriculum topic at the difficulty the profile's record selects.
   */
  function GeneratePersonalizedQuestion(profile: Option<UserProfile>, topicDraw: nat, reply: Reply,
                                        decode: string -> Option<ReplyData>, draw: nat,
                                        questionId: string, now: string): (r: Option<QuizQuestion>)
    ensures r.Some? <==> profile.Some? && profile.value.enrolled_course.Some?
                         && profile.value.enrolled_course.value != ""
                         && CourseInfo(profile.value.enrolled_course.value).Some?
    ensures r.Some? ==> r.value.course == profile.value.enrolled_course.value
                        && r.value.topic in CourseInfo(r.value.course).value.topics
                        && r.value.difficulty == DetermineDifficulty(profile.value)
  {
    if profile.None? || profile.value.enrolled_course.None? || profile.value.enrolled_course.value == "" then None
    else
      var course := profile.value.enrolled_course.value;
      if CourseInfo(course).None? then None
      else
        var difficulty := DetermineDifficulty(profile.value);
        var topic := SelectTopic(course, topicDraw);
        Some(GenerateAiQuestion(course, topic, difficulty, reply, decode, draw, questionId, now))
  }

  /** A personalized question is never at the "advanced" level. */
  lemma PersonalizedNeverAdvanced(profile: Option<UserProfile>, topicDraw: nat, reply: Reply,
                                  decode: string -> Option<ReplyData>, draw: nat,
                                  questionId: string, now: string)
    ensures var r := GeneratePersonalizedQuestion(profile, topicDraw, reply, decode, draw, questionId, now);
            r.Some? ==> r.value.difficulty in {"beginner", "intermediate"}
  {
    if profile.Some? {
      DifficultyIsIntermediateOrBeginner(profile.value);
    }
  }

  /** `generate_sample_question`: None for an unknown course, else a beginner question on one of its topics. */
  function GenerateSampleQuestion(course: string, topicDraw: nat, reply: Reply,
                                  decode: string -> Option<ReplyData>, draw: nat,
                                  questionId: string, now: string): (r: Option<QuizQuestion>)
    ensures r.Some? <==> CourseInfo(course).Some?
    ensures r.Some? ==> r.value.difficulty == "beginner" && r.value.course == course
                        && r.value.topic in CourseInfo(course).value.topics
  {
    if CourseInfo(course).None? then None
    else Some(GenerateAiQuestion(course, SelectTopic(course, topicDraw), "beginner", reply, decode, draw, questionId, now))
  }
}
