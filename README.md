# AutomatedAIpowered quiz engine, modelled in Dafny

This project models the core of a chat-based learning bot. The bot has these parts:

- The question generator chooses a difficulty and a curriculum topic for the user. It asks a language model for a multiple-choice question. When the model cannot be used, it falls back to a built-in question table or to a templated question.
- The answer checker accepts a letter, a digit or part of an option's text.
- The answer evaluator records the answer on the user's learning profile, saves the profile, and derives feedback, learning insights, a performance summary, a preferred difficulty and recommendations.
- Two profile stores keep the records. The sandbox store keeps one file per user. The local store keeps one users dictionary and one sessions list.
- The slide generator splits a Markdown outline into slides and parses each slide into a title, bullets and speaker notes.

Modules:

| module | file | models |
|---|---|---|
| `Wrappers` | wrappers.dfy | `Option` |
| `PyStr` | pystr.dfy | the Python `str` operations the code uses, with Python's edge cases: `isspace`, `strip`, `find` giving -1, clamped slices, `splitlines`, `replace`, `strip(c)`, `join` |
| `Profiles` | profiles.dfy | the `UserProfile` dataclass, which both stores declare identically; exact accuracy comparisons |
| `FallbackTable` | fallback_table.dfy | the question table and the generic question of `_get_fallback_question` |
| `QuestionGenerator` | question_generator.dfy | src/sandbox_question_generator.py |
| `AiQuestionGenerator` | ai_question_generator.dfy | what src/ai_question_generator.py does differently (no fallback) |
| `AnswerEvaluator` | answer_evaluator.dfy | src/sandbox_answer_evaluator.py |
| `SandboxStorage` | sandbox_storage.dfy | src/sandbox_storage.py, as a class over two maps |
| `LocalStorage` | local_storage.dfy | src/local_storage.py, as a class over two file states |
| `Presentation` | presentation.dfy | `split_slides` and `parse_slide` of scripts/generate_presentation.py |

Inputs the code takes from the environment are parameters in the model:

- The clock is the string `now`.
- `random.choice` is a `draw: nat`, which picks element `draw % n`.
- The generated question id is `questionId`.
- Whether a file write succeeds is `writeOk`.
- The language-model call is a `Reply`: either `CallFailed` or `Replied(content)`.
- JSON decoding is the function parameter `decode`.

Python's float comparisons `c / t >= 0.8` become exact integer cross-multiplications. `Profiles.QuotientAtLeast` does this, flipping the comparison for a negative divisor. `Profiles.QuotientAtLeastIsDivision` proves it equal to comparing the true quotients.

Two behaviours of the code are worth stating outright, because a reader would expect otherwise:

- **Difficulty.** `_determine_difficulty` tries the "intermediate" test (accuracy >= 0.8 over at least 5 answers) before the "advanced" one (accuracy >= 0.9 over at least 10), at src/sandbox_question_generator.py:149-152. The intermediate test is implied by the advanced one, so "advanced" is never returned.
- **Failed saves.** `evaluate_answer` (src/sandbox_answer_evaluator.py:49) and the sandbox `enroll_user` (src/sandbox_storage.py:78-80) ignore what the save returns and report success even when the write fails.

`check_answer`, `_determine_difficulty`, `_select_topic`, the course catalogue and the fence extraction in src/ai_question_generator.py repeat the sandbox generator's code line for line. They are modelled once, in `QuestionGenerator`.

## Model

| member | source | states |
|---|---|---|
| Profiles.NewProfile | src/sandbox_storage.py:8-27 | a new profile has zero counters and streaks, no last quiz date and `completed_course` false; the default preferences are installed only when none are given, and a supplied map is kept |
| Profiles.NewProfileConsistent | src/sandbox_storage.py:8-27 | a new profile satisfies correct <= total and 0 <= current streak <= longest streak |
| Profiles.EmptyPreferencesKept | src/sandbox_storage.py:21-27 | an empty preferences map is not None, so `__post_init__` keeps it; with None the defaults are installed |
| Profiles.QuotientAtLeastIsDivision | src/sandbox_question_generator.py:147-151 | the cross-multiplied threshold test holds exactly when the true quotient `c / t` reaches `num / den`, for either sign of `t` |
| Profiles.QuotientAtLeast | src/sandbox_question_generator.py:147-151 | no contract of its own; `Profiles.QuotientAtLeastIsDivision` proves it is the comparison `c / t >= num / den` of true quotients |
| Profiles.AccuracyAtLeastIsDivision | src/sandbox_answer_evaluator.py:174-191 | the guarded test is the comparison of `c / t if t > 0 else 0` with `num / den`, so with no answers only a zero threshold is reached |
| Profiles.AccuracyAtLeast | src/sandbox_answer_evaluator.py:174-191 | no contract of its own; `Profiles.AccuracyAtLeastIsDivision` states its meaning |
| PyStr.RStrip | scripts/generate_presentation.py:102 | `rstrip` removes only trailing whitespace, and what is left does not end with whitespace |
| PyStr.Strip | src/sandbox_question_generator.py:486-487 | `strip` shortens the string and leaves no whitespace at either end; the result is empty exactly when the string is all whitespace; `PyStr.StripIsSlice` shows it is the slice between the leading and the trailing whitespace |
| PyStr.StripUnchanged | src/sandbox_question_generator.py:486-487 | a string without surrounding whitespace is its own strip |
| PyStr.StripIsSlice | src/sandbox_question_generator.py:486-487 | `strip` answers the slice of the text between its leading and its trailing whitespace: the slice starts where `lstrip` stops, and only whitespace lies outside it |
| PyStr.Find | src/sandbox_question_generator.py:216-217 | `find` answers the first occurrence at or after `start`, and -1 exactly when there is none there |
| PyStr.FindIsFirst | src/sandbox_question_generator.py:216-217 | an occurrence with none before it is what `find` answers |
| PyStr.Contains | src/sandbox_question_generator.py:215 | `sub in s` holds exactly when `sub` occurs at some index |
| PyStr.EmptyIsContained | src/sandbox_question_generator.py:499 | the empty string is contained in every string |
| PyStr.Upper | src/sandbox_question_generator.py:486 | `upper` maps each character to its upper-case form and keeps the length |
| PyStr.Lower | src/sandbox_question_generator.py:499 | `lower` maps each character to its lower-case form and keeps the length |
| PyStr.ReplaceChar | src/sandbox_question_generator.py:456 | `course.replace('-', ' ')` replaces exactly the dashes and keeps the length |
| PyStr.StripChar | scripts/generate_presentation.py:70 | `strip('*')` leaves no `*` at either end and never lengthens the text; `PyStr.StripCharIsSlice` shows that only end copies of `*` are removed |
| PyStr.StripCharIsSlice | scripts/generate_presentation.py:70 | `strip('*')` answers a slice of the text with only `*` outside it, so nothing but leading and trailing `*` is removed |
| PyStr.SplitLines | scripts/generate_presentation.py:56 | `splitlines` gives no line for empty text, at least one otherwise, and no line holds a line boundary; `PyStr.SplitLinesSegments` shows the lines are the segments between boundaries |
| PyStr.SplitLinesSegments | scripts/generate_presentation.py:56 | the lines of `splitlines` are the segments of the text between consecutive line boundaries ("\r\n" being one): the first starts at 0, each ends at a boundary or at the end, the next starts right after that boundary, and at most one boundary follows the last |
| PyStr.RemoveAll | scripts/generate_presentation.py:59 | `replace("##", "")` never lengthens the text; `PyStr.RemoveAllAbsent` and `PyStr.RemoveAllCutsFirst` state what it leaves |
| PyStr.RemoveAllAbsent | scripts/generate_presentation.py:59 | text with no occurrence of the pattern is returned unchanged |
| PyStr.RemoveAllCutsFirst | scripts/generate_presentation.py:59 | occurrences are cut left to right: when none ends before the one right after `a`, `a` is kept whole, that occurrence is cut, and the scan resumes after it |
| PyStr.Join | scripts/generate_presentation.py:102 | joining nothing gives "" and joining one line gives that line; `PyStr.JoinAppend` states every longer join |
| PyStr.JoinAppend | scripts/generate_presentation.py:102 | joining one more line appends the separator and that line, so the lines appear in order with one separator between neighbours |
| PyStr.StartsWith | scripts/generate_presentation.py:49 | no contract of its own; `PyStr.StartsWithOccurs` states that `startswith` is an occurrence at index 0 |
| PyStr.StartsWithOccurs | scripts/generate_presentation.py:49 | `s.startswith(p)` holds exactly when `p` occurs in `s` at index 0 |
| PyStr.EndsWith | scripts/generate_presentation.py:80 | no contract of its own; `PyStr.EndsWithOccurs` states that `endswith` is an occurrence ending at the end |
| PyStr.EndsWithOccurs | scripts/generate_presentation.py:80 | `s.endswith(p)` holds exactly when `p` occurs in `s` at index `len(s) - len(p)` |
| PyStr.PySlice | src/sandbox_question_generator.py:217 | never longer than the text; `PyStr.PySliceWithin`, `PyStr.PySliceToMinusOne` and `PyStr.PySlicePastEnd` state the slice for in-range, -1 and past-the-end bounds |
| PyStr.PySliceWithin | src/sandbox_question_generator.py:217 | bounds with `0 <= a <= b <= len(s)` give exactly the characters from `a` up to `b` |
| PyStr.PySliceToMinusOne | src/sandbox_question_generator.py:215-217 | an end of -1, which `find` answers when no closing fence follows, gives everything from `a` except the last character |
| PyStr.PySlicePastEnd | src/sandbox_question_generator.py:217 | an end at or past the length is cut to the length, and a start at or past it gives "" |
| PyStr.IsSpace | src/sandbox_question_generator.py:486-487 | no contract of its own; it lists the characters `str.isspace()` accepts, which `strip` removes; `PyStr.StripIsSlice` states what `strip` removes with it |
| FallbackTable.PyVariablesQuestions | src/sandbox_question_generator.py:264-286 | the entry is non-empty, and every question has four options and a key among A-D |
| FallbackTable.PyListsDictsQuestions | src/sandbox_question_generator.py:287-309 | the entry is non-empty, and every question has four options and a key among A-D |
| FallbackTable.PyFunctionsQuestions | src/sandbox_question_generator.py:310-325 | the entry is non-empty, and every question has four options and a key among A-D |
| FallbackTable.PyControlFlowQuestions | src/sandbox_question_generator.py:326-341 | the entry is non-empty, and every question has four options and a key among A-D |
| FallbackTable.PyOopQuestions | src/sandbox_question_generator.py:342-357 | the entry is non-empty, and every question has four options and a key among A-D |
| FallbackTable.JsVariablesQuestions | src/sandbox_question_generator.py:360-375 | the entry is non-empty, and every question has four options and a key among A-D |
| FallbackTable.JsFunctionsQuestions | src/sandbox_question_generator.py:376-384 | the entry is non-empty, and every question has four options and a key among A-D |
| FallbackTable.JsArraysObjectsQuestions | src/sandbox_question_generator.py:385-393 | the entry is non-empty, and every question has four options and a key among A-D |
| FallbackTable.DsDataTypesQuestions | src/sandbox_question_generator.py:396-404 | the entry is non-empty, and every question has four options and a key among A-D |
| FallbackTable.DsStatisticsQuestions | src/sandbox_question_generator.py:405-413 | the entry is non-empty, and every question has four options and a key among A-D |
| FallbackTable.WebHtml5Questions | src/sandbox_question_generator.py:416-424 | the entry is non-empty, and every question has four options and a key among A-D |
| FallbackTable.WebFlexboxQuestions | src/sandbox_question_generator.py:425-433 | the entry is non-empty, and every question has four options and a key among A-D |
| FallbackTable.Questions | src/sandbox_question_generator.py:262-436 | every entry of the table is non-empty and well formed |
| FallbackTable.Entries | src/sandbox_question_generator.py:438-439 | the candidates are non-empty exactly when the table has the (course, topic) pair, and all are well formed |
| FallbackTable.Lookup | src/sandbox_question_generator.py:438-439 | no contract of its own; `FallbackTable.Entries` states that a pair has candidates exactly when `Lookup` finds it |
| FallbackTable.Choose | src/sandbox_question_generator.py:443 | `random.choice` returns an element of the list |
| FallbackTable.ChooseReachesEvery | src/sandbox_question_generator.py:443 | every element of the list is picked by some draw |
| FallbackTable.FallbackQuestion | src/sandbox_question_generator.py:260-466 | a known (course, topic) gets one of its table questions, any other pair gets the generic question, and the result always has four options and a key among A-D |
| FallbackTable.GenericQuestionShape | src/sandbox_question_generator.py:445-466 | the generic question has four options, key "B" and 60 seconds, and its text contains the difficulty's indicator word, which is "sample" for an unknown difficulty |
| FallbackTable.GenericQuestion | src/sandbox_question_generator.py:445-466 | no contract of its own; `FallbackTable.GenericQuestionShape` states its shape and `FallbackTable.FallbackQuestion` when it is used |
| FallbackTable.Indicator | src/sandbox_question_generator.py:447-453 | no contract of its own; `FallbackTable.GenericQuestionShape` states that the question text contains it and that an unknown difficulty gives "sample" |
| FallbackTable.KnownTopicUsesTable | src/sandbox_question_generator.py:438-444 | a (course, topic) pair the table holds is answered from its entry, whatever the difficulty and the draw, and a draw below the entry's size picks that question of the entry |
| QuestionGenerator.CourseInfo | src/sandbox_question_generator.py:50-107 | each of the four known courses has eight curriculum topics |
| QuestionGenerator.TableTopicsAreCurriculumTopics | src/sandbox_question_generator.py:262-436 | every (course, topic) pair in the fallback table is a known course and one of its curriculum topics |
| QuestionGenerator.ZeroAnswersIsBeginner | src/sandbox_question_generator.py:144-145 | a profile with no answers gets "beginner" |
| QuestionGenerator.DifficultyIsIntermediateOrBeginner | src/sandbox_question_generator.py:142-154 | "intermediate" exactly when at least 5 answers are at least 80% correct, "beginner" otherwise, and never "advanced" |
| QuestionGenerator.DetermineDifficulty | src/sandbox_question_generator.py:142-154 | no contract of its own; `QuestionGenerator.DifficultyIsIntermediateOrBeginner` and `QuestionGenerator.ZeroAnswersIsBeginner` state its meaning |
| QuestionGenerator.PerfectTenIsIntermediate | src/sandbox_question_generator.py:149-152 | ten correct answers out of ten give "intermediate", not "advanced" |
| QuestionGenerator.DifficultyIgnoresCourseLevels | src/sandbox_question_generator.py:142-154 | the chosen difficulty need not be one of the course's own difficulty levels: a data-science newcomer gets "beginner" |
| QuestionGenerator.SelectTopic | src/sandbox_question_generator.py:156-166 | the chosen topic is one of the course's curriculum topics |
| QuestionGenerator.DigitLetter | src/sandbox_question_generator.py:494 | the digits 1-4 map to letters A-D |
| QuestionGenerator.FirstMatch | src/sandbox_question_generator.py:497-504 | the index found is of an option containing the answer, with no earlier option containing it; None means no option contains it |
| QuestionGenerator.CheckAnswer | src/sandbox_question_generator.py:484-513 | the result keeps the question id, the key and the raw answer unchanged, has time 0 and timestamp `now`, and its verdict is `AnswerIsCorrect` |
| QuestionGenerator.Clean | src/sandbox_question_generator.py:486-487 | no contract of its own; `strip().upper()`, whose parts `PyStr.StripIsSlice` and `PyStr.Upper` state; `CleanUpperB` and `CleanSpacedLowerB` are instances |
| QuestionGenerator.IsLetterAnswer | src/sandbox_question_generator.py:490 | no contract of its own; membership in `['A', 'B', 'C', 'D']`; `LetterAnswerComparesKeys` states the branch it selects |
| QuestionGenerator.IsDigitAnswer | src/sandbox_question_generator.py:492 | no contract of its own; membership in `['1', '2', '3', '4']`; `DigitAnswerMapsToLetter` states the branch it selects |
| QuestionGenerator.AnswerIsCorrect | src/sandbox_question_generator.py:484-513 | no contract of its own; the lemmas `LetterAnswerComparesKeys`, `DigitAnswerMapsToLetter`, `FirstMatchingOptionDecides` and `NoMatchIsIncorrect` state it branch by branch |
| QuestionGenerator.LetterAnswerComparesKeys | src/sandbox_question_generator.py:490-491 | a letter answer is correct exactly when it equals the cleaned key, whatever the options say |
| QuestionGenerator.DigitAnswerMapsToLetter | src/sandbox_question_generator.py:492-495 | a digit answer is correct exactly when its letter equals the cleaned key; it is never matched as option text |
| QuestionGenerator.FirstMatchingOptionDecides | src/sandbox_question_generator.py:497-502 | otherwise the first option containing the raw lower-cased answer decides, through the letter of its position, and later options are ignored |
| QuestionGenerator.FirstMatchIs | src/sandbox_question_generator.py:498-502 | the search stops at the first matching option |
| QuestionGenerator.NoMatchIsIncorrect | src/sandbox_question_generator.py:503-504 | an answer that is no letter, no digit and in no option is incorrect |
| QuestionGenerator.EmptyAnswerSelectsFirstOption | src/sandbox_question_generator.py:497-502 | the empty answer is in every option, so it is judged as the letter A |
| QuestionGenerator.SpacedLowerLetterIsThatLetter | src/sandbox_question_generator.py:486-491 | " b " is accepted for the key "B" |
| QuestionGenerator.ClosedJsonFence | src/sandbox_question_generator.py:214-217 | a closed "```json" fence yields its stripped contents, for any text before and after it, whenever no earlier "```json" ends before this one does and no "```" ends before the closing one; the text before the fence and the payload may hold backticks |
| QuestionGenerator.ClosedPlainFence | src/sandbox_question_generator.py:218-221 | with no "```json" anywhere, a closed plain fence yields its stripped contents whenever no earlier "```" ends before this one does and no "```" ends before the closing one |
| QuestionGenerator.NoFenceUnchanged | src/sandbox_question_generator.py:214-222 | text with no fence passes through unchanged |
| QuestionGenerator.UnclosedJsonFenceDropsLastChar | src/sandbox_question_generator.py:214-217 | when no "```" follows the first "```json", `find` answers -1 and the payload is the rest of the text without its last character, stripped |
| QuestionGenerator.ExtractFenced | src/sandbox_question_generator.py:214-222 | no contract of its own; `ClosedJsonFence`, `ClosedPlainFence`, `NoFenceUnchanged` and `UnclosedJsonFenceDropsLastChar` state what it extracts, each under the exact condition that decides which fence `find` reaches first |
| QuestionGenerator.JsonFenceAt | src/sandbox_question_generator.py:214-217 | when the first "```json" is at `open` and the first "```" after it at `close`, the payload is the stripped text between them |
| QuestionGenerator.PlainFenceAt | src/sandbox_question_generator.py:218-221 | with no "```json", when the first "```" is at `open` and the next at `close`, the payload is the stripped text between them |
| QuestionGenerator.JsonFenceUnclosedAt | src/sandbox_question_generator.py:214-217 | with the first "```json" at `open` and no "```" after it, the payload is the stripped text from after the fence up to the last character |
| QuestionGenerator.Complete | src/sandbox_question_generator.py:237-243 | a question is built exactly when all four required keys are present, and `estimated_time` defaults to 60 |
| QuestionGenerator.FromData | src/sandbox_question_generator.py:468-482 | the question carries the given course, topic, difficulty, id and time, and the data's text, options, key, explanation and estimated time, as a multiple-choice question |
| QuestionGenerator.GenerateAiQuestion | src/sandbox_question_generator.py:168-258 | a usable reply gives the question built from it; any failure gives the fallback question instead, so a question is always produced |
| QuestionGenerator.ReplyQuestion | src/sandbox_question_generator.py:171-225 | no contract of its own; `QuestionGenerator.GenerateAiQuestion` and `AiQuestionGenerator.GenerateAiQuestion` state that a question comes from the reply exactly when it yields one, and `UnknownCourseGetsGenericQuestion` that an unknown course never reaches the model |
| QuestionGenerator.FallbackQuestionIsWellFormed | src/sandbox_question_generator.py:227-230 | when the call fails, the question has four options and a key among A-D |
| QuestionGenerator.UnknownCourseGetsGenericQuestion | src/sandbox_question_generator.py:171 | an unknown course fails the catalogue lookup, so it never reaches the model and gets the generic question with key "B" |
| QuestionGenerator.GeneratePersonalizedQuestion | src/sandbox_question_generator.py:109-140 | a question exists exactly when the profile exists with a non-empty known course; it is on a topic of that course, at the difficulty the profile selects |
| QuestionGenerator.PersonalizedNeverAdvanced | src/sandbox_question_generator.py:123-130 | a personalized question is "beginner" or "intermediate" |
| QuestionGenerator.GenerateSampleQuestion | src/sandbox_question_generator.py:538-551 | None exactly for an unknown course; otherwise a beginner question on one of the course's topics |
| AiQuestionGenerator.GenerateAiQuestion | src/ai_question_generator.py:168-249 | None exactly when the course is unknown, the call fails, the reply does not decode or a key is missing; otherwise the question built from the reply |
| AiQuestionGenerator.FailedCallGivesNone | src/ai_question_generator.py:247-249 | a failed call gives no question |
| AiQuestionGenerator.AgreesWithSandboxGenerator | src/ai_question_generator.py:168-249 | where this generator gives a question, the sandbox generator gives the same one; where it gives None, the sandbox generator gives its fallback |
| AiQuestionGenerator.GeneratePersonalizedQuestion | src/ai_question_generator.py:109-140 | a question is produced exactly when the profile exists with a non-empty known course and the reply yields a complete question; it is then on a curriculum topic of that course at the profile's difficulty, and a failed call gives None |
| AiQuestionGenerator.GenerateSampleQuestion | src/ai_question_generator.py:305-318 | None for an unknown course; otherwise a beginner question on a course topic, present exactly when the reply is usable |
| AnswerEvaluator.RecordAnswer | src/sandbox_answer_evaluator.py:37-46 | one more question, one more correct answer exactly when correct; a correct answer extends the streak and raises the best to it when it is higher, a wrong one resets the streak and keeps the best; the quiz date is set; identity, course, preferences, start date and completion flag are unchanged |
| AnswerEvaluator.LongestIsMaximum | src/sandbox_answer_evaluator.py:38-42 | the new longest streak is the larger of the old longest and the new current streak |
| AnswerEvaluator.RecordAnswerKeepsConsistent | src/sandbox_answer_evaluator.py:37-44 | recording an answer keeps correct <= total and longest >= current >= 0 |
| AnswerEvaluator.TrailingTrues | src/sandbox_answer_evaluator.py:38-44 | counts exactly the correct answers at the end of a run |
| AnswerEvaluator.RecordAllCounts | src/sandbox_answer_evaluator.py:37-44 | after a run of answers, the total grows by its length, the correct count by its correct answers, the streak is its trailing correct answers (added to the old streak when all are correct), and consistency is kept |
| AnswerEvaluator.RecordAll | src/sandbox_answer_evaluator.py:37-44 | no contract of its own; `AnswerEvaluator.RecordAllCounts` states the profile after a run of answers |
| AnswerEvaluator.MixedRunExample | src/sandbox_answer_evaluator.py:37-44 | correct, correct, wrong, correct gives streak 1, best 2, 3 of 4 |
| AnswerEvaluator.GenerateFeedback | src/sandbox_answer_evaluator.py:73-113 | the explanation is the question's. A correct answer gets the tier of streak >= 5, >= 3 or else, and "more challenging" exactly at 80% over at least 5 answers. A wrong answer gets "read carefully" under 3 answers, "review basics" exactly for a zero streak from 5 answers on, else "break it down". A correct answer with total 0 raises |
| AnswerEvaluator.WrongAnswerAdviceAfterRecording | src/sandbox_answer_evaluator.py:100-111 | once recorded, a wrong answer from the fifth question on always gets "review the basics" |
| AnswerEvaluator.GenerateInsights | src/sandbox_answer_evaluator.py:115-170 | at most three insights, all for the user and dated `now` |
| AnswerEvaluator.InsightsPresenceAndOrder | src/sandbox_answer_evaluator.py:121-166 | from 5 answers on, a strength at 80% or a weakness under 50%; then a streak strength exactly from streak 5; then a recommendation exactly after a wrong answer, in that order |
| AnswerEvaluator.RecommendationIffWrong | src/sandbox_answer_evaluator.py:156-164 | a recommendation appears exactly after a wrong answer, last, on the question's topic |
| AnswerEvaluator.LevelBands | src/sandbox_answer_evaluator.py:174-191 | each level is exactly one accuracy band: >= 0.9, [0.8, 0.9), [0.7, 0.8), [0.6, 0.7), below 0.6 |
| AnswerEvaluator.PerformanceLevel | src/sandbox_answer_evaluator.py:177-191 | no contract of its own; `LevelBands`, `NoAnswersIsLearning` and `LevelMonotone` state its bands |
| AnswerEvaluator.NoAnswersIsLearning | src/sandbox_answer_evaluator.py:174-191 | with no answers the accuracy is 0 and the level "Learning" |
| AnswerEvaluator.LevelMonotone | src/sandbox_answer_evaluator.py:177-191 | a higher accuracy never gives a lower level |
| AnswerEvaluator.AtLeastTransfers | src/sandbox_answer_evaluator.py:177-191 | an accuracy reaching a threshold is reached by any higher accuracy |
| AnswerEvaluator.PerformanceSummary | src/sandbox_answer_evaluator.py:172-201 | the summary's level is the accuracy level, and the counters and streaks are the profile's |
| AnswerEvaluator.PreferredDifficultyBands | src/sandbox_answer_evaluator.py:247-256 | "Advanced" exactly at 80% over at least 10 answers; "Intermediate" exactly at 70% over at least 5 when not "Advanced" |
| AnswerEvaluator.PreferredDifficulty | src/sandbox_answer_evaluator.py:247-256 | no contract of its own; `AnswerEvaluator.PreferredDifficultyBands` states its bands |
| AnswerEvaluator.AdvancedPreferenceGetsIntermediateQuestions | src/sandbox_answer_evaluator.py:251-252 | a user the analytics call "Advanced" still gets "intermediate" questions from the generator |
| AnswerEvaluator.Recommendations | src/sandbox_answer_evaluator.py:258-279 | one to four recommendations, never none |
| AnswerEvaluator.RecommendationRules | src/sandbox_answer_evaluator.py:264-277 | each recommendation appears exactly when its rule fires, and "keep practicing" exactly when none fires |
| AnswerEvaluator.NewUserRecommendations | src/sandbox_answer_evaluator.py:264-268 | a user with no answers is told to answer more and to review the fundamentals |
| AnswerEvaluator.EvaluateAnswer | src/sandbox_answer_evaluator.py:27-71 | with no profile nothing changes and "not found" is answered; otherwise the recorded profile is saved, whatever the write's outcome, and the evaluation is built from it unless the feedback raises |
| AnswerEvaluator.SuccessDespiteFailedSave | src/sandbox_answer_evaluator.py:49-67 | on a consistent profile the feedback never raises, so the evaluation succeeds even when the write failed |
| SandboxStorage.GetProfile | src/sandbox_storage.py:86-99 | a record exactly for a stored id, and it is the stored one |
| SandboxStorage.SaveProfile | src/sandbox_storage.py:101-111 | a successful write replaces the record under its own id; a failed one changes nothing |
| SandboxStorage.SaveThenGet | src/sandbox_storage.py:86-111 | reading a saved id gives the saved record |
| SandboxStorage.SaveKeepsOthers | src/sandbox_storage.py:101-111 | saving one user leaves every other user's record as it was |
| SandboxStorage.UnknownIsNone | src/sandbox_storage.py:86-91 | an id never saved reads as None |
| SandboxStorage.SaveKeepsKeysMatch | src/sandbox_storage.py:101-107 | every file still holds the record of the user it is named after |
| SandboxStorage.EnrollNewUser | src/sandbox_storage.py:66-72 | an unknown user gets a profile in the course, started `now`, with zero counters and default preferences |
| SandboxStorage.EnrollExistingUser | src/sandbox_storage.py:73-76 | re-enrolling changes the course, and the start date only if there was none; nothing else changes |
| SandboxStorage.EnrolledProfile | src/sandbox_storage.py:63-84 | no contract of its own; `SandboxStorage.EnrollNewUser` and `SandboxStorage.EnrollExistingUser` state the profile for a new and for a known user |
| SandboxStorage.AppendSession | src/sandbox_storage.py:113-135 | a successful write appends the session to its user's history; a failed one changes nothing |
| SandboxStorage.History | src/sandbox_storage.py:137-150 | a user with no history file has no sessions |
| SandboxStorage.AppendThenHistory | src/sandbox_storage.py:113-150 | the saved session comes last, after the user's earlier sessions in order |
| SandboxStorage.AppendKeepsOthers | src/sandbox_storage.py:113-135 | saving a session leaves every other user's history as it was |
| SandboxStorage.AppendKeepsSessionsMatch | src/sandbox_storage.py:113-135 | every history file still holds only its own user's sessions |
| SandboxStorage.AmongStep | src/sandbox_storage.py:170-177 | counting one more profile adds it, and its course, exactly when it is enrolled |
| SandboxStorage.SessionTotalRemove | src/sandbox_storage.py:184-190 | the session total does not depend on the order the files are counted in |
| SandboxStorage.CoursesAtMostEnrolled | src/sandbox_storage.py:170-177 | there are no more distinct courses than enrolled users |
| SandboxStorage.IsEnrolled | src/sandbox_storage.py:175 | no contract of its own; `get('enrolled_course')` is truthy: present and not "" |
| SandboxStorage.Stats | src/sandbox_storage.py:152-212 | no contract of its own; `SandboxStorage.StatsBounds` states its bounds and which courses are active, and `SandboxStorage.Store.GetStorageStats` ensures that the method returns it |
| SandboxStorage.StatsBounds | src/sandbox_storage.py:152-212 | enrolled users never outnumber users and active courses never outnumber enrolled users; a course is active exactly when some user is enrolled in it |
| SandboxStorage.Store.constructor | src/sandbox_storage.py:43-53 | a store over empty directories holds no profiles and no histories |
| SandboxStorage.Store.GetUserProfile | src/sandbox_storage.py:86-99 | answers the stored record, or None |
| SandboxStorage.Store.SaveUserProfile | src/sandbox_storage.py:101-111 | answers whether the write succeeded; the profiles become the saved map, the histories are untouched, and the stores stay keyed by their own ids |
| SandboxStorage.Store.EnrollUser | src/sandbox_storage.py:63-84 | saves the enrolled profile and answers true even when the write fails |
| SandboxStorage.Store.SaveQuizSession | src/sandbox_storage.py:113-135 | the histories become the appended map, the profiles are untouched, and it answers whether the write succeeded |
| SandboxStorage.Store.GetUserQuizHistory | src/sandbox_storage.py:137-150 | answers the user's stored sessions, or [] |
| SandboxStorage.Store.GetStorageStats | src/sandbox_storage.py:152-212 | the counts are the number of users, the number of sessions over all histories, the number of enrolled users and the set of their courses |
| SandboxStorage.Store.ScanProfiles | src/sandbox_storage.py:164-179 | the loop counts exactly the enrolled users and collects exactly their courses |
| SandboxStorage.Store.CountSessions | src/sandbox_storage.py:181-192 | the loop adds up the sessions of every history file |
| LocalStorage.Load | src/local_storage.py:84-91 | a missing or corrupt file reads as its empty default, and a present file as its content |
| LocalStorage.Users | src/local_storage.py:91 | no contract of its own; the users file with `{}` as its default; `LocalStorage.GetProfile` reads through it, and `LocalStorage.SaveOverCorruptFileLosesOthers` states that a corrupt file saves as a one-user map |
| LocalStorage.Sessions | src/local_storage.py:91 | no contract of its own; the sessions file with `[]` as its default; `LocalStorage.AppendThenSessions` states an append through it |
| LocalStorage.GetProfile | src/local_storage.py:103-110 | a record exactly for an id whose entry is a non-empty profile, and it is that profile |
| LocalStorage.SaveThenGet | src/local_storage.py:103-116 | reading a saved id gives the saved record |
| LocalStorage.SaveKeepsOthers | src/local_storage.py:112-116 | on a readable users file, saving one user leaves every other entry as it was |
| LocalStorage.SaveOverCorruptFileLosesOthers | src/local_storage.py:112-116 | saving over a corrupt users file keeps only the saved record |
| LocalStorage.SaveKeepsKeysMatch | src/local_storage.py:112-116 | every entry is still stored under its own user id |
| LocalStorage.SaveProfile | src/local_storage.py:112-116 | no contract of its own; `SaveThenGet`, `SaveKeepsOthers`, `SaveOverCorruptFileLosesOthers` and `SaveKeepsKeysMatch` state the users file after a save |
| LocalStorage.EnrollResetsStartDate | src/local_storage.py:128-130 | re-enrolling sets the course and always resets the start date; counters, streaks and preferences are kept |
| LocalStorage.EnrollNewUser | src/local_storage.py:122-127 | an unknown user gets a fresh profile in the course, started `now` |
| LocalStorage.EnrolledProfile | src/local_storage.py:118-132 | no contract of its own; `LocalStorage.EnrollNewUser` and `LocalStorage.EnrollResetsStartDate` state the profile for a new and for a known user |
| LocalStorage.ApplyQuizStats | src/local_storage.py:156-165 | both counts are added as given and the date is set; a quiz with as many correct answers as questions extends the streak and raises the best if needed, any other resets the streak and keeps the best; identity, course, preferences, start date and completion flag are unchanged |
| LocalStorage.EmptyQuizExtendsStreak | src/local_storage.py:161-163 | a 0-of-0 quiz counts as perfect and extends the streak |
| LocalStorage.QuizStatsKeepConsistent | src/local_storage.py:156-165 | with 0 <= correct <= total, a consistent record stays consistent |
| LocalStorage.UnvalidatedCountsBreakConsistency | src/local_storage.py:156-157 | the counts are not validated: 3 correct of 1 breaks correct <= total |
| LocalStorage.SessionsOf | src/local_storage.py:147 | the filtered list holds exactly the stored sessions of that user |
| LocalStorage.SessionsOfConcat | src/local_storage.py:147 | filtering distributes over concatenation, so the stored order is kept |
| LocalStorage.SessionsOfOtherAppend | src/local_storage.py:138-148 | another user's session does not show up in this user's list |
| LocalStorage.AppendThenSessions | src/local_storage.py:138-148 | a saved session is the last of its user's sessions, after the earlier ones in order |
| LocalStorage.AppendSession | src/local_storage.py:138-142 | no contract of its own; `LocalStorage.AppendThenSessions` and `LocalStorage.SessionsOfOtherAppend` state the sessions after an append |
| LocalStorage.Store.constructor | src/local_storage.py:56-82 | a fresh data directory starts with an empty users dictionary and an empty sessions list |
| LocalStorage.Store.GetUserProfile | src/local_storage.py:103-110 | answers the stored profile, or None for an absent or empty entry |
| LocalStorage.Store.SaveUserProfile | src/local_storage.py:112-116 | answers whether the write succeeded; the users file becomes the saved dictionary and the sessions file is untouched |
| LocalStorage.Store.EnrollUser | src/local_storage.py:118-132 | saves the enrolled profile and answers what the save answers |
| LocalStorage.Store.SaveQuizSession | src/local_storage.py:138-142 | the sessions file becomes the appended list, the users file is untouched, and it answers whether the write succeeded |
| LocalStorage.Store.GetUserSessions | src/local_storage.py:144-148 | the loop returns exactly the user's sessions in stored order |
| LocalStorage.Store.UpdateUserStats | src/local_storage.py:150-167 | an unknown user gets false and no write; otherwise the updated record is saved and the save's answer returned |
| Presentation.NextHeading | scripts/generate_presentation.py:47 | the first position at or after `i` where a line starts with "## Slide", or the end |
| Presentation.Pieces | scripts/generate_presentation.py:47 | the non-empty parts of the split; every part after the first begins with "## Slide" |
| Presentation.PiecesConcat | scripts/generate_presentation.py:47 | the parts put back together give the text back |
| Presentation.PiecesHoldOneHeading | scripts/generate_presentation.py:47 | no line of a part other than its first begins with "## Slide", so the split cuts at every heading |
| Presentation.KeepSlides | scripts/generate_presentation.py:49 | only stripped parts that begin with "## Slide" are kept, none added; `Presentation.AllHeadedKept` and `Presentation.SlidesInOrder` state that every such part is kept, in order |
| Presentation.SplitSlides | scripts/generate_presentation.py:45-50 | every slide begins with "## Slide" |
| Presentation.IsHeadingAt | scripts/generate_presentation.py:47 | no contract of its own; the lookahead `(?=^## Slide)` under MULTILINE: a line starts there and "## Slide" follows; `Presentation.NextHeading` states that the split finds the first such position |
| Presentation.HeadingSurvivesStrip | scripts/generate_presentation.py:49 | a part that begins with the heading keeps it after stripping |
| Presentation.StripAll | scripts/generate_presentation.py:49 | strips each part, keeping the count |
| Presentation.AllHeadedKept | scripts/generate_presentation.py:49 | parts that all begin with the heading are all kept, stripped, in order |
| Presentation.SlidesInOrder | scripts/generate_presentation.py:45-50 | the slides are the stripped parts in document order; the text before the first heading is kept only when it strips to something beginning with "## Slide" |
| Presentation.Title | scripts/generate_presentation.py:56-61 | the matched text when the heading pattern matches, else the first line without "##", stripped |
| Presentation.TitleMatch | scripts/generate_presentation.py:57-61 | only a line that starts with "## Slide" matches, and the matched title has no whitespace at either end; `MatchOfParts` gives the title of a numbered heading and `UnmatchedTitleNoMatch` a heading that fails |
| Presentation.MatchOfParts | scripts/generate_presentation.py:57 | "## Slide", one whitespace character, digits, a space, a dash and a space followed by text match the pattern, with the stripped rest as the group |
| Presentation.NumberedTitle | scripts/generate_presentation.py:56-61 | "## Slide <number> – <title>" (or with "-") has exactly that title |
| Presentation.UnmatchedTitle | scripts/generate_presentation.py:58-59 | "## Slide 3: Demo" does not match and has the title "Slide 3: Demo" |
| Presentation.MarkerOccurs | scripts/generate_presentation.py:68-70 | a marker line holds the marker where its stripped text starts, so the split finds it |
| Presentation.NoteText | scripts/generate_presentation.py:70 | the text after the marker, shorter than the line by at least the marker, with no whitespace at either end |
| Presentation.IsBodyLine | scripts/generate_presentation.py:80-83 | no contract of its own; `Presentation.BodyBeforeNotes` states that the body is the lines it accepts before the first marker |
| Presentation.Step | scripts/generate_presentation.py:67-83 | no contract of its own; `StopIsFinal`, `SeparatorEndsNotes` and `BodyBeforeNotes` state what the scan it drives keeps |
| Presentation.ScanFrom | scripts/generate_presentation.py:67-83 | the scan stops only in notes mode |
| Presentation.StopIsFinal | scripts/generate_presentation.py:76-77 | once "---" has ended the notes, no later line changes anything |
| Presentation.SeparatorEndsNotes | scripts/generate_presentation.py:74-78 | in notes mode a line starting with "---" ends the scan, with body and notes as they were |
| Presentation.FirstMarker | scripts/generate_presentation.py:68-69 | the first marker line, with none before it |
| Presentation.BodyBeforeNotes | scripts/generate_presentation.py:67-83 | notes mode starts at the first marker and never ends; the body is the non-blank lines not wrapped in "**" before it, and there are no notes before it |
| Presentation.IsMarker | scripts/generate_presentation.py:68 | no contract of its own; `line.strip().startswith("**Speaker Notes:**")`; `Presentation.MarkerOccurs` states where the marker sits |
| Presentation.BodyLines | scripts/generate_presentation.py:80-83 | never more lines than scanned; `Presentation.BodyBeforeNotes` states that the scan's body is exactly these lines up to the first marker |
| Presentation.BulletNonEmpty | scripts/generate_presentation.py:87-100 | no bullet is empty |
| Presentation.Bullet | scripts/generate_presentation.py:86-100 | no contract of its own; `BulletNonEmpty` and `CleanLine` state the bullet of a line, branch by branch |
| Presentation.IsNumberedItem | scripts/generate_presentation.py:91 | no contract of its own; `Presentation.NumberedItemShape` states it |
| Presentation.NumberedItemShape | scripts/generate_presentation.py:91 | `re.match(r"^\d+\.\s", s)` succeeds exactly when some run of one or more digits at the start is followed by a dot and a whitespace character |
| Presentation.CleanLine | scripts/generate_presentation.py:88-100 | each branch as written gives the bullet of `Bullet`: the text after "- " or "* ", stripped; none for a fence or blank line; else the stripped line, numbered items and table rows included |
| Presentation.Bullets | scripts/generate_presentation.py:87-100 | no more bullets than body lines |
| Presentation.BulletsStep | scripts/generate_presentation.py:87-100 | one more body line adds its bullet, if any, at the end |
| Presentation.NonBlankNotes | scripts/generate_presentation.py:102 | no more kept note lines than note lines, none of them empty, and none at all exactly when every note line is blank |
| Presentation.NoteLineKept | scripts/generate_presentation.py:102 | a kept note line is non-empty and does not end in whitespace |
| Presentation.SpeakerNotes | scripts/generate_presentation.py:102 | the notes text is empty exactly when every note line is blank |
| Presentation.ScanLines | scripts/generate_presentation.py:63-83 | the loop's body lines and note lines are those of the line-by-line scan |
| Presentation.CleanBullets | scripts/generate_presentation.py:86-100 | the loop's bullets are the bullets of every body line, in order |
| Presentation.ParseSlide | scripts/generate_presentation.py:53-104 | an empty block raises; otherwise the title of the first line, the first twenty bullets of the scanned body, and the non-blank note lines right-stripped and joined by newlines |

## Left out

- The language-model call and JSON decoding are not modelled. They are a remote service and a library parser. The reply is a `Reply` value, and decoding is the `decode` parameter.
- Prompt text, logging, and the `question_id` and timestamp formats are not modelled. The id and `now` are inputs.
- `random.choice` and `random.randint` are not modelled as randomness. A draw is an input, reduced modulo the list's length.
- `_calculate_learning_days` is left out (src/sandbox_answer_evaluator.py:236-245). It parses dates and reads the clock.
- `get_user_analytics` is left out (src/sandbox_answer_evaluator.py:203-234). It only assembles the modelled summary, preferred difficulty and recommendations with the learning days and the history length.
- `get_question_stats` and `get_available_courses` are left out. Both return constants. The catalogue itself is `QuestionGenerator.CourseInfo`.
- The local store's courses file and its `get_available_courses` are left out (src/local_storage.py:61-76, 134-136). They are only read back as written.
- Message wording, emojis and percent formatting are left out. Feedback, insights, levels and recommendations are modelled by their tier. Insight confidence is in percent.
- Floating point is left out. Accuracy thresholds are compared exactly. This agrees with Python's float comparison for all counts below about 2^50.
- `storage_size_mb` is left out (src/sandbox_storage.py:194-205). It walks the directory tree and rounds a float.
- File-system plumbing is left out: directories, file names and `_initialize_files` beyond a fresh directory. Each store is a class whose fields are the file contents.
- A corrupt profile or history file in the sandbox store is not modelled. The maps hold readable files. The local store does model missing and corrupt files.
- A write that fails part-way, leaving a truncated file, is modelled as a write that changes nothing.
- Exceptions escaping `enroll_user`, `get_user_profile` and the other storage calls, such as a wrongly shaped JSON record, are not modelled.
- In `get_storage_stats`, profile and history files that fail to load are skipped in the source. The model has none.
- QuestionGenerator.Complete: a key that is present but holds JSON null, or a value of another type, counts as missing, so no question is built. The source indexes the decoded reply without a type check (src/sandbox_question_generator.py:233-244, src/ai_question_generator.py:227-238) and builds a question holding that value. Likewise `"estimated_time": null` gives None in Python but 60 in the model. The decoder is a parameter, and its result type `ReplyData` records only well-typed values.
- PyStr.Upper: only ASCII letters are mapped, while Python maps every cased letter. No other character upper-cases into A-D or 1-4, so the letter and digit branches of `check_answer` are unaffected.
- PyStr.Lower: only ASCII letters are mapped, so the option-text match of `check_answer` and the lower-cased topic in the generic explanation can differ from Python on non-ASCII text.
- Presentation.TitleMatch: `\d` is modelled as the ASCII digits. Python's `\d` also matches other Unicode decimal digits.
- Presentation.Pieces: the empty part that `re.split` yields before a heading at position 0 is not produced. The filter that follows drops it either way.
- The import of src/ai_question_generator.py is not modelled. Its constructor annotation names `SandboxStorage` (line 41), but only `LocalStorage` is imported (line 13). Unless annotations are deferred, this raises NameError when the module is imported. The model describes the methods as written.
- `async` is left out. Nothing in the core runs concurrently.
- src/bot.py, src/app.py and src/config.py are not part of this model. They are chat-framework routing, HTTP wiring and environment reads.
- `read_outline`, `create_presentation` and `main` of scripts/generate_presentation.py are left out. They are file I/O and PowerPoint library calls.
