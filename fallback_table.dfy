/**
 * The static question table `_get_fallback_question` answers from when the
 * remote generator is unavailable, and the templated generic question it
 * builds when the table has nothing for a (course, topic) pair.
 */
module FallbackTable {
  import opened Wrappers
  import opened PyStr

  /** A question dictionary as the generator consumes it (`question_data`). */
  datatype QuestionData = QuestionData(
    question_text: string,
    options: seq<string>,
    correct_answer: string,
    explanation: string,
    estimated_time: int)

  /** Four options and an answer key that is one of the four option letters. */
  predicate WellFormed(q: QuestionData) {
    |q.options| == 4 && (q.correct_answer == "A" || q.correct_answer == "B" || q.correct_answer == "C" || q.correct_answer == "D")
  }

  predicate AllWellFormed(qs: seq<QuestionData>) {
    forall i :: 0 <= i < |qs| ==> WellFormed(qs[i])
  }

  // `fallback_questions`, the nested course -> topic -> questions dictionary,
  // is written as one function per (course, topic) entry, a `TopicKey` naming
  // the entries, and `Lookup`, which finds the entry for a course and topic.
  // Long texts are written as concatenations of short literals; the strings are
  // the same, and short literals keep the verifier's work on them small.

  /** The questions under `PyVariables`. */
  function PyVariablesQuestions(k: TopicKey): (r: seq<QuestionData>)
    requires k == PyVariables
    ensures r != [] && AllWellFormed(r)
  {
    [
      QuestionData(
        "What is the correct " + "way to create a " + "variable in Python?",
        ["A) var x = 5", "B) x = 5", "C) int x = 5", "D) declare x = 5"],
        "B",
        "In Python, " + "variables are " + "created by simply " + "assigning a value "
          + "using the equals " + "sign. No special " + "keywords are needed.",
        45),
      QuestionData(
        "Which of the " + "following is a " + "valid Python " + "variable name?",
        ["A) 2variable", "B) variable-name", "C) variable_name", "D) variable name"],
        "C",
        "Python variable " + "names can contain " + "letters, numbers, " + "and underscores, "
          + "but cannot start " + "with a number or " + "contain " + "spaces/hyphens.",
        40),
      QuestionData(
        "What data type " + "would Python assign " + "to the variable: x " + "= 3.14?",
        ["A) int", "B) float", "C) string", "D) decimal"],
        "B",
        "Python " + "automatically " + "assigns the float " + "data type to " + "numbers with "
          + "decimal points.",
        35)
    ]
  }

  /** The questions under `PyListsDicts`. */
  function PyListsDictsQuestions(k: TopicKey): (r: seq<QuestionData>)
    requires k == PyListsDicts
    ensures r != [] && AllWellFormed(r)
  {
    [
      QuestionData(
        "What is the correct " + "way to create a " + "list in Python?",
        ["A) list = {1, 2, 3}", "B) list = [1, 2, 3]", "C) list = (1, 2, 3)", "D) list = <1, 2, 3>"],
        "B",
        "Lists in Python are " + "created using " + "square brackets []. " + "Curly braces {} "
          + "create sets, " + "parentheses () " + "create tuples.",
        50),
      QuestionData(
        "How do you access " + "the first element " + "of a list called " + "'my_list'?",
        ["A) my_list[1]", "B) my_list[0]", "C) my_list.first()", "D) my_list.get(1)"],
        "B",
        "Python uses " + "zero-based " + "indexing, so the " + "first element is "
          + "accessed with index " + "[0].",
        45),
      QuestionData(
        "What is the correct " + "syntax to create a " + "dictionary in " + "Python?",
        ["A) dict = [key: value]", "B) dict = (key: value)", "C) dict = {key: value}", "D) dict = <key: value>"],
        "C",
        "Dictionaries in " + "Python are created " + "using curly braces "
          + "{} with key-value " + "pairs separated by " + "colons.",
        55)
    ]
  }

  /** The questions under `PyFunctions`. */
  function PyFunctionsQuestions(k: TopicKey): (r: seq<QuestionData>)
    requires k == PyFunctions
    ensures r != [] && AllWellFormed(r)
  {
    [
      QuestionData(
        "How do you define a " + "function in Python?",
        ["A) function myFunc():", "B) def myFunc():", "C) func myFunc():", "D) define myFunc():"],
        "B",
        "Functions in Python " + "are defined using " + "the 'def' keyword "
          + "followed by the " + "function name and " + "parentheses.",
        40),
      QuestionData(
        "How do you call a " + "function named " + "'calculate' with no " + "parameters?",
        ["A) call calculate()", "B) calculate()", "C) run calculate", "D) execute calculate()"],
        "B",
        "Functions are " + "called by writing " + "the function name " + "followed by "
          + "parentheses, even " + "if no parameters " + "are needed.",
        35)
    ]
  }

  /** The questions under `PyControlFlow`. */
  function PyControlFlowQuestions(k: TopicKey): (r: seq<QuestionData>)
    requires k == PyControlFlow
    ensures r != [] && AllWellFormed(r)
  {
    [
      QuestionData(
        "What is the correct " + "syntax for an if " + "statement in Python?",
        ["A) if (x == 5) {", "B) if x == 5:", "C) if x = 5:", "D) if x equals 5:"],
        "B",
        "Python if " + "statements use a " + "colon (:) and do " + "not require "
          + "parentheses or " + "curly braces.",
        45),
      QuestionData(
        "Which loop is best " + "for iterating over " + "a list in Python?",
        ["A) while loop", "B) for loop", "C) do-while loop", "D) repeat loop"],
        "B",
        "For loops are ideal " + "for iterating over " + "sequences like "
          + "lists, strings, and " + "tuples in Python.",
        50)
    ]
  }

  /** The questions under `PyOop`. */
  function PyOopQuestions(k: TopicKey): (r: seq<QuestionData>)
    requires k == PyOop
    ensures r != [] && AllWellFormed(r)
  {
    [
      QuestionData(
        "How do you define a " + "class in Python?",
        ["A) class MyClass:", "B) Class MyClass:", "C) define MyClass:", "D) object MyClass:"],
        "A",
        "Classes in Python " + "are defined using " + "the 'class' keyword " + "(lowercase) "
          + "followed by the " + "class name and a " + "colon.",
        50),
      QuestionData(
        "What is the special " + "method used to " + "initialize objects "
          + "in a Python class?",
        ["A) __start__()", "B) __create__()", "C) __init__()", "D) __new__()"],
        "C",
        "The __init__() " + "method is " + "automatically " + "called when a new "
          + "object is created " + "from a class.",
        55)
    ]
  }

  /** The questions under `JsVariables`. */
  function JsVariablesQuestions(k: TopicKey): (r: seq<QuestionData>)
    requires k == JsVariables
    ensures r != [] && AllWellFormed(r)
  {
    [
      QuestionData(
        "Which keyword " + "should you use to " + "declare a variable " + "that won't be "
          + "reassigned?",
        ["A) var", "B) let", "C) const", "D) final"],
        "C",
        "The 'const' keyword " + "is used for " + "variables that " + "won't be reassigned "
          + "after their initial " + "value.",
        40),
      QuestionData(
        "What is the " + "difference between " + "'let' and 'var' in " + "JavaScript?",
        ["A) No difference", "B) 'let' has block " + "scope, 'var' has " + "function scope", "C) 'var' is newer", "D) 'let' is faster"],
        "B",
        "'let' has block " + "scope (limited to " + "the nearest " + "enclosing block), "
          + "while 'var' has " + "function scope.",
        60)
    ]
  }

  /** The questions under `JsFunctions`. */
  function JsFunctionsQuestions(k: TopicKey): (r: seq<QuestionData>)
    requires k == JsFunctions
    ensures r != [] && AllWellFormed(r)
  {
    [
      QuestionData(
        "What is the correct " + "syntax for an arrow " + "function in " + "JavaScript?",
        ["A) function => {}", "B) () => {}", "C) -> {}", "D) lambda {}"],
        "B",
        "Arrow functions use " + "the syntax () => {} " + "where parameters go "
          + "in parentheses " + "followed by => and " + "the function body.",
        45)
    ]
  }

  /** The questions under `JsArraysObjects`. */
  function JsArraysObjectsQuestions(k: TopicKey): (r: seq<QuestionData>)
    requires k == JsArraysObjects
    ensures r != [] && AllWellFormed(r)
  {
    [
      QuestionData(
        "How do you add an " + "element to the end " + "of a JavaScript " + "array?",
        ["A) array.add(element)", "B) array.push(element)", "C) array.append(element)", "D) array.insert(element)"],
        "B",
        "The push() method " + "adds one or more " + "elements to the end " + "of an array and "
          + "returns the new " + "length.",
        40)
    ]
  }

  /** The questions under `DsDataTypes`. */
  function DsDataTypesQuestions(k: TopicKey): (r: seq<QuestionData>)
    requires k == DsDataTypes
    ensures r != [] && AllWellFormed(r)
  {
    [
      QuestionData(
        "Which Python " + "library is most " + "commonly used for " + "data manipulation?",
        ["A) NumPy", "B) Pandas", "C) Matplotlib", "D) Scikit-learn"],
        "B",
        "Pandas is the " + "primary library for " + "data manipulation " + "and analysis, "
          + "providing " + "DataFrames and " + "Series structures.",
        45)
    ]
  }

  /** The questions under `DsStatistics`. */
  function DsStatisticsQuestions(k: TopicKey): (r: seq<QuestionData>)
    requires k == DsStatistics
    ensures r != [] && AllWellFormed(r)
  {
    [
      QuestionData(
        "What does a p-value " + "represent in " + "statistical testing?",
        ["A) The probability " + "of the hypothesis " + "being true", "B) The probability " + "of observing the " + "data given the null " + "hypothesis is true", "C) The power of the test", "D) The confidence " + "interval"],
        "B",
        "A p-value is the " + "probability of " + "observing the test " + "results under the "
          + "assumption that the " + "null hypothesis is " + "correct.",
        70)
    ]
  }

  /** The questions under `WebHtml5`. */
  function WebHtml5Questions(k: TopicKey): (r: seq<QuestionData>)
    requires k == WebHtml5
    ensures r != [] && AllWellFormed(r)
  {
    [
      QuestionData(
        "Which HTML5 element " + "should be used for " + "the main content of " + "a page?",
        ["A) <div>", "B) <main>", "C) <content>", "D) <section>"],
        "B",
        "The <main> element " + "represents the main " + "content of the " + "page, excluding "
          + "headers, footers, " + "and sidebars.",
        40)
    ]
  }

  /** The questions under `WebFlexbox`. */
  function WebFlexboxQuestions(k: TopicKey): (r: seq<QuestionData>)
    requires k == WebFlexbox
    ensures r != [] && AllWellFormed(r)
  {
    [
      QuestionData(
        "Which CSS property " + "is used to create a " + "flex container?",
        ["A) display: flex", "B) flex: container", "C) layout: flex", "D) position: flex"],
        "A",
        "The display: flex " + "property turns an " + "element into a flex "
          + "container, enabling " + "flexbox layout for " + "its children.",
        45)
    ]
  }

  /** One (course, topic) entry of the table. */
  datatype TopicKey =
    | PyVariables | PyListsDicts | PyFunctions | PyControlFlow | PyOop
    | JsVariables | JsFunctions | JsArraysObjects
    | DsDataTypes | DsStatistics
    | WebHtml5 | WebFlexbox

  /** The entry `fallback_questions[course][topic]` names, if any. */
  function Lookup(course: string, topic: string): Option<TopicKey> {
    if course == "python-basics" then
      if topic == "Variables and Data Types" then Some(PyVariables)
      else if topic == "Lists and Dictionaries" then Some(PyListsDicts)
      else if topic == "Functions and Parameters" then Some(PyFunctions)
      else if topic == "Control Flow (if/else, loops)" then Some(PyControlFlow)
      else if topic == "Object-Oriented Programming Basics" then Some(PyOop)
      else None
    else if course == "javascript-intro" then
      if topic == "Variables (let, const, var)" then Some(JsVariables)
      else if topic == "Functions and Arrow Functions" then Some(JsFunctions)
      else if topic == "Arrays and Objects" then Some(JsArraysObjects)
      else None
    else if course == "data-science" then
      if topic == "Data Types and Structures" then Some(DsDataTypes)
      else if topic == "Statistics and Probability" then Some(DsStatistics)
      else None
    else if course == "web-dev" then
      if topic == "HTML5 Semantics" then Some(WebHtml5)
      else if topic == "CSS3 and Flexbox" then Some(WebFlexbox)
      else None
    else None
  }

  /** The questions stored under one entry. */
  function Questions(k: TopicKey): (r: seq<QuestionData>)
    ensures r != [] && AllWellFormed(r)
  {
    match k
    case PyVariables => PyVariablesQuestions(k)
    case PyListsDicts => PyListsDictsQuestions(k)
    case PyFunctions => PyFunctionsQuestions(k)
    case PyControlFlow => PyControlFlowQuestions(k)
    case PyOop => PyOopQuestions(k)
    case JsVariables => JsVariablesQuestions(k)
    case JsFunctions => JsFunctionsQuestions(k)
    case JsArraysObjects => JsArraysObjectsQuestions(k)
    case DsDataTypes => DsDataTypesQuestions(k)
    case DsStatistics => DsStatisticsQuestions(k)
    case WebHtml5 => WebHtml5Questions(k)
    case WebFlexbox => WebFlexboxQuestions(k)
  }

  /** `fallback_questions.get(course, {}).get(topic, [])` */
  function Entries(course: string, topic: string): (r: seq<QuestionData>)
    ensures r != [] <==> Lookup(course, topic).Some?
    ensures AllWellFormed(r)
  {
    match Lookup(course, topic)
    case None => []
    case Some(k) => Questions(k)
  }

  /** `difficulty_indicators.get(difficulty, "sample")` */
  function Indicator(difficulty: string): string {
    if difficulty == "beginner" then "fundamental"
    else if difficulty == "intermediate" then "practical"
    else if difficulty == "advanced" then "complex"
    else "sample"
  }

  /** The templated question built when the table has no entry for (course, topic). */
  function GenericQuestion(course: string, topic: string, difficulty: string): QuestionData {
    var courseName := ReplaceChar(course, '-', ' ');
    QuestionData(
      "This is a " + Indicator(difficulty) + " " + difficulty + "-level question about " + topic
        + " in " + courseName + ". What is the best " + "practice for " + "implementing this " + "concept?",
      ["A) Use the most common approach with basic syntax",
       "B) Follow industry best practices and conventions",
       "C) Optimize for performance over readability",
       "D) Use the newest available features"],
      "B",
      "Following industry " + "best practices " + "ensures your " + Lower(topic)
        + " code is " + "maintainable, " + "readable, and " + "follows established " + "conventions in " + courseName + ".",
      60)
  }

  /** `random.choice(xs)`, with the random draw as an input: any draw picks some element. */
  function Choose<T>(xs: seq<T>, draw: nat): (x: T)
    requires xs != []
    ensures x in xs
  {
    xs[draw % |xs|]
  }

  /** Every element of the list is what some draw picks. */
  lemma ChooseReachesEvery<T>(xs: seq<T>, i: nat)
    requires i < |xs|
    ensures Choose(xs, i) == xs[i]
  {
  }

  /** `_get_fallback_question(course, topic, difficulty)` */
  function FallbackQuestion(course: string, topic: string, difficulty: string, draw: nat): (q: QuestionData)
    ensures Entries(course, topic) != [] ==> q in Entries(course, topic)
    ensures Entries(course, topic) == [] ==> q == GenericQuestion(course, topic, difficulty)
    ensures WellFormed(q)
  {
    var topicQuestions := Entries(course, topic);
    if topicQuestions != [] then Choose(topicQuestions, draw)
    else GenericQuestion(course, topic, difficulty)
  }

  /**
   * The generic question: four options, answer "B", sixty seconds, and a text
   * that names the difficulty's indicator word ("sample" for an unknown difficulty).
   */
  lemma GenericQuestionShape(course: string, topic: string, difficulty: string)
    ensures var q := GenericQuestion(course, topic, difficulty);
      |q.options| == 4 && q.correct_answer == "B" && q.estimated_time == 60
      && Contains(q.question_text, Indicator(difficulty))
    ensures difficulty !in {"beginner", "intermediate", "advanced"} ==> Indicator(difficulty) == "sample"
  {
    var ind := Indicator(difficulty);
    var courseName := ReplaceChar(course, '-', ' ');
    var s0 := "This is a " + ind;
    assert s0[10..10 + |ind|] == ind;
    var s1 := s0 + " ";
    OccursAtExtended(s0, " ", ind, 10);
    var s2 := s1 + difficulty;
    OccursAtExtended(s1, difficulty, ind, 10);
    var s3 := s2 + "-level question about ";
    OccursAtExtended(s2, "-level question about ", ind, 10);
    var s4 := s3 + topic;
    OccursAtExtended(s3, topic, ind, 10);
    var s5 := s4 + " in ";
    OccursAtExtended(s4, " in ", ind, 10);
    var s6 := s5 + courseName;
    OccursAtExtended(s5, courseName, ind, 10);
    var tail := ". What is the best " + "practice for " + "implementing this " + "concept?";
    OccursAtExtended(s6, tail, ind, 10);
    assert GenericQuestion(course, topic, difficulty).question_text == s6 + tail;
  }

  /**
   * A (course, topic) pair the table holds is answered from its entry, whatever
   * the difficulty and the draw; and each of the entry's questions is what some
   * draw picks.
   */
  lemma KnownTopicUsesTable(course: string, topic: string, difficulty: string, draw: nat)
    requires Lookup(course, topic).Some?
    ensures FallbackQuestion(course, topic, difficulty, draw) in Entries(course, topic)
    ensures draw < |Entries(course, topic)| ==> FallbackQuestion(course, topic, difficulty, draw) == Entries(course, topic)[draw]
  {
    var xs := Entries(course, topic);
    assert FallbackQuestion(course, topic, difficulty, draw) == Choose(xs, draw);
    if draw < |xs| {
      ChooseReachesEvery(xs, draw);
    }
  }
}
