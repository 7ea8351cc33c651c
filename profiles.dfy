/**
 * The per-user learning record. Both storage back ends declare the same
 * `UserProfile` dataclass (same fields, same defaults, same `__post_init__`),
 * so it is defined once here.
 */
module Profiles {
  import opened Wrappers

  /** A value in the free-form `preferences` dictionary. */
  datatype PrefValue = Text(text: string) | Flag(flag: bool)

  datatype UserProfile = UserProfile(
    user_id: string,
    enrolled_course: Option<string>,
    start_date: Option<string>,
    total_questions: int,
    correct_answers: int,
    current_streak: int,
    longest_streak: int,
    last_quiz_date: Option<string>,
    completed_course: bool,
    preferences: map<string, PrefValue>)

  /** The preferences `__post_init__` installs when none are given. */
  function DefaultPreferences(): map<string, PrefValue> {
    map["difficulty" := Text("medium"), "notifications" := Flag(true), "quiz_time" := Text("09:00")]
  }

  /**
   * `UserProfile(user_id=..., enrolled_course=..., start_date=...)` with every other
   * field at its default; `preferences` is replaced by the defaults only when it is
   * None, so a supplied map (even an empty one) is kept.
   */
  function NewProfile(userId: string, enrolledCourse: Option<string>, startDate: Option<string>,
                      preferences: Option<map<string, PrefValue>>): (p: UserProfile)
    ensures p.user_id == userId && p.enrolled_course == enrolledCourse && p.start_date == startDate
    ensures p.total_questions == 0 && p.correct_answers == 0
    ensures p.current_streak == 0 && p.longest_streak == 0
    ensures p.last_quiz_date == None && !p.completed_course
    ensures p.preferences == if preferences.None? then DefaultPreferences() else preferences.value
  {
    UserProfile(userId, enrolledCourse, startDate, 0, 0, 0, 0, None, false,
                preferences.GetOr(DefaultPreferences()))
  }

  /** The record invariants the quiz engine is meant to keep: correct <= total and longest >= current >= 0. */
  predicate Consistent(p: UserProfile) {
    0 <= p.correct_answers <= p.total_questions && 0 <= p.current_streak <= p.longest_streak
  }

  lemma NewProfileConsistent(userId: string, course: Option<string>, startDate: Option<string>,
                             preferences: Option<map<string, PrefValue>>)
    ensures Consistent(NewProfile(userId, course, startDate, preferences))
  {
  }

  /** An empty preferences map is not None, so `__post_init__` keeps it. */
  lemma EmptyPreferencesKept(userId: string)
    ensures NewProfile(userId, None, None, Some(map[])).preferences == map[]
    ensures NewProfile(userId, None, None, None).preferences != map[]
  {
    assert "difficulty" in DefaultPreferences();
  }

  /**
   * `c / t >= num / den` as Python's unguarded true division compares it, for
   * `t != 0`: cross-multiplied, with the inequality flipped for a negative divisor.
   */
  predicate QuotientAtLeast(c: int, t: int, num: nat, den: nat)
    requires t != 0 && den > 0
  {
    if t > 0 then den * c >= num * t else den * c <= num * t
  }

  /** `accuracy >= num / den` where `accuracy = c / t if t > 0 else 0`. */
  predicate AccuracyAtLeast(c: int, t: int, num: nat, den: nat)
    requires den > 0
  {
    if t > 0 then QuotientAtLeast(c, t, num, den) else num == 0
  }

  /** The cross-multiplied comparison is exactly the comparison of the rational quotients. */
  lemma QuotientAtLeastIsDivision(c: int, t: int, num: nat, den: nat)
    requires t != 0 && den > 0
    ensures QuotientAtLeast(c, t, num, den) <==> (c as real) / (t as real) >= (num as real) / (den as real)
  {
    var q := (c as real) / (t as real);
    var k := (num as real) / (den as real);
    assert q * (t as real) == c as real;
    assert k * (den as real) == num as real;
    if t > 0 {
      calc {
        q >= k;
      <==> q * (t as real) * (den as real) >= k * (t as real) * (den as real);
      <==> (den * c) as real >= (num * t) as real;
      }
    } else {
      calc {
        q >= k;
      <==> q * (t as real) * (den as real) <= k * (t as real) * (den as real);
      <==> (den * c) as real <= (num * t) as real;
      }
    }
  }

  /** The guarded accuracy test is the comparison of `c / t if t > 0 else 0` with `num / den`. */
  lemma AccuracyAtLeastIsDivision(c: int, t: int, num: nat, den: nat)
    requires den > 0
    ensures AccuracyAtLeast(c, t, num, den)
            <==> (if t > 0 then (c as real) / (t as real) else 0.0) >= (num as real) / (den as real)
  {
    if t > 0 {
      QuotientAtLeastIsDivision(c, t, num, den);
    } else if num > 0 {
      assert (num as real) / (den as real) > 0.0;
    }
  }
}
