/**
 * The single-file store used for local development: every profile lives in one
 * users file (a dictionary keyed by user id) and every quiz session in one
 * sessions file (a list). Each file is missing, unreadable as JSON, or present
 * with content; whether a write succeeds is the input `writeOk`, and
 * `datetime.now()` is the input `now`.
 */
module LocalStorage {
  import opened Wrappers
  import opened Profiles

  /** A completed quiz as this store records it (no `time_taken`). */
  datatype QuizSession = QuizSession(
    session_id: string,
    user_id: string,
    course: string,
    questions: seq<map<string, string>>,
    answers: seq<string>,
    score: int,
    completed_date: string)

  /** The state of one JSON file on disk. */
  datatype FileState<T> = Missing | Corrupt | Present(content: T)

  /** A value of the users dictionary: an empty object reads as no profile. */
  datatype UserEntry = EmptyEntry | ProfileEntry(profile: UserProfile)

  /** `_load_json_file`: the content, or the file's empty default when it is missing or corrupt. */
  function Load<T>(f: FileState<T>, empty: T): (r: T)
    ensures f.Present? ==> r == f.content
    ensures !f.Present? ==> r == empty
  {
    if f.Present? then f.content else empty
  }

  /** The users file loads to `{}` when missing or corrupt. */
  function Users(f: FileState<map<string, UserEntry>>): map<string, UserEntry> {
    Load(f, map[])
  }

  /** The sessions file loads to `[]` when missing or corrupt. */
  function Sessions(f: FileState<seq<QuizSession>>): seq<QuizSession> {
    Load(f, [])
  }

  /** `get_user_profile`: the stored record, or None for an absent or empty entry. */
  function GetProfile(f: FileState<map<string, UserEntry>>, userId: string): (r: Option<UserProfile>)
    ensures r.Some? <==> userId in Users(f) && Users(f)[userId].ProfileEntry?
    ensures r.Some? ==> r.value == Users(f)[userId].profile
  {
    var users := Users(f);
    if userId in users && users[userId].ProfileEntry? then Some(users[userId].profile) else None
  }

  /** `save_user_profile`: reload, set this user's entry, write the whole dictionary back. */
  function SaveProfile(f: FileState<map<string, UserEntry>>, p: UserProfile, writeOk: bool): FileState<map<string, UserEntry>> {
    if writeOk then Present(Users(f)[p.user_id := ProfileEntry(p)]) else f
  }

  /** Every profile entry is stored under its own user id. */
  predicate KeysMatch(f: FileState<map<string, UserEntry>>) {
    forall id :: id in Users(f) && Users(f)[id].ProfileEntry? ==> Users(f)[id].profile.user_id == id
  }

  /** Reading back a saved record yields that record. */
  lemma SaveThenGet(f: FileState<map<string, UserEntry>>, p: UserProfile)
    ensures GetProfile(SaveProfile(f, p, true), p.user_id) == Some(p)
  {
  }

  /** On a readable users file, saving one user's record leaves every other entry as it was. */
  lemma SaveKeepsOthers(f: FileState<map<string, UserEntry>>, p: UserProfile, writeOk: bool, other: string)
    requires !f.Corrupt? && other != p.user_id
    ensures GetProfile(SaveProfile(f, p, writeOk), other) == GetProfile(f, other)
  {
  }

  /** A corrupt users file loads as `{}`, so saving one record discards every other user's. */
  lemma SaveOverCorruptFileLosesOthers(p: UserProfile, other: string)
    requires other != p.user_id
    ensures GetProfile(SaveProfile(Corrupt, p, true), other) == None
    ensures Users(SaveProfile(Corrupt, p, true)) == map[p.user_id := ProfileEntry(p)]
  {
  }

  lemma SaveKeepsKeysMatch(f: FileState<map<string, UserEntry>>, p: UserProfile, writeOk: bool)
    requires KeysMatch(f)
    ensures KeysMatch(SaveProfile(f, p, writeOk))
  {
  }

  /**
   * The record `enroll_user` writes: a fresh profile for an unknown user;
   * otherwise the stored record with the new course and a start date reset to `now`.
   */
  function EnrolledProfile(f: FileState<map<string, UserEntry>>, userId: string, course: string, now: string): UserProfile {
    match GetProfile(f, userId)
    case None => NewProfile(userId, Some(course), Some(now), None)
    case Some(p) => p.(enrolled_course := Some(course), start_date := Some(now))
  }

  /** Re-enrolling always restarts the course, and keeps counters, streaks and preferences. */
  lemma EnrollResetsStartDate(f: FileState<map<string, UserEntry>>, userId: string, course: string, now: string)
    requires GetProfile(f, userId).Some?
    ensures var before := GetProfile(f, userId).value;
      var p := EnrolledProfile(f, userId, course, now);
      p.start_date == Some(now) && p.enrolled_course == Some(course)
      && p.total_questions == before.total_questions && p.correct_answers == before.correct_answers
      && p.current_streak == before.current_streak && p.longest_streak == before.longest_streak
      && p.preferences == before.preferences && p.user_id == before.user_id
  {
  }

  /** Enrolling an unknown user creates a fresh profile. */
  lemma EnrollNewUser(f: FileState<map<string, UserEntry>>, userId: string, course: string, now: string)
    requires GetProfile(f, userId).None?
    ensures EnrolledProfile(f, userId, course, now) == NewProfile(userId, Some(course), Some(now), None)
  {
  }

  /**
   * The record after `update_user_stats`: both counts are added as given, the
   * quiz date is set, and a quiz with as many correct answers as questions
   * (0 of 0 included) extends the streak while any other resets it.
   */
  function ApplyQuizStats(p: UserProfile, correct: int, total: int, now: string): (r: UserProfile)
    ensures r.total_questions == p.total_questions + total && r.correct_answers == p.correct_answers + correct
    ensures r.last_quiz_date == Some(now)
    ensures correct == total ==> r.current_streak == p.current_streak + 1
    ensures correct != total ==> r.current_streak == 0
    ensures correct == total ==> r.longest_streak == if p.longest_streak >= r.current_streak then p.longest_streak else r.current_streak
    ensures correct != total ==> r.longest_streak == p.longest_streak
    ensures r.user_id == p.user_id && r.enrolled_course == p.enrolled_course && r.preferences == p.preferences
    ensures r.start_date == p.start_date && r.completed_course == p.completed_course
  {
    var q := p.(total_questions := p.total_questions + total,
                correct_answers := p.correct_answers + correct,
                last_quiz_date := Some(now));
    if correct == total then
      var streak := q.current_streak + 1;
      q.(current_streak := streak, longest_streak := if q.longest_streak >= streak then q.longest_streak else streak)
    else
      q.(current_streak := 0)
  }

  /** A quiz with no questions counts as perfect and extends the streak. */
  lemma EmptyQuizExtendsStreak(p: UserProfile, now: string)
    ensures ApplyQuizStats(p, 0, 0, now).current_streak == p.current_streak + 1
    ensures ApplyQuizStats(p, 0, 0, now).total_questions == p.total_questions
  {
  }

  /** With counts a quiz can produce (0 <= correct <= total), a consistent record stays consistent. */
  lemma QuizStatsKeepConsistent(p: UserProfile, correct: int, total: int, now: string)
    requires Consistent(p) && 0 <= correct <= total
    ensures Consistent(ApplyQuizStats(p, correct, total, now))
  {
  }

  /** The counts are not validated: more correct answers than questions breaks `correct <= total`. */
  lemma UnvalidatedCountsBreakConsistency(p: UserProfile, now: string)
    requires p.total_questions == 0 && p.correct_answers == 0
    ensures !Consistent(ApplyQuizStats(p, 3, 1, now))
  {
  }

  /** The sessions of `userId`, in stored order (`[s for s in sessions if s.get('user_id') == user_id]`). */
  function SessionsOf(ss: seq<QuizSession>, userId: string): (r: seq<QuizSession>)
    ensures |r| <= |ss|
    ensures forall i :: 0 <= i < |r| ==> r[i].user_id == userId
    ensures forall s :: s in r <==> s in ss && s.user_id == userId
  {
    if ss == [] then []
    else
      var last := ss[|ss| - 1];
      SessionsOf(ss[..|ss| - 1], userId) + (if last.user_id == userId then [last] else [])
  }

  /** Filtering distributes over concatenation, so it keeps the stored order. */
  lemma {:induction false} SessionsOfConcat(a: seq<QuizSession>, b: seq<QuizSession>, userId: string)
    ensures SessionsOf(a + b, userId) == SessionsOf(a, userId) + SessionsOf(b, userId)
    decreases |b|
  {
    if b != [] {
      var b' := b[..|b| - 1];
      assert (a + b)[..|a + b| - 1] == a + b';
      SessionsOfConcat(a, b', userId);
    } else {
      assert a + b == a;
    }
  }

  /** A session of another user does not show up in this user's list. */
  lemma SessionsOfOtherAppend(ss: seq<QuizSession>, s: QuizSession, userId: string)
    requires s.user_id != userId
    ensures SessionsOf(ss + [s], userId) == SessionsOf(ss, userId)
  {
    assert (ss + [s])[..|ss|] == ss;
  }

  /** `save_quiz_session`: reload the list, append, write it back. */
  function AppendSession(f: FileState<seq<QuizSession>>, s: QuizSession, writeOk: bool): FileState<seq<QuizSession>> {
    if writeOk then Present(Sessions(f) + [s]) else f
  }

  /** A saved session is the last of its user's sessions, after the earlier ones in order. */
  lemma AppendThenSessions(f: FileState<seq<QuizSession>>, s: QuizSession)
    ensures SessionsOf(Sessions(AppendSession(f, s, true)), s.user_id) == SessionsOf(Sessions(f), s.user_id) + [s]
  {
    assert (Sessions(f) + [s])[..|Sessions(f)|] == Sessions(f);
  }

  class Store {
    /** `users.json` */
    var users: FileState<map<string, UserEntry>>
    /** `quiz_sessions.json` */
    var sessions: FileState<seq<QuizSession>>

    ghost predicate Valid()
      reads this
    {
      KeysMatch(users)
    }

    /** `_initialize_files`: a missing file starts out as its empty default. */
    constructor()
      ensures users == Present(map[]) && sessions == Present([]) && Valid()
    {
      users := Present(map[]);
      sessions := Present([]);
    }

    method GetUserProfile(userId: string) returns (r: Option<UserProfile>)
      ensures r == GetProfile(users, userId)
    {
      var all := Load(users, map[]);
      r := None;
      if userId in all && all[userId].ProfileEntry? {
        r := Some(all[userId].profile);
      }
    }

    method SaveUserProfile(p: UserProfile, writeOk: bool) returns (ok: bool)
      requires Valid()
      modifies this
      ensures Valid() && ok == writeOk
      ensures users == SaveProfile(old(users), p, writeOk) && sessions == old(sessions)
    {
      SaveKeepsKeysMatch(users, p, writeOk);
      var all := Load(users, map[]);
      all := all[p.user_id := ProfileEntry(p)];
      if writeOk {
        users := Present(all);
      }
      ok := writeOk;
    }

    /** `enroll_user`: returns what the save returns. */
    method EnrollUser(userId: string, course: string, now: string, writeOk: bool) returns (ok: bool)
      requires Valid()
      modifies this
      ensures Valid() && ok == writeOk
      ensures users == SaveProfile(old(users), EnrolledProfile(old(users), userId, course, now), writeOk)
      ensures sessions == old(sessions)
    {
      var profile := GetUserProfile(userId);
      var p: UserProfile;
      if profile.None? {
        p := NewProfile(userId, Some(course), Some(now), None);
      } else {
        p := profile.value.(enrolled_course := Some(course), start_date := Some(now));
      }
      ok := SaveUserProfile(p, writeOk);
    }

    method SaveQuizSession(s: QuizSession, writeOk: bool) returns (ok: bool)
      modifies this
      ensures ok == writeOk
      ensures sessions == AppendSession(old(sessions), s, writeOk) && users == old(users)
    {
      var all := Load(sessions, []);
      all := all + [s];
      if writeOk {
        sessions := Present(all);
      }
      ok := writeOk;
    }

    method GetUserSessions(userId: string) returns (r: seq<QuizSession>)
      ensures r == SessionsOf(Sessions(sessions), userId)
    {
      var all := Load(sessions, []);
      r := [];
      var i := 0;
      while i < |all|
        invariant 0 <= i <= |all|
        invariant r == SessionsOf(all[..i], userId)
      {
        assert all[..i + 1][..i] == all[..i];
        if all[i].user_id == userId {
          r := r + [all[i]];
        }
        i := i + 1;
      }
      assert all[..i] == all;
    }

    /** `update_user_stats`: False and no write for an unknown user; otherwise what the save returns. */
    method UpdateUserStats(userId: string, correct: int, total: int, now: string, writeOk: bool) returns (ok: bool)
      requires Valid()
      modifies this
      ensures Valid() && sessions == old(sessions)
      ensures GetProfile(old(users), userId).None? ==> !ok && users == old(users)
      ensures GetProfile(old(users), userId).Some? ==>
                ok == writeOk
                && users == SaveProfile(old(users), ApplyQuizStats(GetProfile(old(users), userId).value, correct, total, now), writeOk)
    {
      var profile := GetUserProfile(userId);
      if profile.None? {
        return false;
      }
      var p := profile.value;
      p := p.(total_questions := p.total_questions + total,
              correct_answers := p.correct_answers + correct,
              last_quiz_date := Some(now));
      if correct == total {
        p := p.(current_streak := p.current_streak + 1);
        p := p.(longest_streak := if p.longest_streak >= p.current_streak then p.longest_streak else p.current_streak);
      } else {
        p := p.(current_streak := 0);
      }
      ok := SaveUserProfile(p, writeOk);
    }
  }
}
