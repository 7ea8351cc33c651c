/**
 * The file-per-user store of the sandbox: one profile file per user and one
 * quiz-history file per user. The file system is modelled as two maps keyed by
 * user id (the file name is derived from the id alone); whether a write
 * succeeds is an input, `writeOk`, and `datetime.now()` is the input `now`.
 */
module SandboxStorage {
  import opened Wrappers
  import opened Profiles

  /** A completed quiz; the `questions` dictionaries are kept as string maps. */
  datatype QuizSession = QuizSession(
    session_id: string,
    user_id: string,
    course: string,
    questions: seq<map<string, string>>,
    answers: seq<string>,
    score: int,
    completed_date: string,
    time_taken: int)

  /** The counting part of `get_storage_stats` (`storage_size_mb` is not modelled). */
  datatype StorageStats = StorageStats(
    total_users: nat,
    total_quizzes: nat,
    enrolled_users: nat,
    active_courses: set<string>)

  // ------------------------------------------------------------ the two maps

  /** `get_user_profile`: the record stored for `userId`, if its file exists. */
  function GetProfile(profiles: map<string, UserProfile>, userId: string): (r: Option<UserProfile>)
    ensures r.Some? <==> userId in profiles
    ensures r.Some? ==> r.value == profiles[userId]
  {
    if userId in profiles then Some(profiles[userId]) else None
  }

  /** `save_user_profile`: the whole record overwrites the file named by its `user_id`. */
  function SaveProfile(profiles: map<string, UserProfile>, p: UserProfile, writeOk: bool): (r: map<string, UserProfile>)
    ensures writeOk ==> r == profiles[p.user_id := p]
    ensures !writeOk ==> r == profiles
  {
    if writeOk then profiles[p.user_id := p] else profiles
  }

  /** Each profile file holds the record of the user it is named after. */
  predicate KeysMatch(profiles: map<string, UserProfile>) {
    forall id :: id in profiles ==> profiles[id].user_id == id
  }

  /** Saving and then reading the same id yields the saved record. */
  lemma SaveThenGet(profiles: map<string, UserProfile>, p: UserProfile)
    ensures GetProfile(SaveProfile(profiles, p, true), p.user_id) == Some(p)
  {
  }

  /** Saving one user's record leaves every other user's record as it was. */
  lemma SaveKeepsOthers(profiles: map<string, UserProfile>, p: UserProfile, writeOk: bool, other: string)
    requires other != p.user_id
    ensures GetProfile(SaveProfile(profiles, p, writeOk), other) == GetProfile(profiles, other)
  {
  }

  /** An id never saved reads as None. */
  lemma UnknownIsNone(profiles: map<string, UserProfile>, p: UserProfile, userId: string)
    requires userId !in profiles && userId != p.user_id
    ensures GetProfile(SaveProfile(profiles, p, true), userId) == None
  {
  }

  lemma SaveKeepsKeysMatch(profiles: map<string, UserProfile>, p: UserProfile, writeOk: bool)
    requires KeysMatch(profiles)
    ensures KeysMatch(SaveProfile(profiles, p, writeOk))
  {
  }

  /**
   * The record `enroll_user` writes: a fresh profile enrolled in `course` and
   * started `now` for an unknown user; otherwise the stored record with the new
   * course, and a start date only if it had none.
   */
  function EnrolledProfile(profiles: map<string, UserProfile>, userId: string, course: string, now: string): UserProfile {
    match GetProfile(profiles, userId)
    case None => NewProfile(userId, Some(course), Some(now), None)
    case Some(p) =>
      p.(enrolled_course := Some(course),
         start_date := if p.start_date.None? then Some(now) else p.start_date)
  }

  /** Enrolling an unknown user stores a fresh profile with zero counters. */
  lemma EnrollNewUser(profiles: map<string, UserProfile>, userId: string, course: string, now: string)
    requires userId !in profiles
    ensures var p := EnrolledProfile(profiles, userId, course, now);
      p.user_id == userId && p.enrolled_course == Some(course) && p.start_date == Some(now)
      && p.total_questions == 0 && p.correct_answers == 0 && p.current_streak == 0 && p.longest_streak == 0
      && p.preferences == DefaultPreferences()
  {
  }

  /** Re-enrolling changes the course and fills a missing start date; nothing else changes. */
  lemma EnrollExistingUser(profiles: map<string, UserProfile>, userId: string, course: string, now: string)
    requires userId in profiles
    ensures var old_ := profiles[userId];
      var p := EnrolledProfile(profiles, userId, course, now);
      p == old_.(enrolled_course := Some(course), start_date := p.start_date)
      && (old_.start_date.Some? ==> p.start_date == old_.start_date)
      && (old_.start_date.None? ==> p.start_date == Some(now))
  {
  }

  /** `save_quiz_session`: the session is appended to its user's history file. */
  function AppendSession(quizzes: map<string, seq<QuizSession>>, s: QuizSession, writeOk: bool): (r: map<string, seq<QuizSession>>)
    ensures writeOk ==> r == quizzes[s.user_id := History(quizzes, s.user_id) + [s]]
    ensures !writeOk ==> r == quizzes
  {
    if writeOk then quizzes[s.user_id := History(quizzes, s.user_id) + [s]] else quizzes
  }

  /** `get_user_quiz_history`: the user's sessions, or [] when the user has no file. */
  function History(quizzes: map<string, seq<QuizSession>>, userId: string): (r: seq<QuizSession>)
    ensures userId !in quizzes ==> r == []
  {
    if userId in quizzes then quizzes[userId] else []
  }

  /** Appending puts the session last and keeps the user's earlier sessions in order. */
  lemma AppendThenHistory(quizzes: map<string, seq<QuizSession>>, s: QuizSession)
    ensures History(AppendSession(quizzes, s, true), s.user_id) == History(quizzes, s.user_id) + [s]
  {
  }

  lemma AppendKeepsOthers(quizzes: map<string, seq<QuizSession>>, s: QuizSession, writeOk: bool, other: string)
    requires other != s.user_id
    ensures History(AppendSession(quizzes, s, writeOk), other) == History(quizzes, other)
  {
  }

  /** Each history file holds only sessions of the user it is named after. */
  predicate SessionsMatch(quizzes: map<string, seq<QuizSession>>) {
    forall id, i :: id in quizzes && 0 <= i < |quizzes[id]| ==> quizzes[id][i].user_id == id
  }

  lemma AppendKeepsSessionsMatch(quizzes: map<string, seq<QuizSession>>, s: QuizSession, writeOk: bool)
    requires SessionsMatch(quizzes)
    ensures SessionsMatch(AppendSession(quizzes, s, writeOk))
  {
  }

  // ------------------------------------------------------------ statistics

  /** `profile_data.get('enrolled_course')` is truthy: present and non-empty. */
  predicate IsEnrolled(p: UserProfile) {
    p.enrolled_course.Some? && p.enrolled_course.value != ""
  }

  /** The users among `ids` that count as enrolled. */
  function EnrolledAmong(profiles: map<string, UserProfile>, ids: set<string>): set<string> {
    set id | id in ids && id in profiles && IsEnrolled(profiles[id])
  }

  /** The distinct courses of the users among `ids`. */
  function CoursesAmong(profiles: map<string, UserProfile>, ids: set<string>): set<string> {
    set id | id in EnrolledAmong(profiles, ids) :: profiles[id].enrolled_course.value
  }

  /** Adding one more user to those already counted. */
  lemma AmongStep(profiles: map<string, UserProfile>, done: set<string>, id: string)
    requires id in profiles && id !in done
    ensures IsEnrolled(profiles[id]) ==>
              EnrolledAmong(profiles, done + {id}) == EnrolledAmong(profiles, done) + {id}
              && |EnrolledAmong(profiles, done + {id})| == |EnrolledAmong(profiles, done)| + 1
              && CoursesAmong(profiles, done + {id}) == CoursesAmong(profiles, done) + {profiles[id].enrolled_course.value}
    ensures !IsEnrolled(profiles[id]) ==>
              EnrolledAmong(profiles, done + {id}) == EnrolledAmong(profiles, done)
              && CoursesAmong(profiles, done + {id}) == CoursesAmong(profiles, done)
  {
    if IsEnrolled(profiles[id]) {
      assert EnrolledAmong(profiles, done + {id}) == EnrolledAmong(profiles, done) + {id};
    } else {
      assert EnrolledAmong(profiles, done + {id}) == EnrolledAmong(profiles, done);
    }
  }

  /** The number of sessions over all history files. */
  ghost function SessionTotal(quizzes: map<string, seq<QuizSession>>): nat
    decreases |quizzes.Keys|
  {
    if quizzes.Keys == {} then 0
    else
      var id :| id in quizzes;
      |quizzes[id]| + SessionTotal(quizzes - {id})
  }

  /** The sum does not depend on which file is counted first. */
  lemma {:induction false} SessionTotalRemove(quizzes: map<string, seq<QuizSession>>, k: string)
    requires k in quizzes
    ensures SessionTotal(quizzes) == |quizzes[k]| + SessionTotal(quizzes - {k})
    decreases |quizzes.Keys|
  {
    var id :| id in quizzes && SessionTotal(quizzes) == |quizzes[id]| + SessionTotal(quizzes - {id});
    if id != k {
      var rest := quizzes - {id};
      assert k in rest && |rest.Keys| < |quizzes.Keys| by {
        assert rest.Keys == quizzes.Keys - {id};
      }
      SessionTotalRemove(rest, k);
      var both := rest - {k};
      assert (quizzes - {k}) - {id} == both;
      assert id in quizzes - {k} && |(quizzes - {k}).Keys| < |quizzes.Keys| by {
        assert (quizzes - {k}).Keys == quizzes.Keys - {k};
      }
      SessionTotalRemove(quizzes - {k}, id);
    }
  }

  /** A subset is no larger than its superset. */
  lemma {:induction false} SubsetCard<T>(a: set<T>, b: set<T>)
    requires a <= b
    ensures |a| <= |b|
    decreases |b|
  {
    if a != {} {
      var x :| x in a;
      SubsetCard(a - {x}, b - {x});
    }
  }

  /** The image of a set under a map is no larger than the set. */
  lemma {:induction false} CoursesAtMostEnrolled(profiles: map<string, UserProfile>, ids: set<string>)
    ensures |CoursesAmong(profiles, ids)| <= |EnrolledAmong(profiles, ids)|
    decreases |ids|
  {
    var e := EnrolledAmong(profiles, ids);
    if e != {} {
      var x :| x in e;
      var rest := ids - {x};
      CoursesAtMostEnrolled(profiles, rest);
      assert EnrolledAmong(profiles, rest) == e - {x};
      assert CoursesAmong(profiles, ids) <= CoursesAmong(profiles, rest) + {profiles[x].enrolled_course.value};
      SubsetCard(CoursesAmong(profiles, ids), CoursesAmong(profiles, rest) + {profiles[x].enrolled_course.value});
    }
  }

  /** What `get_storage_stats` counts, for the given files. */
  ghost function Stats(profiles: map<string, UserProfile>, quizzes: map<string, seq<QuizSession>>): StorageStats {
    StorageStats(|profiles.Keys|, SessionTotal(quizzes), |EnrolledAmong(profiles, profiles.Keys)|,
                 CoursesAmong(profiles, profiles.Keys))
  }

  /**
   * Enrolled users never outnumber users, and each active course is the course of
   * at least one enrolled user, so there are no more courses than enrolled users.
   */
  lemma StatsBounds(profiles: map<string, UserProfile>, quizzes: map<string, seq<QuizSession>>)
    ensures Stats(profiles, quizzes).enrolled_users <= Stats(profiles, quizzes).total_users
    ensures |Stats(profiles, quizzes).active_courses| <= Stats(profiles, quizzes).enrolled_users
    ensures forall c :: c in Stats(profiles, quizzes).active_courses <==>
              exists id :: id in profiles && profiles[id].enrolled_course == Some(c) && c != ""
  {
    SubsetCard(EnrolledAmong(profiles, profiles.Keys), profiles.Keys);
    CoursesAtMostEnrolled(profiles, profiles.Keys);
    forall c | exists id :: id in profiles && profiles[id].enrolled_course == Some(c) && c != ""
      ensures c in CoursesAmong(profiles, profiles.Keys)
    {
      var id :| id in profiles && profiles[id].enrolled_course == Some(c) && c != "";
      assert id in EnrolledAmong(profiles, profiles.Keys);
    }
  }

  // ------------------------------------------------------------ the store

  class Store {
    /** `users/{user_id}_profile.json`, by user id. */
    var profiles: map<string, UserProfile>
    /** `quizzes/{user_id}_quizzes.json`, by user id. */
    var quizzes: map<string, seq<QuizSession>>

    ghost predicate Valid()
      reads this
    {
      KeysMatch(profiles) && SessionsMatch(quizzes)
    }

    /** A store over empty data directories. */
    constructor()
      ensures profiles == map[] && quizzes == map[] && Valid()
    {
      profiles := map[];
      quizzes := map[];
    }

    method GetUserProfile(userId: string) returns (r: Option<UserProfile>)
      ensures r == GetProfile(profiles, userId)
    {
      if userId in profiles {
        r := Some(profiles[userId]);
      } else {
        r := None;
      }
    }

    method SaveUserProfile(p: UserProfile, writeOk: bool) returns (ok: bool)
      requires Valid()
      modifies this
      ensures Valid() && ok == writeOk
      ensures profiles == SaveProfile(old(profiles), p, writeOk) && quizzes == old(quizzes)
    {
      if writeOk {
        profiles := profiles[p.user_id := p];
      }
      ok := writeOk;
    }

    /** `enroll_user`: the save's outcome is ignored, so the answer is always true. */
    method EnrollUser(userId: string, course: string, now: string, writeOk: bool) returns (ok: bool)
      requires Valid()
      modifies this
      ensures Valid() && ok
      ensures profiles == SaveProfile(old(profiles), EnrolledProfile(old(profiles), userId, course, now), writeOk)
      ensures quizzes == old(quizzes)
    {
      var profile := GetUserProfile(userId);
      var p: UserProfile;
      if profile.None? {
        p := NewProfile(userId, Some(course), Some(now), None);
      } else {
        p := profile.value.(enrolled_course := Some(course));
        if p.start_date.None? {
          p := p.(start_date := Some(now));
        }
      }
      assert p.user_id == userId;
      var _ := SaveUserProfile(p, writeOk);
      ok := true;
    }

    method SaveQuizSession(s: QuizSession, writeOk: bool) returns (ok: bool)
      requires Valid()
      modifies this
      ensures Valid() && ok == writeOk
      ensures quizzes == AppendSession(old(quizzes), s, writeOk) && profiles == old(profiles)
    {
      var sessions: seq<QuizSession> := [];
      if s.user_id in quizzes {
        sessions := quizzes[s.user_id];
      }
      sessions := sessions + [s];
      if writeOk {
        quizzes := quizzes[s.user_id := sessions];
      }
      ok := writeOk;
    }

    method GetUserQuizHistory(userId: string) returns (r: seq<QuizSession>)
      ensures r == History(quizzes, userId)
    {
      r := [];
      if userId in quizzes {
        r := quizzes[userId];
      }
    }

    /** `get_storage_stats`: one pass over the profile files and one over the history files. */
    method GetStorageStats() returns (stats: StorageStats)
      ensures stats == Stats(profiles, quizzes)
    {
      var enrolled, courses := ScanProfiles();
      var total := CountSessions();
      stats := StorageStats(|profiles.Keys|, total, enrolled, courses);
    }

    /** The pass over the profile files: the enrolled users and their distinct courses. */
    method ScanProfiles() returns (enrolled: nat, courses: set<string>)
      ensures enrolled == |EnrolledAmong(profiles, profiles.Keys)|
      ensures courses == CoursesAmong(profiles, profiles.Keys)
    {
      enrolled := 0;
      courses := {};
      var remaining := profiles.Keys;
      ghost var done: set<string> := {};
      while remaining != {}
        invariant remaining !! done && remaining + done == profiles.Keys
        invariant enrolled == |EnrolledAmong(profiles, done)|
        invariant courses == CoursesAmong(profiles, done)
        decreases |remaining|
      {
        var id :| id in remaining;
        var p := profiles[id];
        AmongStep(profiles, done, id);
        if p.enrolled_course.Some? && p.enrolled_course.value != "" {
          enrolled := enrolled + 1;
          courses := courses + {p.enrolled_course.value};
        }
        remaining := remaining - {id};
        done := done + {id};
      }
      assert done == profiles.Keys;
    }

    /** The pass over the history files: the number of sessions they hold. */
    method CountSessions() returns (total: nat)
      ensures total == SessionTotal(quizzes)
    {
      total := 0;
      var files := quizzes;
      while files.Keys != {}
        invariant total + SessionTotal(files) == SessionTotal(quizzes)
        decreases |files.Keys|
      {
        var id :| id in files;
        SessionTotalRemove(files, id);
        total := total + |files[id]|;
        assert (files - {id}).Keys == files.Keys - {id};
        files := files - {id};
      }
    }
  }
}
