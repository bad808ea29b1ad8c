/**
 * The backend's documents (the pydantic models of server.py, with times as integer seconds)
 * and its pure rules: the winter title tiers, the score, the streak update and the lookup of
 * the session token a request carries.
 */
module ServerRules {
  import opened Wrappers
  import opened Text

  datatype UserDoc = UserDoc(
    id: string, email: string, name: string, picture: Option<string>, winterTitle: string,
    totalScore: int, streakDays: int, longestStreak: int, createdAt: int, lastActive: int)

  datatype HabitDoc = HabitDoc(
    id: string, userId: string, name: string, category: string,
    targetValue: Option<string>, unit: Option<string>, createdAt: int)

  datatype LogDoc = LogDoc(
    id: string, userId: string, habitId: string, value: string, notes: Option<string>,
    loggedAt: int, aiResponse: Option<string>)

  datatype MessageDoc = MessageDoc(id: string, userId: string, message: string, isUser: bool, timestamp: int)

  datatype SessionDoc = SessionDoc(sessionToken: string, userId: string, expiresAt: int, createdAt: int)

  // ---------------------------------------------------------------------------------------
  // Winter titles

  datatype Title = FrozenRecruit | IceApprentice | FrostWalker | WinterGuardian | FrozenWarrior | IceEmperor
  {
    function Name(): string {
      match this
      case FrozenRecruit => "Frozen Recruit"
      case IceApprentice => "Ice Apprentice"
      case FrostWalker => "Frost Walker"
      case WinterGuardian => "Winter Guardian"
      case FrozenWarrior => "Frozen Warrior"
      case IceEmperor => "Ice Emperor"
    }

    /** Position in the ladder, 0 for the lowest title. */
    function Tier(): nat {
      match this
      case FrozenRecruit => 0
      case IceApprentice => 1
      case FrostWalker => 2
      case WinterGuardian => 3
      case FrozenWarrior => 4
      case IceEmperor => 5
    }
  }

  /** What a title demands; Ice Apprentice asks nothing of the streak, Frozen Recruit nothing at all. */
  predicate Earns(t: Title, score: int, streak: int) {
    match t
    case FrozenRecruit => true
    case IceApprentice => score >= 100
    case FrostWalker => streak >= 7 && score >= 200
    case WinterGuardian => streak >= 14 && score >= 500
    case FrozenWarrior => streak >= 21 && score >= 700
    case IceEmperor => streak >= 30 && score >= 1000
  }

  /** `get_winter_title`: the highest title whose demands are met. */
  function WinterTitle(score: int, streak: int): (t: Title)
    ensures Earns(t, score, streak)
    ensures forall u: Title :: u.Tier() > t.Tier() ==> !Earns(u, score, streak)
  {
    if streak >= 30 && score >= 1000 then IceEmperor
    else if streak >= 21 && score >= 700 then FrozenWarrior
    else if streak >= 14 && score >= 500 then WinterGuardian
    else if streak >= 7 && score >= 200 then FrostWalker
    else if score >= 100 then IceApprentice
    else FrozenRecruit
  }

  lemma EarnsMonotone(t: Title, score: int, streak: int, score': int, streak': int)
    requires score <= score' && streak <= streak'
    requires Earns(t, score, streak)
    ensures Earns(t, score', streak')
  {
  }

  /** More points or a longer streak never cost a title. */
  lemma TitleMonotone(score: int, streak: int, score': int, streak': int)
    requires score <= score' && streak <= streak'
    ensures WinterTitle(score, streak).Tier() <= WinterTitle(score', streak').Tier()
  {
    EarnsMonotone(WinterTitle(score, streak), score, streak, score', streak');
  }

  // ---------------------------------------------------------------------------------------
  // Score

  /** `db.habit_logs.find({"user_id": user_id})`. */
  function LogsOf(logs: seq<LogDoc>, userId: string): (r: seq<LogDoc>)
    ensures |r| <= |logs|
    ensures forall l :: l in r <==> l in logs && l.userId == userId
  {
    if logs == [] then []
    else LogsOf(logs[..|logs| - 1], userId)
         + (if logs[|logs| - 1].userId == userId then [logs[|logs| - 1]] else [])
  }

  /** The most logs `calculate_user_score` fetches. */
  const ScoreFetchCap: nat := 1000

  /** `calculate_user_score`: ten points per logged habit among the first 1000 fetched. */
  function UserScore(logs: seq<LogDoc>, userId: string): (score: nat)
    ensures score % 10 == 0 && score <= 10 * ScoreFetchCap
    ensures |LogsOf(logs, userId)| <= ScoreFetchCap ==> score == 10 * |LogsOf(logs, userId)|
    ensures |LogsOf(logs, userId)| >= ScoreFetchCap ==> score == 10 * ScoreFetchCap
  {
    var n := |LogsOf(logs, userId)|;
    10 * (if n <= ScoreFetchCap then n else ScoreFetchCap)
  }

  /** One more log is worth ten more points until the fetch cap is reached. */
  lemma ScoreAfterLog(logs: seq<LogDoc>, l: LogDoc)
    ensures UserScore(logs + [l], l.userId)
         == if UserScore(logs, l.userId) < 10 * ScoreFetchCap then UserScore(logs, l.userId) + 10
            else UserScore(logs, l.userId)
  {
    assert (logs + [l])[..|logs + [l]| - 1] == logs;
  }

  /** Logs of other users do not change a user's score. */
  lemma ScoreIgnoresOthers(logs: seq<LogDoc>, l: LogDoc, userId: string)
    requires l.userId != userId
    ensures UserScore(logs + [l], userId) == UserScore(logs, userId)
  {
    assert (logs + [l])[..|logs + [l]| - 1] == logs;
  }

  // ---------------------------------------------------------------------------------------
  // Streak

  datatype Streak = Streak(days: int, longest: int)

  /** Logs of `userId` made at or after `todayStart`. */
  function TodayLogCount(logs: seq<LogDoc>, userId: string, todayStart: int): (n: nat)
    ensures n <= |LogsOf(logs, userId)|
    ensures n > 0 <==> exists l :: l in logs && l.userId == userId && l.loggedAt >= todayStart
  {
    if logs == [] then 0
    else
      var last := logs[|logs| - 1];
      var prefix := logs[..|logs| - 1];
      assert logs == prefix + [last];
      TodayLogCount(prefix, userId, todayStart) + (if last.userId == userId && last.loggedAt >= todayStart then 1 else 0)
  }

  /** The streak arithmetic of `update_user_streak`. */
  function NextStreak(s: Streak, todayLogs: nat): (r: Streak)
    ensures todayLogs > 0 ==> r.days == s.days + 1 && r.longest >= r.days && r.longest >= s.longest
    ensures todayLogs > 0 ==> r.longest == r.days || r.longest == s.longest
    ensures todayLogs == 0 ==> r == Streak(0, s.longest)
  {
    if todayLogs > 0 then
      var days := s.days + 1;
      Streak(days, if days >= s.longest then days else s.longest)
    else Streak(0, s.longest)
  }

  /** A streak never overtakes the record, before or after an update. */
  lemma StreakWithinLongest(s: Streak, todayLogs: nat)
    requires 0 <= s.days <= s.longest
    ensures 0 <= NextStreak(s, todayLogs).days <= NextStreak(s, todayLogs).longest
  {
  }

  /** Today's count after one more log. */
  lemma TodayLogCountAppend(logs: seq<LogDoc>, l: LogDoc, userId: string, todayStart: int)
    ensures TodayLogCount(logs + [l], userId, todayStart)
            == TodayLogCount(logs, userId, todayStart) + (if l.userId == userId && l.loggedAt >= todayStart then 1 else 0)
  {
    assert (logs + [l])[..|logs|] == logs;
  }

  /** Logs of one user, all made today. */
  predicate AllToday(batch: seq<LogDoc>, userId: string, todayStart: int) {
    forall k :: 0 <= k < |batch| ==> batch[k].userId == userId && batch[k].loggedAt >= todayStart
  }

  /**
   * The streak after logging `batch` one log at a time, each log followed by the streak
   * update `step` over today's count, as `log_habit` does.
   */
  function Replay(step: (Streak, nat) -> Streak, s: Streak, logs: seq<LogDoc>, batch: seq<LogDoc>,
                  userId: string, todayStart: int): Streak
    decreases |batch|
  {
    if batch == [] then s
    else Replay(step, step(s, CountAfter(logs, batch[0], userId, todayStart)), logs + [batch[0]], batch[1..], userId, todayStart)
  }

  /** Today's count right after `l` is inserted. */
  function CountAfter(logs: seq<LogDoc>, l: LogDoc, userId: string, todayStart: int): nat {
    TodayLogCount(logs + [l], userId, todayStart)
  }

  /**
   * As written, the update adds a day for every log made today: logging n habits in one day
   * lengthens the streak by n days.
   */
  lemma {:induction false} StreakCountsLogs(s: Streak, logs: seq<LogDoc>, batch: seq<LogDoc>, userId: string, todayStart: int)
    requires AllToday(batch, userId, todayStart)
    ensures Replay(NextStreak, s, logs, batch, userId, todayStart).days == s.days + |batch|
    decreases |batch|
  {
    if batch != [] {
      var logs' := logs + [batch[0]];
      var n := CountAfter(logs, batch[0], userId, todayStart);
      TodayLogCountAppend(logs, batch[0], userId, todayStart);
      assert n > 0;
      assert AllToday(batch[1..], userId, todayStart) by {
        forall k | 0 <= k < |batch[1..]| ensures batch[1..][k] == batch[k + 1] { }
      }
      StreakCountsLogs(NextStreak(s, n), logs', batch[1..], userId, todayStart);
      assert Replay(NextStreak, s, logs, batch, userId, todayStart)
          == Replay(NextStreak, NextStreak(s, n), logs', batch[1..], userId, todayStart);
    }
  }

  /**
   * The streak as a count of days with activity: the first log of the day (today's count has
   * just become 1) adds a day, later logs that day leave it, and a day without logs resets it.
   */
  function DailyStreak(s: Streak, todayLogs: nat): (r: Streak)
    ensures r == s || r.days == s.days + 1 || r.days == 0
    ensures r.longest >= s.longest
    ensures todayLogs > 0 && s.days <= s.longest ==> r.days <= r.longest
    ensures todayLogs == 0 ==> r.days == 0
  {
    if todayLogs == 1 then NextStreak(s, 1)
    else if todayLogs > 1 then s
    else NextStreak(s, 0)
  }

  /** Once today is counted, further logs today leave the daily streak alone. */
  lemma {:induction false} DailyStreakCountedOnce(s: Streak, logs: seq<LogDoc>, batch: seq<LogDoc>, userId: string, todayStart: int)
    requires AllToday(batch, userId, todayStart)
    requires TodayLogCount(logs, userId, todayStart) >= 1
    ensures Replay(DailyStreak, s, logs, batch, userId, todayStart) == s
    decreases |batch|
  {
    if batch != [] {
      var logs' := logs + [batch[0]];
      var n := CountAfter(logs, batch[0], userId, todayStart);
      TodayLogCountAppend(logs, batch[0], userId, todayStart);
      assert n > 1;
      assert AllToday(batch[1..], userId, todayStart) by {
        forall k | 0 <= k < |batch[1..]| ensures batch[1..][k] == batch[k + 1] { }
      }
      DailyStreakCountedOnce(s, logs', batch[1..], userId, todayStart);
      assert DailyStreak(s, n) == s;
      assert Replay(DailyStreak, s, logs, batch, userId, todayStart)
          == Replay(DailyStreak, DailyStreak(s, n), logs', batch[1..], userId, todayStart);
    }
  }

  /** With the daily streak, any number of logs on a fresh day adds exactly one day. */
  lemma DailyStreakAddsOneDay(s: Streak, logs: seq<LogDoc>, batch: seq<LogDoc>, userId: string, todayStart: int)
    requires AllToday(batch, userId, todayStart) && batch != []
    requires TodayLogCount(logs, userId, todayStart) == 0
    ensures Replay(DailyStreak, s, logs, batch, userId, todayStart).days == s.days + 1
  {
    var logs' := logs + [batch[0]];
    TodayLogCountAppend(logs, batch[0], userId, todayStart);
    assert CountAfter(logs, batch[0], userId, todayStart) == 1;
    assert AllToday(batch[1..], userId, todayStart) by {
      forall k | 0 <= k < |batch[1..]| ensures batch[1..][k] == batch[k + 1] { }
    }
    DailyStreakCountedOnce(DailyStreak(s, 1), logs', batch[1..], userId, todayStart);
    assert Replay(DailyStreak, s, logs, batch, userId, todayStart)
        == Replay(DailyStreak, DailyStreak(s, 1), logs', batch[1..], userId, todayStart);
  }

  // ---------------------------------------------------------------------------------------
  // Session token of a request

  /** A request as the server reads it; header names are stored lower-cased, as Starlette does. */
  datatype Request = Request(cookies: map<string, string>, headers: map<string, string>)

  const BearerPrefix: string := "Bearer "

  /**
   * The session token: a non-empty `session_token` cookie, otherwise whatever follows
   * `Bearer ` in the Authorization header if that is non-empty, otherwise none.
   */
  function SessionToken(req: Request): (r: Option<string>)
    ensures r.Some? ==> r.value != []
    ensures "session_token" in req.cookies && req.cookies["session_token"] != []
            ==> r == Some(req.cookies["session_token"])
    ensures !("session_token" in req.cookies && req.cookies["session_token"] != [])
            ==> (r.Some? <==> "authorization" in req.headers
                              && StartsWith(req.headers["authorization"], BearerPrefix)
                              && |req.headers["authorization"]| > 7)
    ensures !("session_token" in req.cookies && req.cookies["session_token"] != []) && r.Some?
            ==> req.headers["authorization"] == BearerPrefix + r.value
  {
    var cookie := if "session_token" in req.cookies then req.cookies["session_token"] else "";
    if cookie != [] then Some(cookie)
    else
      var header := if "authorization" in req.headers then req.headers["authorization"] else "";
      var token := if header != [] && StartsWith(header, BearerPrefix) then header[7..] else "";
      assert token != [] ==> header == BearerPrefix + token;
      if token != [] then Some(token) else None
  }

  /** A bearer header alone yields its token. */
  lemma BearerOnly(token: string)
    requires token != []
    ensures SessionToken(Request(map[], map["authorization" := BearerPrefix + token])) == Some(token)
  {
    var h := BearerPrefix + token;
    assert h[..7] == BearerPrefix && h[7..] == token;
  }

  /** The first session with this token that has not expired: `find_one` with `expires_at > now`. */
  function LiveSession(sessions: seq<SessionDoc>, token: string, now: int): (r: Option<SessionDoc>)
    ensures r.Some? ==> r.value in sessions && r.value.sessionToken == token && r.value.expiresAt > now
    ensures r.None? <==> forall s :: s in sessions ==> !(s.sessionToken == token && s.expiresAt > now)
  {
    if sessions == [] then None
    else if sessions[0].sessionToken == token && sessions[0].expiresAt > now then Some(sessions[0])
    else LiveSession(sessions[1..], token, now)
  }

  /** `get_current_user_from_session`: the user id of the live session the request names. */
  function CurrentUserId(sessions: seq<SessionDoc>, req: Request, now: int): (r: Option<string>)
    ensures r.Some? ==> SessionToken(req).Some?
                        && exists s :: s in sessions && s.sessionToken == SessionToken(req).value
                                       && s.expiresAt > now && s.userId == r.value
    ensures r.None? <==> SessionToken(req).None?
                         || forall s :: s in sessions ==> !(s.sessionToken == SessionToken(req).value && s.expiresAt > now)
  {
    match SessionToken(req)
    case None => None
    case Some(token) =>
      match LiveSession(sessions, token, now)
      case None => None
      case Some(s) => Some(s.userId)
  }
}
