/**
 * The backend's route handlers over its Mongo collections, held here as in-memory sequences
 * in insertion order (`find_one` returns the first match in that order). Fresh uuids and the
 * current time are parameters.
 */
module ServerDb {
  import opened Wrappers
  import opened Sorting
  import opened ServerRules
  import Entities

  /** Sessions last seven days, in seconds. */
  const SessionLifetime: int := 7 * 24 * 60 * 60

  const BadRequest: nat := 400
  const NotFound: nat := 404
  const InternalError: nat := 500

  datatype UserCreate = UserCreate(email: string, name: string, picture: Option<string>)
  datatype HabitCreate = HabitCreate(name: string, category: string, targetValue: Option<string>, unit: Option<string>)
  datatype LogCreate = LogCreate(habitId: string, value: string, notes: Option<string>)
  datatype SessionReply = SessionReply(id: string, email: string, name: string, picture: Option<string>, sessionToken: string)
  datatype ScoreReply = ScoreReply(score: int, title: string)

  /** A user as the `User` model's defaults create it. */
  function NewUser(id: string, email: string, name: string, picture: Option<string>, now: int): UserDoc {
    UserDoc(id, email, name, picture, FrozenRecruit.Name(), 0, 0, 0, now, now)
  }

  // ---------------------------------------------------------------------------------------
  // Lookups (`find_one`)

  /** `find_one` on one field: the index of the first document whose field has the value. */
  function FirstWith<T>(docs: seq<T>, field: T -> string, value: string): (r: Option<nat>)
    ensures r.Some? ==> r.value < |docs| && field(docs[r.value]) == value
                        && forall k :: 0 <= k < r.value ==> field(docs[k]) != value
    ensures r.None? <==> forall k :: 0 <= k < |docs| ==> field(docs[k]) != value
  {
    if docs == [] then None
    else if field(docs[0]) == value then Some(0)
    else match FirstWith(docs[1..], field, value)
         case None => None
         case Some(k) => Some(k + 1)
  }

  function EmailOf(u: UserDoc): string { u.email }

  function UserIdOf(u: UserDoc): string { u.id }

  function HabitIdOf(h: HabitDoc): string { h.id }

  function UserWithEmail(users: seq<UserDoc>, email: string): (r: Option<nat>)
    ensures r.Some? ==> r.value < |users| && users[r.value].email == email
    ensures r.None? <==> forall k :: 0 <= k < |users| ==> users[k].email != email
  {
    FirstWith(users, EmailOf, email)
  }

  function UserWithId(users: seq<UserDoc>, id: string): (r: Option<nat>)
    ensures r.Some? ==> r.value < |users| && users[r.value].id == id
                        && forall k :: 0 <= k < r.value ==> users[k].id != id
    ensures r.None? <==> forall k :: 0 <= k < |users| ==> users[k].id != id
  {
    FirstWith(users, UserIdOf, id)
  }

  /** Changing a user's fields other than the id leaves every lookup by id where it was. */
  lemma {:induction false} UserWithIdAfterUpdate(users: seq<UserDoc>, i: nat, u: UserDoc, id: string)
    requires i < |users| && u.id == users[i].id
    ensures UserWithId(users[i := u], id) == UserWithId(users, id)
  {
    if i == 0 {
      assert users[i := u][1..] == users[1..];
    } else {
      assert users[i := u][1..] == users[1..][i - 1 := u];
      UserWithIdAfterUpdate(users[1..], i - 1, u, id);
    }
  }

  /** The first habit with this id. */
  function HabitWithId(habits: seq<HabitDoc>, id: string): (r: Option<nat>)
    ensures r.Some? ==> r.value < |habits| && habits[r.value].id == id
                        && forall k :: 0 <= k < r.value ==> habits[k].id != id
    ensures r.None? <==> forall k :: 0 <= k < |habits| ==> habits[k].id != id
  {
    FirstWith(habits, HabitIdOf, id)
  }

  // ---------------------------------------------------------------------------------------
  // Invariants of the collections

  /** No two users share an email or an id. */
  ghost predicate UniqueUsers(users: seq<UserDoc>) {
    forall i, j :: 0 <= i < j < |users| ==> users[i].email != users[j].email && users[i].id != users[j].id
  }

  ghost predicate StreaksConsistent(users: seq<UserDoc>) {
    forall i :: 0 <= i < |users| ==> 0 <= users[i].streakDays <= users[i].longestStreak
  }

  /** Each user holds at most one session. */
  ghost predicate OneSessionPerUser(sessions: seq<SessionDoc>) {
    forall i, j :: 0 <= i < j < |sessions| ==> sessions[i].userId != sessions[j].userId
  }

  /** `delete_many({"user_id": user_id})` on the sessions. */
  function SessionsWithout(sessions: seq<SessionDoc>, userId: string): (r: seq<SessionDoc>)
    ensures forall s :: s in r <==> s in sessions && s.userId != userId
  {
    if sessions == [] then []
    else (if sessions[0].userId == userId then [] else [sessions[0]]) + SessionsWithout(sessions[1..], userId)
  }

  lemma {:induction false} SessionsWithoutKeepsOnePerUser(sessions: seq<SessionDoc>, userId: string)
    requires OneSessionPerUser(sessions)
    ensures OneSessionPerUser(SessionsWithout(sessions, userId))
  {
    if sessions != [] {
      var tail := sessions[1..];
      assert OneSessionPerUser(tail);
      SessionsWithoutKeepsOnePerUser(tail, userId);
      var rest := SessionsWithout(tail, userId);
      forall s | s in rest ensures s.userId != sessions[0].userId {
        var k :| 0 <= k < |tail| && tail[k] == s;
        assert sessions[k + 1] == s;
      }
    }
  }

  /** Replacing a user's sessions by one new session keeps one session per user. */
  lemma ReplacingSessionKeepsOnePerUser(sessions: seq<SessionDoc>, s: SessionDoc)
    requires OneSessionPerUser(sessions)
    ensures OneSessionPerUser(SessionsWithout(sessions, s.userId) + [s])
  {
    SessionsWithoutKeepsOnePerUser(sessions, s.userId);
    var rest := SessionsWithout(sessions, s.userId);
    forall i | 0 <= i < |rest| ensures rest[i].userId != s.userId {
      assert rest[i] in rest;
    }
  }

  /** Appending a user whose email and id are new keeps the users unique and their streaks consistent. */
  lemma AppendingNewUserKeepsValid(users: seq<UserDoc>, u: UserDoc)
    requires UniqueUsers(users) && StreaksConsistent(users)
    requires forall k :: 0 <= k < |users| ==> users[k].email != u.email && users[k].id != u.id
    requires 0 <= u.streakDays <= u.longestStreak
    ensures UniqueUsers(users + [u]) && StreaksConsistent(users + [u])
  {
  }

  /** The sessions a user holds. */
  function SessionsOf(sessions: seq<SessionDoc>, userId: string): (r: seq<SessionDoc>)
    ensures forall s :: s in r <==> s in sessions && s.userId == userId
  {
    if sessions == [] then []
    else (if sessions[0].userId == userId then [sessions[0]] else []) + SessionsOf(sessions[1..], userId)
  }

  /** After `process_session` replaced a user's sessions, that user holds exactly the new one. */
  lemma {:induction false} ReplacedSessionIsOnlyOne(sessions: seq<SessionDoc>, s: SessionDoc)
    ensures SessionsOf(SessionsWithout(sessions, s.userId) + [s], s.userId) == [s]
  {
    if sessions == [] {
      assert ([] + [s])[1..] == [];
    } else {
      ReplacedSessionIsOnlyOne(sessions[1..], s);
      var rest := SessionsWithout(sessions[1..], s.userId);
      if sessions[0].userId != s.userId {
        assert SessionsWithout(sessions, s.userId) + [s] == [sessions[0]] + (rest + [s]);
        SessionsOfSkips(sessions[0], rest + [s], s.userId);
      } else {
        assert SessionsWithout(sessions, s.userId) == rest;
      }
    }
  }

  lemma SessionsOfSkips(x: SessionDoc, tail: seq<SessionDoc>, userId: string)
    requires x.userId != userId
    ensures SessionsOf([x] + tail, userId) == SessionsOf(tail, userId)
  {
    assert ([x] + tail)[1..] == tail;
  }

  // ---------------------------------------------------------------------------------------
  // Leaderboard and chat window queries

  function ScoreKey(u: UserDoc): int { u.totalScore }

  function TimestampKey(m: MessageDoc): int { m.timestamp }

  /** `db.users.find().sort("total_score", -1).limit(limit)`. */
  function TopUsers(users: seq<UserDoc>, limit: nat): (r: seq<UserDoc>)
    requires limit >= 1
    ensures |r| == Min(limit, |users|)
    ensures SortedDesc(r, ScoreKey)
    ensures multiset(r) <= multiset(users)
  {
    var sorted := SortDesc(users, ScoreKey);
    PrefixIsSubMultiset(sorted, Min(limit, |users|));
    sorted[..Min(limit, |users|)]
  }

  /** Every user left off the top list scores no more than anyone on it. */
  lemma TopUsersAreTop(users: seq<UserDoc>, limit: nat, u: UserDoc)
    requires limit >= 1
    requires u in multiset(users) - multiset(TopUsers(users, limit))
    ensures forall v :: v in TopUsers(users, limit) ==> u.totalScore <= v.totalScore
  {
    var sorted := SortDesc(users, ScoreKey);
    var k := Min(limit, |users|);
    if k > 0 {
      PrefixDominates(sorted, ScoreKey, k, u);
    }
  }

  function EntryFor(u: UserDoc, rank: int): Entities.LeaderboardEntry {
    Entities.LeaderboardEntry(u.id, u.name, u.picture, u.totalScore, u.streakDays, u.winterTitle, rank)
  }

  /** A user's messages, in insertion order. */
  function MessagesOf(messages: seq<MessageDoc>, userId: string): (r: seq<MessageDoc>)
    ensures forall m :: m in r ==> m in messages && m.userId == userId
    ensures forall m :: m in messages && m.userId == userId ==> m in r
  {
    if messages == [] then []
    else (if messages[0].userId == userId then [messages[0]] else []) + MessagesOf(messages[1..], userId)
  }

  /** `get_chat_history`: newest `limit` messages of the user, then put back in time order. */
  function ChatWindow(messages: seq<MessageDoc>, userId: string, limit: nat): seq<MessageDoc>
    requires limit >= 1
  {
    var mine := MessagesOf(messages, userId);
    Reverse(SortDesc(mine, TimestampKey)[..Min(limit, |mine|)])
  }

  /** Reversing the head of a descending list gives an ascending list. */
  lemma ReversedHeadAscends<T>(sorted: seq<T>, key: T -> int, k: nat)
    requires SortedDesc(sorted, key) && k <= |sorted|
    ensures var w := Reverse(sorted[..k]);
            forall i, j :: 0 <= i < j < |w| ==> key(w[i]) <= key(w[j])
  {
    var w := Reverse(sorted[..k]);
    forall i, j | 0 <= i < j < |w| ensures key(w[i]) <= key(w[j]) {
      assert w[i] == sorted[k - 1 - i] && w[j] == sorted[k - 1 - j];
    }
  }

  /** Nothing outside the head of a descending list outranks what is in it, reversed or not. */
  lemma ReversedHeadDominates<T>(sorted: seq<T>, key: T -> int, k: nat)
    requires SortedDesc(sorted, key) && k <= |sorted|
    ensures var w := Reverse(sorted[..k]);
            forall m, x :: m in multiset(sorted) - multiset(w) && x in w ==> key(m) <= key(x)
  {
    var w := Reverse(sorted[..k]);
    forall m, x | m in multiset(sorted) - multiset(w) && x in w ensures key(m) <= key(x) {
      assert x in multiset(w);
      assert x in sorted[..k];
      PrefixDominates(sorted, key, k, m);
    }
  }

  /** The head of the sorted list that the chat window shows, and what it is made of. */
  lemma ChatWindowParts(messages: seq<MessageDoc>, userId: string, limit: nat)
    requires limit >= 1
    ensures var mine := MessagesOf(messages, userId);
            var sorted := SortDesc(mine, TimestampKey);
            var k := Min(limit, |mine|);
            && ChatWindow(messages, userId, limit) == Reverse(sorted[..k])
            && multiset(sorted[..k]) <= multiset(mine)
  {
    var mine := MessagesOf(messages, userId);
    var sorted := SortDesc(mine, TimestampKey);
    PrefixIsSubMultiset(sorted, Min(limit, |mine|));
  }

  lemma PrefixIsSubMultiset<T>(s: seq<T>, k: nat)
    requires k <= |s|
    ensures multiset(s[..k]) <= multiset(s)
  {
    assert s == s[..k] + s[k..];
  }

  /** The chat window holds `limit` of the user's messages, or all of them when there are fewer. */
  lemma ChatWindowHoldsOwnMessages(messages: seq<MessageDoc>, userId: string, limit: nat)
    requires limit >= 1
    ensures |ChatWindow(messages, userId, limit)| == Min(limit, |MessagesOf(messages, userId)|)
    ensures multiset(ChatWindow(messages, userId, limit)) <= multiset(MessagesOf(messages, userId))
    ensures forall m :: m in ChatWindow(messages, userId, limit) ==> m.userId == userId && m in messages
  {
    ChatWindowParts(messages, userId, limit);
    var w := ChatWindow(messages, userId, limit);
    forall m | m in w ensures m.userId == userId && m in messages {
      assert m in multiset(w);
    }
  }

  /** The chat window is in time order, oldest first. */
  lemma ChatWindowAscends(messages: seq<MessageDoc>, userId: string, limit: nat)
    requires limit >= 1
    ensures var w := ChatWindow(messages, userId, limit);
            forall i, j :: 0 <= i < j < |w| ==> w[i].timestamp <= w[j].timestamp
  {
    ChatWindowParts(messages, userId, limit);
    var mine := MessagesOf(messages, userId);
    ReversedHeadAscends(SortDesc(mine, TimestampKey), TimestampKey, Min(limit, |mine|));
  }

  /** No message of the user left out of the window is newer than one shown. */
  lemma ChatWindowIsMostRecent(messages: seq<MessageDoc>, userId: string, limit: nat)
    requires limit >= 1
    ensures var w := ChatWindow(messages, userId, limit);
            forall m, x :: m in multiset(MessagesOf(messages, userId)) - multiset(w) && x in w
              ==> m.timestamp <= x.timestamp
  {
    ChatWindowParts(messages, userId, limit);
    var mine := MessagesOf(messages, userId);
    ReversedHeadDominates(SortDesc(mine, TimestampKey), TimestampKey, Min(limit, |mine|));
  }

  /** A log just stored at or after the start of the day makes today's count the one for a logged day. */
  lemma TodayIncludesNewLog(logs: seq<LogDoc>, log: LogDoc, todayStart: int)
    requires log.loggedAt >= todayStart
    ensures forall s: Streak :: NextStreak(s, TodayLogCount(logs + [log], log.userId, todayStart)) == NextStreak(s, 1)
  {
    assert log in logs + [log];
  }

  // ---------------------------------------------------------------------------------------
  // The database and its routes

  class Database {
    var users: seq<UserDoc>
    var sessions: seq<SessionDoc>
    var habits: seq<HabitDoc>
    var habitLogs: seq<LogDoc>
    var chatMessages: seq<MessageDoc>

    ghost predicate Valid()
      reads this
    {
      UniqueUsers(users) && StreaksConsistent(users) && OneSessionPerUser(sessions)
    }

    constructor ()
      ensures Valid()
      ensures users == [] && sessions == [] && habits == [] && habitLogs == [] && chatMessages == []
    {
      users, sessions, habits, habitLogs, chatMessages := [], [], [], [], [];
    }

    /** `create_user`: idempotent on the email; a known email returns the stored user. */
    method CreateUser(data: UserCreate, freshId: string, now: int) returns (u: UserDoc)
      requires Valid()
      requires forall k :: 0 <= k < |users| ==> users[k].id != freshId
      modifies this
      ensures Valid()
      ensures UserWithEmail(old(users), data.email).Some? ==>
                users == old(users) && u == old(users)[UserWithEmail(old(users), data.email).value]
      ensures UserWithEmail(old(users), data.email).None? ==>
                u == NewUser(freshId, data.email, data.name, data.picture, now) && users == old(users) + [u]
      ensures u.email == data.email && u in users
      ensures sessions == old(sessions) && habits == old(habits) && habitLogs == old(habitLogs)
      ensures chatMessages == old(chatMessages)
    {
      var existing := UserWithEmail(users, data.email);
      if existing.Some? {
        u := users[existing.value];
      } else {
        u := NewUser(freshId, data.email, data.name, data.picture, now);
        users := users + [u];
      }
    }

    /**
     * `process_session`: exchange the identity service's answer (a JSON object, or a failure)
     * for a stored session. Keys are read in the source's order, so a missing key fails with
     * 400 after whatever was already written.
     */
    method ProcessSession(identity: Result<map<string, string>, nat>, freshId: string, now: int)
      returns (r: Result<SessionReply, nat>)
      requires Valid()
      requires forall k :: 0 <= k < |users| ==> users[k].id != freshId
      modifies this
      ensures Valid()
      ensures r.Err? ==> r.error == BadRequest
      ensures habits == old(habits) && habitLogs == old(habitLogs) && chatMessages == old(chatMessages)
      // No answer, or no email in it: nothing is written.
      ensures identity.Err? || "email" !in identity.value ==>
                r.Err? && users == old(users) && sessions == old(sessions)
      // A user with that email exists: it is reused.
      ensures identity.Ok? && "email" in identity.value
              && UserWithEmail(old(users), identity.value["email"]).Some? ==>
                users == old(users)
                && var uid := old(users)[UserWithEmail(old(users), identity.value["email"]).value].id;
                   ("session_token" !in identity.value ==> r.Err? && sessions == old(sessions))
                   && ("session_token" in identity.value ==>
                         sessions == SessionsWithout(old(sessions), uid)
                                     + [SessionDoc(identity.value["session_token"], uid, now + SessionLifetime, now)]
                         && (r.Ok? <==> "name" in identity.value)
                         && (r.Ok? ==> r.value.id == uid))
      // A new email: the user is created from the answer, if it has a name.
      ensures identity.Ok? && "email" in identity.value
              && UserWithEmail(old(users), identity.value["email"]).None? ==>
                ("name" !in identity.value ==> r.Err? && users == old(users) && sessions == old(sessions))
                && ("name" in identity.value ==>
                      users == old(users) + [NewUser(freshId, identity.value["email"], identity.value["name"],
                                                     PictureOf(identity.value), now)]
                      && ("session_token" !in identity.value ==> r.Err? && sessions == old(sessions))
                      && ("session_token" in identity.value ==>
                            r.Ok? && r.value.id == freshId
                            && sessions == SessionsWithout(old(sessions), freshId)
                                           + [SessionDoc(identity.value["session_token"], freshId, now + SessionLifetime, now)]))
      ensures r.Ok? ==> r.value.email == identity.value["email"] && r.value.name == identity.value["name"]
                        && r.value.sessionToken == identity.value["session_token"]
                        && SessionsOf(sessions, r.value.id)
                           == [SessionDoc(r.value.sessionToken, r.value.id, now + SessionLifetime, now)]
    {
      if identity.Err? || "email" !in identity.value {
        return Err(BadRequest);
      }
      var data := identity.value;
      var email := data["email"];
      var existing := UserWithEmail(users, email);
      var uid;
      if existing.Some? {
        uid := users[existing.value].id;
      } else {
        if "name" !in data {
          return Err(BadRequest);
        }
        var u := NewUser(freshId, email, data["name"], PictureOf(data), now);
        AppendingNewUserKeepsValid(users, u);
        users := users + [u];
        uid := freshId;
      }
      if "session_token" !in data {
        return Err(BadRequest);
      }
      var session := SessionDoc(data["session_token"], uid, now + SessionLifetime, now);
      ReplacingSessionKeepsOnePerUser(sessions, session);
      sessions := SessionsWithout(sessions, uid) + [session];
      ReplacedSessionIsOnlyOne(old(sessions), session);
      if "name" !in data {
        return Err(BadRequest);
      }
      r := Ok(SessionReply(uid, email, data["name"], PictureOf(data), data["session_token"]));
    }

    /** `get_current_user_from_session` against the stored sessions. */
    function CurrentUser(req: Request, now: int): (r: Option<string>)
      reads this
      ensures r.Some? ==> SessionToken(req).Some?
                          && exists s :: s in sessions && s.sessionToken == SessionToken(req).value
                                         && s.expiresAt > now && s.userId == r.value
      ensures r.None? <==> SessionToken(req).None?
                           || forall s :: s in sessions ==> !(s.sessionToken == SessionToken(req).value && s.expiresAt > now)
    {
      CurrentUserId(sessions, req, now)
    }

    /** `update_user_streak`: nothing for an unknown user, otherwise the streak rule on today's logs. */
    method UpdateUserStreak(userId: string, todayStart: int, now: int)
      requires Valid()
      modifies this
      ensures Valid()
      ensures UserWithId(old(users), userId).None? ==> users == old(users)
      ensures UserWithId(old(users), userId).Some? ==>
                var i := UserWithId(old(users), userId).value;
                var s := NextStreak(Streak(old(users)[i].streakDays, old(users)[i].longestStreak),
                                    TodayLogCount(habitLogs, userId, todayStart));
                users == old(users)[i := old(users)[i].(streakDays := s.days, longestStreak := s.longest, lastActive := now)]
      ensures sessions == old(sessions) && habits == old(habits) && habitLogs == old(habitLogs)
      ensures chatMessages == old(chatMessages)
    {
      var found := UserWithId(users, userId);
      if found.None? {
        return;
      }
      var i := found.value;
      var s := Streak(users[i].streakDays, users[i].longestStreak);
      var today := TodayLogCount(habitLogs, userId, todayStart);
      StreakWithinLongest(s, today);
      var next := NextStreak(s, today);
      users := users[i := users[i].(streakDays := next.days, longestStreak := next.longest, lastActive := now)];
    }

    /** `update_user_score`: store the recomputed score and the title it earns with the current streak. */
    method UpdateUserScore(userId: string) returns (r: Result<ScoreReply, nat>)
      requires Valid()
      modifies this
      ensures Valid()
      ensures UserWithId(old(users), userId).None? ==> r == Err(NotFound) && users == old(users)
      ensures UserWithId(old(users), userId).Some? ==>
                var i := UserWithId(old(users), userId).value;
                var score := UserScore(habitLogs, userId);
                var title := WinterTitle(score, old(users)[i].streakDays).Name();
                r == Ok(ScoreReply(score, title))
                && users == old(users)[i := old(users)[i].(totalScore := score, winterTitle := title)]
      ensures sessions == old(sessions) && habits == old(habits) && habitLogs == old(habitLogs)
      ensures chatMessages == old(chatMessages)
    {
      var score := UserScore(habitLogs, userId);
      var found := UserWithId(users, userId);
      if found.None? {
        return Err(NotFound);
      }
      var i := found.value;
      var title := WinterTitle(score, users[i].streakDays).Name();
      users := users[i := users[i].(totalScore := score, winterTitle := title)];
      r := Ok(ScoreReply(score, title));
    }

    /** `create_habit`: the habit is stored whether or not the user exists. */
    method CreateHabit(userId: string, data: HabitCreate, freshId: string, now: int) returns (h: HabitDoc)
      modifies this
      ensures h == HabitDoc(freshId, userId, data.name, data.category, data.targetValue, data.unit, now)
      ensures habits == old(habits) + [h]
      ensures users == old(users) && sessions == old(sessions) && habitLogs == old(habitLogs)
      ensures chatMessages == old(chatMessages)
    {
      h := HabitDoc(freshId, userId, data.name, data.category, data.targetValue, data.unit, now);
      habits := habits + [h];
    }

    /** `delete_habit`: removes the first habit with the id, 404 when there is none; its logs stay. */
    method DeleteHabit(habitId: string) returns (r: Result<(), nat>)
      modifies this
      ensures HabitWithId(old(habits), habitId).None? ==> r == Err(NotFound) && habits == old(habits)
      ensures HabitWithId(old(habits), habitId).Some? ==>
                var i := HabitWithId(old(habits), habitId).value;
                r == Ok(()) && habits == old(habits)[..i] + old(habits)[i + 1..]
      ensures |habits| <= |old(habits)|
      ensures users == old(users) && sessions == old(sessions) && habitLogs == old(habitLogs)
      ensures chatMessages == old(chatMessages)
    {
      var found := HabitWithId(habits, habitId);
      if found.None? {
        return Err(NotFound);
      }
      habits := habits[..found.value] + habits[found.value + 1..];
      r := Ok(());
    }

    /**
     * `log_habit`: 404 for an unknown habit; otherwise the log is stored with the coach's reply,
     * the streak and then the score are updated, and an unknown user still gets 404, after the log.
     */
    method LogHabit(userId: string, data: LogCreate, freshId: string, now: int, todayStart: int, coachReply: string)
      returns (r: Result<LogDoc, nat>)
      requires Valid()
      requires todayStart <= now
      modifies this
      ensures Valid()
      ensures HabitWithId(old(habits), data.habitId).None? ==>
                r == Err(NotFound) && users == old(users) && habitLogs == old(habitLogs)
      ensures HabitWithId(old(habits), data.habitId).Some? ==>
                habitLogs == old(habitLogs)
                             + [LogDoc(freshId, userId, data.habitId, data.value, data.notes, now, Some(coachReply))]
      ensures HabitWithId(old(habits), data.habitId).Some? && UserWithId(old(users), userId).None? ==>
                r == Err(NotFound) && users == old(users)
      ensures HabitWithId(old(habits), data.habitId).Some? && UserWithId(old(users), userId).Some? ==>
                var i := UserWithId(old(users), userId).value;
                var before := old(users)[i];
                var s := NextStreak(Streak(before.streakDays, before.longestStreak), 1);
                var score := UserScore(habitLogs, userId);
                r == Ok(habitLogs[|habitLogs| - 1])
                && users == old(users)[i := before.(streakDays := s.days, longestStreak := s.longest,
                                                    lastActive := now, totalScore := score,
                                                    winterTitle := WinterTitle(score, s.days).Name())]
      ensures sessions == old(sessions) && habits == old(habits) && chatMessages == old(chatMessages)
    {
      var found := HabitWithId(habits, data.habitId);
      if found.None? {
        return Err(NotFound);
      }
      var log := LogDoc(freshId, userId, data.habitId, data.value, data.notes, now, Some(coachReply));
      habitLogs := habitLogs + [log];
      TodayIncludesNewLog(old(habitLogs), log, todayStart);
      UpdateUserStreak(userId, todayStart, now);
      ghost var streaked := users;
      var scored := UpdateUserScore(userId);
      if scored.Err? {
        return Err(NotFound);
      }
      ghost var i := UserWithId(old(users), userId).value;
      UserWithIdAfterUpdate(old(users), i, streaked[i], userId);
      r := Ok(log);
    }

    /**
     * `send_chat_message`: the user's turn is stored first; the coach's turn follows, unless the
     * user is unknown, which fails with 500 after the first insert.
     */
    method SendChatMessage(userId: string, text: string, userTurnId: string, sentAt: int,
                           coachTurnId: string, repliedAt: int, coachReply: string)
      returns (r: Result<MessageDoc, nat>)
      modifies this
      ensures var userTurn := MessageDoc(userTurnId, userId, text, true, sentAt);
              var coachTurn := MessageDoc(coachTurnId, userId, coachReply, false, repliedAt);
              if UserWithId(old(users), userId).Some?
              then r == Ok(coachTurn) && chatMessages == old(chatMessages) + [userTurn, coachTurn]
              else r == Err(InternalError) && chatMessages == old(chatMessages) + [userTurn]
      ensures users == old(users) && sessions == old(sessions) && habits == old(habits)
      ensures habitLogs == old(habitLogs)
    {
      var userTurn := MessageDoc(userTurnId, userId, text, true, sentAt);
      chatMessages := chatMessages + [userTurn];
      if UserWithId(users, userId).None? {
        return Err(InternalError);
      }
      var coachTurn := MessageDoc(coachTurnId, userId, coachReply, false, repliedAt);
      chatMessages := chatMessages + [coachTurn];
      r := Ok(coachTurn);
    }

    /** `get_chat_history`. */
    method GetChatHistory(userId: string, limit: nat) returns (history: seq<MessageDoc>)
      requires limit >= 1
      ensures history == ChatWindow(chatMessages, userId, limit)
    {
      history := ChatWindow(chatMessages, userId, limit);
    }

    /**
     * `get_leaderboard`: the top `limit` users by score, highest first, ranked 1, 2, ... in
     * list order.
     */
    method GetLeaderboard(limit: nat) returns (board: seq<Entities.LeaderboardEntry>)
      requires limit >= 1
      ensures |board| == Min(limit, |users|)
      ensures forall i :: 0 <= i < |board| ==> board[i].rank == i + 1
      ensures forall i, j :: 0 <= i < j < |board| ==> board[i].totalScore >= board[j].totalScore
      ensures forall i :: 0 <= i < |board| ==> board[i] == EntryFor(TopUsers(users, limit)[i], i + 1)
    {
      var top := TopUsers(users, limit);
      board := [];
      for i := 0 to |top|
        invariant |board| == i
        invariant forall k :: 0 <= k < i ==> board[k] == EntryFor(top[k], k + 1)
      {
        board := board + [EntryFor(top[i], i + 1)];
      }
    }
  }

  /** `user_data.get("picture")`. */
  function PictureOf(data: map<string, string>): Option<string> {
    if "picture" in data then Some(data["picture"]) else None
  }
}
