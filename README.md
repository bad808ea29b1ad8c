# WINTERARC in Dafny

WINTERARC is a "winter arc" discipline app: a React Native client (chat with a harsh AI coach,
a habit tracker, a profile with a ladder of winter titles, a leaderboard and a roasting alarm)
backed by a FastAPI server over MongoDB. This project models the logic of both halves and proves
what each piece promises.

**Client state.** `UserStore.Store` is the zustand store: `user`, `habits`, `chatMessages` and
`isLoading`, each changed by one action. Every action states its whole new state.

**Screens.** Each screen is a class holding its local React state and a reference to the store:
- `ChatScreen.ChatScreen` and `IndexTab.ChatTab`: the two chat screens;
- `HabitsScreen.HabitsScreen` and `HabitsTab.HabitsTab`: the habit trackers;
- `ProfileScreen.ProfileScreen` and `ProfileTab`: the profiles;
- `LeaderboardScreen.LeaderboardScreen` and `LeaderboardTab.LeaderboardTab`: the leaderboards;
- `AlarmScreen.AlarmScreen`: the alarm. Its handlers do what the code as written does (see
  "## Findings"); the intended behaviour is stated beside it as pure functions.

A handler that awaits the server takes the server's answer as a parameter (`Http.Reply`: a
response with a status and an optional JSON body, or a network failure). It returns the endpoint
it called, so each contract says both what was sent and what the state becomes for every answer.

The pure helpers live in their own modules:
- `HabitCategories`: the category table and the request payloads built from the forms;
- `Titles`: `WINTER_TITLES`, progress to the next title, the title emoji;
- `RankBadges`: rank icons, rank colours and the "Your Rank" card;
- `ChatTurns`: the two chat turns.

**Services.** `Api` models `ApiService`. It gives each endpoint's verb, path and body, builds the
fetch from them, and maps a reply to a result. `AuthService` models the auth service's three
fetches, how each maps a reply to a result, and how a session id is read from the redirect URL.
`AuthContext.AuthProvider` holds the `user`/`isLoading` transitions of the auth provider.

**Server.** `ServerRules` holds the pure rules:
- the title ladder of `get_winter_title`;
- the score (10 points per log, over at most 1000 fetched logs);
- the streak update;
- where the session token is read from;
- session lookup.

`ServerDb.Database` keeps the five Mongo collections as sequences (`find_one` takes the first
match). It has one method per modelled route handler. `ServerRoutes` models FastAPI's routing of
a request target to a handler, including the `limit` query parameter. The `Api` lemmas prove that
every URL the client builds reaches the handler meant for it.

Shared modules:
- `Text`: JavaScript `trim` and its white-space set, ASCII lower-casing, decimal digits,
  `split`/join and query parameters;
- `Sorting`: a descending sort by key, and reversal (stable, which fixes an order Mongo leaves
  open for equal keys);
- `Entities` and `Http`: the records;
- `Wrappers`: `Option` and `Result`.

Time is integer milliseconds (client) or an integer clock (server), passed in as a parameter.
Fresh ids, the coach's reply and the random roast index are parameters too.

## Model

| member | source | states |
|---|---|---|
| UserStore.WithoutHabit | userStore.ts:71-74 | `removeHabit`'s filter keeps exactly the habits whose id differs, and leaves a list without that id unchanged |
| UserStore.WithoutHabitAppend | userStore.ts:71-74 | the filter distributes over concatenation, so kept habits stay in their original order |
| UserStore.RemoveListedHabit | userStore.ts:71-74 | removing a habit listed once, between habits with other ids, gives the list without it and in order |
| UserStore.WithoutHabitIdempotent | userStore.ts:71-74 | removing the same id twice is the same as removing it once |
| UserStore.Store.constructor | userStore.ts:64-67 | initial state: no user, no habits, no messages, not loading |
| UserStore.Store.SetUser | userStore.ts:68 | sets the user and leaves the other three fields unchanged |
| UserStore.Store.SetHabits | userStore.ts:69 | replaces the habits and nothing else |
| UserStore.Store.AddHabit | userStore.ts:70 | appends the habit at the end and touches nothing else |
| UserStore.Store.RemoveHabit | userStore.ts:71-74 | habits become the filtered list and nothing else changes |
| UserStore.Store.SetChatMessages | userStore.ts:75 | replaces the messages and nothing else |
| UserStore.Store.AddChatMessage | userStore.ts:76-79 | appends the message at the end and touches nothing else |
| UserStore.Store.SetLoading | userStore.ts:80 | changes only `isLoading` |
| UserStore.Store.ClearUser | userStore.ts:81-85 | from any state: no user, no habits, no messages; `isLoading` unchanged |
| UserStore.AddChatMessagesInOrder | userStore.ts:76-79 | a run of `addChatMessage` calls appends the batch in call order, never reordered |
| ServerRules.WinterTitle | server.py:199-212 | the title returned is earned, and no higher title is earned for that score and streak |
| ServerRules.EarnsMonotone | server.py:199-212 | a title earned at some score and streak is still earned at higher ones |
| ServerRules.TitleMonotone | server.py:199-212 | raising score or streak never lowers the title's tier |
| ServerRules.LogsOf | server.py:168 | the logs fetched for a user are exactly that user's logs |
| ServerRules.UserScore | server.py:166-169 | 10 points per fetched log: 10 × the user's log count, capped at 10 × 1000 |
| ServerRules.ScoreAfterLog | server.py:166-169 | one more log of the user adds 10 points unless the cap is reached |
| ServerRules.ScoreIgnoresOthers | server.py:166-169 | another user's log does not change a user's score |
| ServerRules.TodayLogCount | server.py:177-181 | positive exactly when the user has a log at or after the start of today |
| ServerRules.NextStreak | server.py:183-188 | with logs today: streak + 1 and longest = max(new, old longest); otherwise streak 0 and longest unchanged |
| ServerRules.StreakWithinLongest | server.py:183-188 | the update keeps 0 ≤ streak ≤ longest |
| ServerRules.StreakCountsLogs | server.py:171-188 | as written: when a batch of logs is made today, each log's streak update adds one day, so the streak grows by the number of logs |
| ServerRules.DailyStreak | server.py:171-188 | intended: a day's first log adds one day, later logs that day keep the streak, no log today resets it; longest never drops and stays at least the streak |
| ServerRules.DailyStreakCountedOnce | server.py:171-188 | intended: once a log of today exists, further logs today leave the streak unchanged |
| ServerRules.DailyStreakAddsOneDay | server.py:171-188 | intended: a user with no log today who logs any number of habits today gains exactly one streak day |
| ServerRules.SessionToken | server.py:137-145 | a non-empty cookie token wins; otherwise the text after a `Bearer ` header prefix, if there is any |
| ServerRules.BearerOnly | server.py:139-142 | with no cookie, `Bearer t` yields `t` |
| ServerRules.LiveSession | server.py:147-150 | finds a session with that token that has not expired, and finds none only when there is none |
| ServerRules.CurrentUserId | server.py:135-152 | a user id only via a token and a live session of that user; none exactly when there is no token or no live session |
| ServerDb.FirstWith | server.py:300 | `find_one` on one field: the first document whose field has the value, and none only when no document has it |
| ServerDb.UserWithEmail | server.py:300 | the index of a user with that email, and none only when no user has it |
| ServerDb.UserWithId | server.py:173 | the first user with that id, and none only when no user has it |
| ServerDb.UserWithIdAfterUpdate | server.py:190-197 | updating a user in place without changing its id keeps every id lookup the same |
| ServerDb.HabitWithId | server.py:352 | the first habit with that id, and none only when no habit has it |
| ServerDb.SessionsWithout | server.py:247 | `delete_many` keeps exactly the sessions of other users |
| ServerDb.SessionsWithoutKeepsOnePerUser | server.py:247-248 | deleting a user's sessions keeps "one session per user" |
| ServerDb.SessionsOf | server.py:247-248 | the sessions held by one user |
| ServerDb.ReplacedSessionIsOnlyOne | server.py:247-248 | after delete-then-insert the user holds exactly the new session |
| ServerDb.TopUsers | server.py:406 | the first `limit` users by descending score: min(limit, n) of them, sorted, drawn from the collection |
| ServerDb.TopUsersAreTop | server.py:406 | every user left out scores no more than every user kept |
| ServerDb.MessagesOf | server.py:400 | all and only that user's messages, from the collection |
| ServerDb.ReversedHeadAscends | server.py:400-401 | reversing a prefix of a newest-first list gives ascending order |
| ServerDb.ReversedHeadDominates | server.py:400-401 | the reversed prefix holds the largest keys of the list |
| ServerDb.ChatWindowParts | server.py:400-401 | the chat window is the reversed newest-first prefix of the user's messages, and that prefix is drawn from them |
| ServerDb.ChatWindowHoldsOwnMessages | server.py:398-401 | min(limit, n) messages, all the user's own, none repeated beyond the collection |
| ServerDb.ChatWindowAscends | server.py:398-401 | the history comes back in ascending timestamp order |
| ServerDb.ChatWindowIsMostRecent | server.py:398-401 | every message left out is no newer than every message returned |
| ServerDb.TodayIncludesNewLog | server.py:366-368 | right after a log is inserted, the streak update always sees a log today |
| ServerDb.Database.constructor | server.py:22-23 | empty collections that satisfy the invariants |
| ServerDb.Database.CreateUser | server.py:298-306 | an existing email returns that user and inserts nothing; a new email appends exactly one new user with the default fields |
| ServerDb.Database.ProcessSession | server.py:219-270 | a missing answer or field is a 400 that changes nothing it should not; an email is reused or creates one user; the user's old sessions are replaced by one that expires 7 days later |
| ServerDb.Database.CurrentUser | server.py:135-152 | a user id only via the request's token and a live session with that token for that user; none exactly when there is no token or no live session |
| ServerDb.Database.UpdateUserStreak | server.py:171-197 | a missing user changes nothing; otherwise only that user's streak, longest streak and last-active change, as the streak rule says |
| ServerDb.Database.UpdateUserScore | server.py:315-328 | 404 for a missing user; otherwise it stores and returns the score and the title for the stored streak |
| ServerDb.Database.CreateHabit | server.py:331-335 | appends exactly the new habit built from the request and returns it |
| ServerDb.Database.DeleteHabit | server.py:342-347 | 404 and no change when no habit has the id; otherwise removes exactly the first such habit |
| ServerDb.Database.LogHabit | server.py:350-371 | 404 and nothing stored for an unknown habit; otherwise the log with the coach reply is appended, and the user's streak, score and title are updated |
| ServerDb.Database.SendChatMessage | server.py:379-396 | the user's turn is stored first; for a known user the coach turn follows and is returned; an unknown user is a server error after the user's turn is stored |
| ServerDb.Database.GetChatHistory | server.py:398-401 | returns the chat window |
| ServerDb.Database.GetLeaderboard | server.py:404-421 | min(limit, n) entries of the top users, ranked 1..n in list order, scores descending |
| ServerRoutes.LimitParam | server.py:374 | a missing `limit` takes the default; the last `limit` value is accepted exactly when it is all digits, as its decimal value, and is rejected with 422 otherwise |
| ServerRoutes.LimitParamRoundTrip | server.py:374 | the `?limit=n` the client writes is read back as n |
| ServerRoutes.Resolve | server.py:215-405 | a request target is routed, or answered 404, 405 or 422 |
| ServerRoutes.Dispatch | server.py:215-405 | a path split into segments is routed, or answered 404, 405 or 422 |
| ServerRoutes.MatchRoute | server.py:215-405 | the route table for one verb: 404 or 422, and a match or a 422 only on a path of the table |
| ServerRoutes.RoutePathServed | server.py:215-405 | every path of the table is served for some verb |
| ServerRoutes.DispatchErrors | server.py:215-405 | 404 exactly when no verb serves the path; 405 exactly when some verb does but not this one; a served verb fails only with 422 |
| ServerRoutes.QueryOnlyLimits | server.py:374-405 | the query decides only between a match and a 422, never whether the path matches |
| ServerRoutes.ResolveErrors | server.py:215-405 | on full request targets: 404 exactly when the path is served for no verb, 405 exactly when it is served but not for this verb |
| ServerRoutes.WrongVerbIsNotAllowed | server.py:297-313 | a POST to `/api/users/{id}` and a GET of `/api/users` are answered 405 |
| ServerRoutes.ResolvedIdsAreSegments | server.py:308-405 | every path parameter of a matched route is a single non-empty segment |
| Api.FetchOf | api.ts:12-21 | the URL is the base, then `/api`, then the endpoint path; the only header is the JSON content type |
| Api.ErrorMessageNamesStatus | api.ts:26-28 | the message of a non-2xx error reads back as exactly its status |
| Api.Request | api.ts:23-34 | a 2xx reply with a body gives the body; a non-2xx status gives an error naming it; a network failure or bad JSON is an error too, and there is no retry |
| Api.ReachesUserSub | server.py:315-380 | `/api/users/{id}/score`, `/habits`, `/habit-logs` and `/chat` reach their handlers for the right verb |
| Api.ReachesUserQuery | server.py:373-401 | `GET /api/users/{id}/habit-logs?limit=n` and `/chat?limit=n` reach the list handlers with limit n |
| Api.ReachesCreateUser | server.py:298 | `POST /api/users` reaches `create_user` |
| Api.ReachesLeaderboard | server.py:404-405 | `GET /api/leaderboard?limit=n` reaches `get_leaderboard` with limit n |
| Api.ReachesGetUser | server.py:308 | `GET /api/users/{id}` reaches `get_user` |
| Api.ReachesDeleteHabit | server.py:342 | `DELETE /api/habits/{id}` reaches `delete_habit` |
| Api.EndpointReachesRoute | api.ts:12-100 | every endpoint's fetch URL, minus the base, reaches the server handler meant for it, with the limit the client sends |
| Api.CallReachesRoute | api.ts:37-100 | every endpoint's verb and path reach their handler |
| Api.CallsCreateUser | api.ts:38-43 | `createUser` POSTs to `/users` |
| Api.CallsGetUser | api.ts:45-47 | `getUser` GETs `/users/{id}` |
| Api.CallsUpdateUserScore | api.ts:49-53 | `updateUserScore` PUTs `/users/{id}/score` |
| Api.CallsCreateHabit | api.ts:56-61 | `createHabit` POSTs to `/users/{id}/habits` |
| Api.CallsGetUserHabits | api.ts:63-65 | `getUserHabits` GETs `/users/{id}/habits` |
| Api.CallsDeleteHabit | api.ts:67-71 | `deleteHabit` DELETEs `/habits/{id}` |
| Api.CallsLogHabit | api.ts:74-79 | `logHabit` POSTs to `/users/{id}/habit-logs` |
| Api.CallsGetHabitLogs | api.ts:81-83 | `getHabitLogs` sends `?limit=` with the limit, 50 by default |
| Api.CallsSendChatMessage | api.ts:86-91 | `sendChatMessage` POSTs to `/users/{id}/chat` |
| Api.CallsGetChatHistory | api.ts:93-95 | `getChatHistory` sends `?limit=` with the limit, 50 by default |
| Api.CallsGetLeaderboard | api.ts:98-100 | `getLeaderboard` sends `?limit=` with the limit, 100 by default |
| AuthService.SessionRequest | authService.ts:28-37 | POSTs `{session_id}` with the JSON header, and the URL reaches the server's session handler |
| AuthService.ReachesAuth | server.py:219-286 | `/api/auth/session`, `/me` and `/logout` reach their handlers for the right verb |
| AuthService.CurrentUserRequest | authService.ts:53-57 | a GET without body whose URL reaches the `/auth/me` handler |
| AuthService.LogoutRequest | authService.ts:76-81 | a POST without body whose URL reaches the `/auth/logout` handler |
| AuthService.ProcessSessionId | authService.ts:39-47 | any non-2xx status rejects with "Authentication failed: status" |
| AuthService.ProcessSessionIdAgreesWithRequest | authService.ts:28-48 | succeeds exactly when a 2xx reply has a body, with that body; errors carry the same status |
| AuthService.CurrentUser | authService.ts:53-71 | the user exactly for a 2xx reply with a body; null for 401, any other status, or a network error; never rejects |
| AuthService.UnauthenticatedIsNull | authService.ts:59-62 | a 401 gives null |
| AuthService.Logout | authService.ts:76-88 | true exactly when the request succeeds or fails only at decoding the body; false on a network error or a non-2xx status; never rejects |
| AuthService.LogoutIgnoresBody | authService.ts:76-88 | the result depends on the status only, never on the body |
| AuthService.ExtractSessionIdFromUrl | authService.ts:93-108 | null when parsing throws, there is no path, or the path has no `#`; a result only comes from a fragment |
| AuthService.ExtractsRedirectedSessionId | authService.ts:93-101 | `…#session_id=X` yields X |
| AuthContext.AuthProvider.constructor | AuthContext.tsx:36-37 | no user, loading, not authenticated |
| AuthContext.AuthProvider.InitializeAuth | AuthContext.tsx:44-57 | a fetched user replaces `user`; null leaves it unchanged; authenticated exactly when a user was fetched or already present; ends not loading |
| AuthContext.AuthProvider.HandleAuthCallback | AuthContext.tsx:80-103 | `user` changes only when a non-empty session id was extracted and exchanged; authenticated exactly when that happened or a user was already present; then the URL before the first `#` is reopened; ends not loading |
| AuthContext.AuthProvider.Login | AuthContext.tsx:105-114 | still loading exactly when the browser opened; `user` and whether it is authenticated unchanged |
| AuthContext.AuthProvider.Logout | AuthContext.tsx:116-129 | ends with no user, not authenticated and not loading |
| AuthContext.AuthProvider.RefreshUser | AuthContext.tsx:131-143 | the user becomes the fetched one, or null for no user or an error; authenticated exactly when the fetch returned a user; loading flag untouched |
| AuthContext.UseAuth | AuthContext.tsx:27-33 | the context inside a provider; outside it, the error "useAuth must be used within an AuthProvider" |
| ChatTurns.UserTurn | ChatScreen.tsx:59-65 | a user turn holding the trimmed text |
| ChatTurns.ReplyTurn | ChatScreen.tsx:72-88 | the server's reply on success; otherwise a coach turn with the fixed "frozen words" text and an id ending `_error` |
| ChatScreen.ChatScreen.constructor | ChatScreen.tsx:20-23 | empty input, not loading, not speaking |
| ChatScreen.ChatScreen.SetMessage | ChatScreen.tsx:21 | sets the input only |
| ChatScreen.ChatScreen.LoadChatHistory | ChatScreen.tsx:30-54 | no user: stores the demo user `demo-user` and fetches nothing; otherwise fetches the history and replaces the messages on success |
| ChatScreen.ChatScreen.SendMessage | ChatScreen.tsx:56-92 | no-op on a blank input or no user; otherwise sends the trimmed text and the history grows by exactly the user turn then one reply or error turn; input cleared, not loading |
| ChatScreen.ChatScreen.PostTurn | ChatScreen.tsx:67-91 | appends the user turn then the reply turn, clears the input and ends not loading |
| ChatScreen.ChatScreen.SpeakMessage | ChatScreen.tsx:94-114 | while speaking it only stops; otherwise it speaks the text |
| ChatScreen.ChatScreen.SpeechEnded | ChatScreen.tsx:107-108 | speech done or failed: not speaking |
| IndexTab.ChatTab.constructor | index.tsx:24-27 | empty input, not loading, not speaking |
| IndexTab.ChatTab.SetMessage | index.tsx:25 | sets the input only |
| IndexTab.ChatTab.LoadChatHistory | index.tsx:36-60 | no user: a demo user `demo-user-<millis>`; otherwise fetches and replaces the messages on success |
| IndexTab.ChatTab.OnUserChanged | index.tsx:30-34 | history is fetched only when there is a user, and stored on success, kept otherwise; so the demo branch is never reached from the effect |
| IndexTab.ChatTab.SendMessage | index.tsx:62-105 | no-op on a blank input, a send in flight or no user; otherwise the same trimmed text is appended and sent, and exactly two turns are added |
| IndexTab.ChatTab.PostTurn | index.tsx:74-104 | appends the user turn then the reply turn, clears the input and ends not loading |
| IndexTab.ChatTab.SpeakMessage | index.tsx:107-127 | while speaking it only stops; otherwise it speaks the text |
| IndexTab.ChatTab.SpeechEnded | index.tsx:120-121 | speech done or failed: not speaking |
| HabitCategories.FindCategory | HabitsScreen.tsx:156 | `find`: the first entry with the key, and none only when no entry has it |
| HabitCategories.TableWellFormed | HabitsScreen.tsx:17-22 | the four keys are distinct and every caption and icon is non-empty |
| HabitCategories.FindsTheEntry | HabitsScreen.tsx:155-163 | each table key finds its own entry |
| HabitCategories.CategoryIcon | HabitsScreen.tsx:155-158 | the table icon for a known key, `checkmark-circle` otherwise |
| HabitCategories.CategoryLabel | HabitsScreen.tsx:160-163 | the table label for a known key, the raw category otherwise |
| HabitCategories.LabelsCanCollide | HabitsScreen.tsx:160-163 | an unknown category spelled like a label shows the same label as a known key |
| HabitCategories.OptionalText | HabitsScreen.tsx:77-78 | `s.trim() \|\| undefined`: present only as the non-empty trimmed text |
| HabitCategories.OptionalTextAbsentIffAllSpace | HabitsScreen.tsx:77-78 | absent exactly when the text is all white space |
| HabitCategories.OptionalTextOfTrimmed | HabitsScreen.tsx:77-78 | trimming first changes nothing |
| HabitCategories.AddHabitRequest | HabitsScreen.tsx:70-79 | a request exactly when the name is not blank and there is a user; trimmed name, the chosen category, trimmed optional fields |
| HabitCategories.AddHabitRequestOptionalFields | HabitsScreen.tsx:77-78 | target and unit are sent as undefined exactly when blank |
| HabitCategories.LogHabitRequest | HabitsScreen.tsx:123-131 | a request exactly when the value is not blank and a habit and a user are present; trimmed value for the selected habit |
| HabitCategories.LogHabitRequestNotes | HabitsScreen.tsx:130 | notes are sent as undefined exactly when blank |
| HabitsScreen.HabitsScreen.constructor | HabitsScreen.tsx:28-40 | empty forms, category `fitness`, nothing selected, no logs, not loading |
| HabitsScreen.HabitsScreen.SetHabitName | HabitsScreen.tsx:33 | sets the name field |
| HabitsScreen.HabitsScreen.SetHabitCategory | HabitsScreen.tsx:34 | sets the category field |
| HabitsScreen.HabitsScreen.SetTargetValue | HabitsScreen.tsx:35 | sets the target field |
| HabitsScreen.HabitsScreen.SetUnit | HabitsScreen.tsx:36 | sets the unit field |
| HabitsScreen.HabitsScreen.SetLogValue | HabitsScreen.tsx:39 | sets the log value field |
| HabitsScreen.HabitsScreen.SetLogNotes | HabitsScreen.tsx:40 | sets the log notes field |
| HabitsScreen.HabitsScreen.SelectHabit | HabitsScreen.tsx:28 | selects the habit |
| HabitsScreen.HabitsScreen.LoadHabits | HabitsScreen.tsx:47-56 | no user: nothing; otherwise the store's habits become the server's list on success |
| HabitsScreen.HabitsScreen.LoadHabitLogs | HabitsScreen.tsx:58-67 | no user: nothing; otherwise the logs become the server's list on success |
| HabitsScreen.HabitsScreen.Mount | HabitsScreen.tsx:42-45 | with a user: habits and logs are fetched and stored on success, kept otherwise, loading flag untouched; nothing without one |
| HabitsScreen.HabitsScreen.HandleAddHabit | HabitsScreen.tsx:69-96 | sends exactly the add request, or nothing; the store gains the server's habit and the form resets only on success; not loading afterwards |
| HabitsScreen.HabitsScreen.PostHabit | HabitsScreen.tsx:72-95 | success appends the habit and resets the form; failure changes neither; not loading |
| HabitsScreen.HabitsScreen.HandleDeleteHabit | HabitsScreen.tsx:98-120 | cancel: nothing; confirm: deletes, and removes the habit from the store only on success |
| HabitsScreen.HabitsScreen.HandleLogHabit | HabitsScreen.tsx:122-153 | sends exactly the log request, or nothing; success resets the form, shows the coach's reply if non-empty, and reloads the logs; not loading afterwards |
| HabitsScreen.HabitsScreen.PostLog | HabitsScreen.tsx:125-152 | the success and failure outcomes of a sent log |
| HabitsTab.HabitsTab.constructor | habits.tsx:28-40 | empty forms, category `fitness`, nothing selected, not loading |
| HabitsTab.HabitsTab.SetHabitName | habits.tsx:33 | sets the name field; target, unit and notes stay empty |
| HabitsTab.HabitsTab.SetHabitCategory | habits.tsx:34 | sets the category field |
| HabitsTab.HabitsTab.SetLogValue | habits.tsx:39 | sets the log value field |
| HabitsTab.HabitsTab.SelectHabit | habits.tsx:28 | selects the habit |
| HabitsTab.HabitsTab.LoadHabits | habits.tsx:62-71 | with the rendered user: the store's habits become the server's list on success; without one, nothing |
| HabitsTab.HabitsTab.LoadHabitLogs | habits.tsx:73-82 | with the rendered user: the logs become the server's list on success; without one, nothing |
| HabitsTab.HabitsTab.Mount | habits.tsx:42-60 | no user: the demo user is stored and, because the loads see the user from before, nothing is fetched; with a user: habits and logs are fetched and stored on success, kept otherwise |
| HabitsTab.HabitsTab.HandleAddHabit | habits.tsx:84-111 | as on the habits screen, and target and unit are always sent as undefined |
| HabitsTab.HabitsTab.PostHabit | habits.tsx:87-110 | success appends the habit and resets the form; failure changes neither; not loading |
| HabitsTab.HabitsTab.HandleLogHabit | habits.tsx:113-144 | as on the habits screen, and notes are always sent as undefined |
| HabitsTab.HabitsTab.PostLog | habits.tsx:116-143 | the success and failure outcomes of a sent log |
| Titles.ThresholdsNonDecreasing | ProfileScreen.tsx:15-22 | minimum score and minimum streak never decrease down the table |
| Titles.UnlockedArePrefix | ProfileScreen.tsx:258 | unlocking a title unlocks every title above it in the table |
| Titles.RecruitAlwaysUnlocked | profile.tsx:115 | Frozen Recruit is unlocked for any non-negative stats |
| Titles.IndexOfTitle | ProfileScreen.tsx:25 | `findIndex`: the first entry with the title, and none only when absent |
| Titles.FindTitle | ProfileScreen.tsx:25 | the same search from a given position |
| Titles.ProgressToNextTitle | ProfileScreen.tsx:24-39 | null for an unknown or last title; otherwise the table successor with non-negative needs that reach its thresholds exactly |
| Titles.NothingNeededIffUnlocked | ProfileScreen.tsx:30-38 | both needs are 0 exactly when the next title is already unlocked |
| Titles.HighestUnlocked | ProfileScreen.tsx:258 | the last unlocked entry: unlocked, with nothing unlocked after it |
| Titles.HighestUnlockedBelow | ProfileScreen.tsx:258 | the same among the first n entries |
| Titles.GuideAgreesWithServer | ProfileScreen.tsx:15-22 | the highest unlocked entry of the guide is the title the server awards for the same score and streak |
| Titles.TitleAt | ProfileScreen.tsx:15-22 | table entry i names the server's title of tier i |
| Titles.TitleEmoji | ProfileScreen.tsx:41-50 | ❄️ exactly for a title outside the five named ones |
| Titles.EmojiDistinguishesTitles | ProfileScreen.tsx:41-50 | the titles above Frozen Recruit have pairwise distinct emoji |
| ProfileScreen.ProfileScreen.constructor | ProfileScreen.tsx:54-60 | not loading, zero stats |
| ProfileScreen.LoadOutcome | ProfileScreen.tsx:66-92 | user, habits and logs (limit 1000) are requested in turn, stopping at the first failure; the user is replaced once fetched, and the stats become habit count, log count and best streak only when all three succeed |
| ProfileScreen.ProfileScreen.LoadUserStats | ProfileScreen.tsx:66-92 | no user: nothing; otherwise the requests sent, the stored user and the stats are exactly those of `LoadOutcome`; habits, messages and loading flag untouched |
| ProfileScreen.ProfileScreen.RefreshScore | ProfileScreen.tsx:94-108 | no user: nothing; otherwise it PUTs the score first, shows "Updated" exactly when that succeeds, then reloads user and stats exactly as `LoadOutcome` says, and ends not loading |
| ProfileScreen.ProfileScreen.HandleLogout | ProfileScreen.tsx:110-126 | confirming clears the store; cancelling changes nothing |
| ProfileTab.Mount | profile.tsx:37-53 | the demo user is stored only when there is no user |
| ProfileTab.DemoUserIsRecruit | profile.tsx:84-117 | the seeded demo user, for any timestamp, shows ❄️ in the header, and in the titles guide the first entry is the only one unlocked and the only one marked current |
| ProfileTab.UnlockedAreOnlyTheFirst | profile.tsx:115 | at score 0 and streak 0 only the first title is unlocked |
| RankBadges.RankIcon | LeaderboardScreen.tsx:31-42 | `trophy` exactly for rank 1, `medal` exactly for ranks 2 and 3, `chevron-forward` otherwise |
| RankBadges.RankColor | LeaderboardScreen.tsx:91 | gold, silver, bronze for ranks 1–3 and `#00BFFF` otherwise |
| RankBadges.ColorFollowsIcon | LeaderboardScreen.tsx:25-42 | a podium colour goes with a podium icon, and distinct podium ranks have distinct colours |
| RankBadges.PodiumOfRankedBoard | LeaderboardScreen.tsx:31-42 | on a board ranked 1..n, only the first row shows a trophy and only rows two and three show medals |
| RankBadges.FindUserEntry | LeaderboardScreen.tsx:152 | the first entry of the user, and none only when absent |
| RankBadges.YourRankCard | LeaderboardScreen.tsx:149-179 | hidden exactly without a user or with an empty board; otherwise the user's own entry |
| RankBadges.CardMatchesMarkedRows | LeaderboardScreen.tsx:149-179 | "Your Rank" exactly when some row is the current user's, otherwise "Build Your Rank" |
| LeaderboardScreen.LeaderboardScreen.constructor | LeaderboardScreen.tsx:63-65 | empty board, not loading, not refreshing |
| LeaderboardScreen.LeaderboardScreen.LoadLeaderboard | LeaderboardScreen.tsx:71-81 | fetches with the default limit; success replaces the board, failure leaves it; not loading afterwards |
| LeaderboardScreen.LeaderboardScreen.OnRefresh | LeaderboardScreen.tsx:83-87 | refreshing during the load and not after it |
| LeaderboardTab.FallbackRowIsTheDemoUsers | leaderboard.tsx:91-130 | the fallback row is marked as the current user's (`isCurrentUser`) exactly when the stored user has the demo id; it is rank 1 with the gold trophy and the demo user's name and title |
| LeaderboardTab.LeaderboardTab.constructor | leaderboard.tsx:61-62 | empty board, not loading |
| LeaderboardTab.LeaderboardTab.LoadLeaderboard | leaderboard.tsx:83-105 | success replaces the board; failure replaces it by exactly the one demo entry; not loading afterwards |
| LeaderboardTab.LeaderboardTab.Mount | leaderboard.tsx:64-100 | the demo user is stored only when there is no user, then the board is loaded; with no user at mount, a failed load shows one first-place row that is the seeded user's own |
| AlarmScreen.NextOccurrence | AlarmScreen.tsx:108-116 | the alarm time when still ahead of now, otherwise one day later |
| AlarmScreen.NextOccurrenceIsAhead | AlarmScreen.tsx:111-114 | for a time less than a day old, the trigger is in the future and at most a day ahead |
| AlarmScreen.AlarmBody | AlarmScreen.tsx:121 | the custom message when non-empty, otherwise one of the fixed roasts |
| AlarmScreen.ScheduleAlarm | AlarmScreen.tsx:100-125 | nothing exactly when disabled; otherwise every scheduled notification is cancelled, then one notification is scheduled at the next occurrence of the time, with the alarm body |
| AlarmScreen.EnableSwitchAsWritten | AlarmScreen.tsx:286-293 | stores the value; off: cancels all and schedules nothing; on: cancels and schedules exactly when the alarm was already enabled before the switch, at the next occurrence of its time |
| AlarmScreen.EnablingSchedulesNothing | AlarmScreen.tsx:286-293 | as written, switching the alarm on from off cancels nothing and schedules nothing |
| AlarmScreen.EnableSwitch | AlarmScreen.tsx:286-293 | intended: always cancels all; schedules exactly when switched on, at the next occurrence of the time, with the alarm body |
| AlarmScreen.EnablingSchedulesTheAlarm | AlarmScreen.tsx:286-293 | intended: switching on schedules the alarm at its next occurrence |
| AlarmScreen.PickTimeAsWritten | AlarmScreen.tsx:388-396 | stores the picked time; when enabled it cancels all and schedules at the next occurrence of the time from before the pick |
| AlarmScreen.PickedTimeIgnored | AlarmScreen.tsx:388-396 | as written, a new future time is stored but the alarm is scheduled at the old one |
| AlarmScreen.PickTime | AlarmScreen.tsx:388-396 | intended: stores the time; when enabled it cancels all and schedules at the next occurrence of the picked time |
| AlarmScreen.PickedTimeScheduled | AlarmScreen.tsx:388-396 | intended: the trigger is the next occurrence of the picked time |
| AlarmScreen.RequiredPhraseIsBare | AlarmScreen.tsx:72 | the required phrase is non-empty with no white space at either end |
| AlarmScreen.BareNormalizesToLower | AlarmScreen.tsx:148 | lower-casing and trimming a bare phrase only lower-cases it |
| AlarmScreen.PaddedPhraseAccepted | AlarmScreen.tsx:147-156 | the phrase typed with any surrounding white space is accepted |
| AlarmScreen.EmptyProofRejected | AlarmScreen.tsx:147-155 | with a text proof required, an empty proof is rejected |
| AlarmScreen.DismissLine | AlarmScreen.tsx:164-166 | the fixed line with no snoozes, otherwise a line starting with snoozes + 1 |
| AlarmScreen.DismissLineCountsAttempts | AlarmScreen.tsx:164-166 | the first word of the line reads back as snoozes + 1 |
| AlarmScreen.AlarmScreen.constructor | AlarmScreen.tsx:60-72 | disabled, time now, no proof required, text proof, voice on; empty inputs, no snoozes, inactive |
| AlarmScreen.AlarmScreen.SetProofText | AlarmScreen.tsx:68 | sets the proof text |
| AlarmScreen.AlarmScreen.SetCustomMessage | AlarmScreen.tsx:343 | sets the draft message |
| AlarmScreen.AlarmScreen.SaveCustomMessage | AlarmScreen.tsx:351-354 | copies the draft into the settings and changes no other setting |
| AlarmScreen.AlarmScreen.ToggleEnabled | AlarmScreen.tsx:286-293 | changes only `enabled`, and cancels and schedules exactly as the code as written does (`EnableSwitchAsWritten`) |
| AlarmScreen.AlarmScreen.ToggleVoice | AlarmScreen.tsx:316-317 | changes only `voiceEnabled` |
| AlarmScreen.AlarmScreen.ToggleRequireProof | AlarmScreen.tsx:328-329 | changes only `requireProof` |
| AlarmScreen.AlarmScreen.OpenTimePicker | AlarmScreen.tsx:301 | shows the picker |
| AlarmScreen.AlarmScreen.PickTimeHandler | AlarmScreen.tsx:388-396 | closes the picker; a dismissed picker changes, cancels and schedules nothing; a picked time is stored, cancelled and scheduled as the code as written does (`PickTimeAsWritten`) |
| AlarmScreen.AlarmScreen.HandleSnooze | AlarmScreen.tsx:181-201 | the snooze count grows by exactly 1; the line names the new count when the voice is on; the alert title is `Snooze #n` |
| AlarmScreen.AlarmScreen.Reactivate | AlarmScreen.tsx:199-206 | the alarm is active again |
| AlarmScreen.AlarmScreen.HandleAlarmDismiss | AlarmScreen.tsx:146-179 | accepted exactly when the proof check passes; a rejection changes nothing; acceptance deactivates, resets the count and clears the proof, speaking the dismiss line when the voice is on |
| AlarmScreen.AlarmScreen.TestAlarm | AlarmScreen.tsx:209-217 | activates the alarm and speaks a roast when the voice is on |
| Sorting.InsertDesc | server.py:406 | inserting into a descending list keeps it descending and adds exactly that element |
| Sorting.SortDesc | server.py:406 | `sort(key, -1)`: descending by key and a permutation of the input |
| Sorting.PrefixDominates | server.py:406 | `limit` after a descending sort keeps the largest keys |
| Sorting.Reverse | server.py:401 | `reversed`: same elements, opposite order |
| Text.TrimStart | HabitsScreen.tsx:75 | a suffix of the input that does not start with white space |
| Text.TrimStartDropsSpace | HabitsScreen.tsx:75 | everything it drops is white space |
| Text.TrimEnd | HabitsScreen.tsx:75 | a prefix of the input that does not end with white space |
| Text.TrimEndDropsSpace | HabitsScreen.tsx:75 | everything it drops is white space |
| Text.Trim | HabitsScreen.tsx:75 | JavaScript `trim`: no longer than the input, no white space at either end |
| Text.TrimIsMiddle | HabitsScreen.tsx:75 | the trimmed text is the input's middle, and all that is cut on both sides is white space |
| Text.BlankIffAllSpace | HabitsScreen.tsx:70 | `!s.trim()` holds exactly when the text is all white space |
| Text.TrimIdempotent | index.tsx:65 | trimming twice is trimming once, so the text sent equals the text shown |
| Text.TrimStartOfPadded | AlarmScreen.tsx:148 | leading white space before a word is removed exactly |
| Text.TrimEndOfPadded | AlarmScreen.tsx:148 | trailing white space after a word is removed exactly |
| Text.TrimOfPadded | AlarmScreen.tsx:148 | trimming a padded phrase gives the phrase back |
| Text.LowerAscii | AlarmScreen.tsx:148 | an upper-case ASCII letter becomes its own lower-case letter (code + 32); everything else is kept |
| Text.ToLowerAscii | AlarmScreen.tsx:148 | lower-cases each character in place |
| Text.LowerOfPadded | AlarmScreen.tsx:148 | lower-casing leaves white-space padding as it is |
| Text.NatToString | api.ts:82 | decimal digits with no leading zero |
| Text.DecimalRoundTrip | api.ts:82 | the decimal text of n reads back as n |
| Text.NatToStringInjective | api.ts:82 | different numbers have different decimal texts |
| Text.Split | AuthContext.tsx:94 | `split`: the parts hold no separator, the first part is the text before the first separator, and a text without one is its only part |
| Text.SplitJoin | AuthContext.tsx:94 | joining the parts gives the text back |
| Text.JoinSplit | authService.ts:96 | splitting joined separator-free parts gives the parts back |
| Text.SplitAfterSeparator | authService.ts:96 | a separator ends the first part and the rest is split on its own |
| Text.BeforeFirst | AuthContext.tsx:94 | `split(sep)[0]`: the longest prefix without the separator |
| Text.ParamValue | authService.ts:99-100 | the text after the first `=` of a pair |
| Text.FirstParam | authService.ts:99-100 | `URLSearchParams.get`: the value of the first pair with that name (no earlier pair has it), none only when absent |
| Text.LastParam | server.py:374 | Starlette's query lookup: the value of the last pair with that name (no later pair has it), none only when absent |
| Text.QueryParamOfPair | authService.ts:99-100 | `name=value` yields the value for the name |
| Text.QueryParamOfMarkedPair | server.py:374 | `?name=value` yields the value for the name |
| Text.ServerQueryParamOfMarkedPair | server.py:374 | on the server side too, `?name=value` yields the value for the name |

## Left out

- Rendering: the JSX, styles, modals, `FlatList` scrolling and its `setTimeout`, and the alerts that only show text. Alert choices that change state are parameters (`confirmed`), and alerts that report an outcome are stated as results (`RefreshAlert`, `alertTitle`).
- `login.tsx` and `_layout.tsx`: view and tab configuration only.
- I/O: `fetch`, the Mongo calls and the external Emergent session service (server.py:124-133). Replies are parameters, the collections are sequences, and the Emergent answer is a `Result` parameter of `ProcessSession`.
- The coach reply placeholder (server.py:154-164): a constant, passed in as `coachReply`.
- Persistence through zustand `persist`/`AsyncStorage` (userStore.ts:87-90) and `AsyncStorage.clear` (AuthContext.tsx:123): foreign libraries.
- Concurrency: overlapping requests and last-write-wins races between screens. Each handler is one atomic step, with its awaited replies as parameters.
- Platform calls: the alarm's 5-minute `setTimeout` (AlarmScreen.tsx:204-206) is modelled only as `Reactivate`; the `Notifications` scheduler and `Speech` are modelled only as returned values; permission requests, `loadAlarmSettings` and `saveAlarmSettings` do nothing that can be stated.
- `Math.random` roast choice: an index parameter below the list length.
- Dates and floats: `getTodaysLogs` (HabitsScreen.tsx:165-170); `daysSinceStart` and `averageDaily` (ProfileScreen.tsx:79-87), so the modelled stats hold habits, logs and best streak; the calendar behaviour of `setDate` (AlarmScreen.tsx:113), modelled as adding 24 hours of milliseconds; `datetime.now` and `Date.now`, which are parameters; the server's "start of today", which is a parameter.
- `Linking.parse` and `URLSearchParams` internals: the parsed path is a parameter, and query values are neither percent-decoded nor have `+` read as a space (`Text.QueryParam`, `Text.ServerQueryParam`). OAuth browser redirects (authService.ts:16-23): `Login` takes whether the browser opened.
- uuid generation: fresh ids are parameters. `CreateUser` and `ProcessSession` require the fresh id to be unused.
- Unicode `toLowerCase`: the proof comparison lower-cases ASCII letters only.
- Server routes outside the modelled core: `GET /` (server.py:215-217), `/auth/me` (272-283), `/auth/logout` (285-295), `get_user` (308-313), `get_user_habits` (337-340) and `get_habit_logs` (373-376). The client calls to them are modelled, and routing reaches them, but their handlers' database reads are not.
- Pydantic validation of request bodies: a body of the wrong shape (a 422) is not modelled; handlers take well-formed bodies.
- ServerDb.Database.GetChatHistory: requires limit ≥ 1, because Mongo's `limit(0)` (no limit) is not modelled.
- ServerDb.Database.GetLeaderboard: requires limit ≥ 1, for the same reason.
- ServerDb.TopUsers: requires limit ≥ 1, for the same reason.
- ServerRoutes.LimitParam: accepts plain digits only. Every other text that FastAPI's integer conversion accepts is reported as rejected (422): for example a negative `limit` (passed on to Mongo), a leading `+` (`?limit=+5`) or surrounding white space.
- ServerDb.Database.LogHabit: requires the start of today to be no later than now. It keeps the streak rule as written (one day per log; see "## Findings").
- ServerDb.TopUsers, ServerDb.Database.GetLeaderboard and ServerDb.ChatWindowParts: Mongo's `sort` leaves documents with equal keys in no fixed order; the model sorts stably, so ties keep insertion order, one of the orders Mongo may return.
- FastAPI's redirect of a trailing slash, percent-decoding of paths and queries, the decoding of `+` as a space in query values, and automatic `HEAD`/`OPTIONS` answers are not modelled by `ServerRoutes`.

## Findings

| source | as written | input that shows it | evidently intended | confidence | as-written member | corrected member |
|---|---|---|---|---|---|---|
| AlarmScreen.tsx:286-293 | the enable switch queues `enabled: value` and then calls `scheduleAlarm`, whose closure still sees `enabled` false, so it returns at once | an alarm with `enabled` false, switched on | switching the alarm on schedules it at the next occurrence of its time | not executed | AlarmScreen.EnableSwitchAsWritten, AlarmScreen.EnablingSchedulesNothing | AlarmScreen.EnableSwitch, AlarmScreen.EnablingSchedulesTheAlarm |
| AlarmScreen.tsx:388-396 | the time picker queues the new time and calls `scheduleAlarm`, which still reads the old time | an enabled alarm at a future time T, with a different future time T' picked | the alarm is rescheduled at the picked time | not executed | AlarmScreen.PickTimeAsWritten, AlarmScreen.PickedTimeIgnored | AlarmScreen.PickTime, AlarmScreen.PickedTimeScheduled |
| server.py:171-188 | `log_habit` (server.py:366-368) runs `update_user_streak` after every log, and it adds one day whenever there is any log today | a user with no log today logs two habits today: the streak goes up by 2 | the streak counts active days: one day per day with a log | not executed | ServerRules.StreakCountsLogs | ServerRules.DailyStreak, ServerRules.DailyStreakAddsOneDay |
