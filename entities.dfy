/** The records the client keeps in its store and receives from the API (userStore.ts). */
module Entities {
  import opened Wrappers

  datatype User = User(
    id: string, email: string, name: string, picture: Option<string>,
    winterTitle: string, totalScore: int, streakDays: int, longestStreak: int,
    createdAt: string, lastActive: string)

  datatype Habit = Habit(
    id: string, userId: string, name: string, category: string,
    targetValue: Option<string>, unit: Option<string>, createdAt: string)

  datatype HabitLog = HabitLog(
    id: string, userId: string, habitId: string, value: string, notes: Option<string>,
    loggedAt: string, aiResponse: Option<string>)

  datatype ChatMessage = ChatMessage(
    id: string, userId: string, message: string, isUser: bool, timestamp: string)

  datatype LeaderboardEntry = LeaderboardEntry(
    userId: string, name: string, picture: Option<string>, totalScore: int,
    streakDays: int, winterTitle: string, rank: int)

  const DemoUserId: string := "demo-user"

  /** The stand-in user several screens store when none is logged in; `now` is the ISO time. */
  function DemoUser(id: string, now: string): User {
    User(id, "demo@winterarc.com", "Winter Warrior", None, "Frozen Recruit", 0, 0, 0, now, now)
  }
}
