/**
 * The client's table of winter titles (`WINTER_TITLES`, repeated in both profile screens),
 * the unlock rule, the progress toward the next title, and the emoji of each title (the
 * same `getTitleEmoji` appears in the profile and leaderboard screens).
 */
module Titles {
  import opened Wrappers
  import ServerRules

  datatype TitleEntry = TitleEntry(title: string, minScore: int, minStreak: int, description: string)

  const WinterTitles: seq<TitleEntry> := [
    TitleEntry("Frozen Recruit", 0, 0, "Just started the journey"),
    TitleEntry("Ice Apprentice", 100, 0, "Learning the ways of winter"),
    TitleEntry("Frost Walker", 200, 7, "Walking the path of discipline"),
    TitleEntry("Winter Guardian", 500, 14, "Protecting the winter ways"),
    TitleEntry("Frozen Warrior", 700, 21, "Battle-tested in the ice"),
    TitleEntry("Ice Emperor", 1000, 30, "Master of the Winter Arc")
  ]

  /** The `isUnlocked` test of the titles guide. */
  predicate IsUnlocked(t: TitleEntry, score: int, streak: int) {
    score >= t.minScore && streak >= t.minStreak
  }

  /** Both thresholds only grow down the table. */
  lemma ThresholdsNonDecreasing()
    ensures forall i, j :: 0 <= i <= j < |WinterTitles| ==>
              WinterTitles[i].minScore <= WinterTitles[j].minScore
              && WinterTitles[i].minStreak <= WinterTitles[j].minStreak
  {
  }

  /** So the unlocked titles are a prefix of the table. */
  lemma UnlockedArePrefix(score: int, streak: int, i: nat, j: nat)
    requires i <= j < |WinterTitles|
    requires IsUnlocked(WinterTitles[j], score, streak)
    ensures IsUnlocked(WinterTitles[i], score, streak)
  {
    ThresholdsNonDecreasing();
  }

  /** The first title is unlocked for any stats that are not negative. */
  lemma RecruitAlwaysUnlocked(score: int, streak: int)
    requires score >= 0 && streak >= 0
    ensures IsUnlocked(WinterTitles[0], score, streak)
  {
  }

  /** `WINTER_TITLES.findIndex(t => t.title === title)`. */
  function IndexOfTitle(title: string): (r: Option<nat>)
    ensures r.Some? ==> r.value < |WinterTitles| && WinterTitles[r.value].title == title
                        && forall k :: 0 <= k < r.value ==> WinterTitles[k].title != title
    ensures r.None? <==> forall k :: 0 <= k < |WinterTitles| ==> WinterTitles[k].title != title
  {
    FindTitle(WinterTitles, title, 0)
  }

  function FindTitle(table: seq<TitleEntry>, title: string, from: nat): (r: Option<nat>)
    requires from <= |table|
    ensures r.Some? ==> from <= r.value < |table| && table[r.value].title == title
                        && forall k :: from <= k < r.value ==> table[k].title != title
    ensures r.None? <==> forall k :: from <= k < |table| ==> table[k].title != title
    decreases |table| - from
  {
    if from == |table| then None
    else if table[from].title == title then Some(from)
    else FindTitle(table, title, from + 1)
  }

  datatype Progress = Progress(nextTitle: string, scoreNeeded: int, streakNeeded: int)

  /**
   * `getProgressToNextTitle`: null for a title missing from the table or the last one;
   * otherwise the next title and how much score and streak it still needs, never negative.
   */
  function ProgressToNextTitle(score: int, streak: int, title: string): (r: Option<Progress>)
    ensures r.None? <==> IndexOfTitle(title).None? || IndexOfTitle(title).value == |WinterTitles| - 1
    ensures r.Some? ==>
              var next := WinterTitles[IndexOfTitle(title).value + 1];
              && r.value.nextTitle == next.title
              && r.value.scoreNeeded >= 0 && r.value.streakNeeded >= 0
              && score + r.value.scoreNeeded >= next.minScore
              && streak + r.value.streakNeeded >= next.minStreak
              && (r.value.scoreNeeded > 0 ==> score + r.value.scoreNeeded == next.minScore)
              && (r.value.streakNeeded > 0 ==> streak + r.value.streakNeeded == next.minStreak)
  {
    match IndexOfTitle(title)
    case None => None
    case Some(i) =>
      if i == |WinterTitles| - 1 then None
      else
        var next := WinterTitles[i + 1];
        Some(Progress(next.title, Max0(next.minScore - score), Max0(next.minStreak - streak)))
  }

  /** `Math.max(0, x)`. */
  function Max0(x: int): int {
    if x > 0 then x else 0
  }

  /** Nothing is still needed exactly when the next title is already unlocked. */
  lemma NothingNeededIffUnlocked(score: int, streak: int, title: string)
    requires ProgressToNextTitle(score, streak, title).Some?
    ensures var p := ProgressToNextTitle(score, streak, title).value;
            var next := WinterTitles[IndexOfTitle(title).value + 1];
            (p.scoreNeeded == 0 && p.streakNeeded == 0) <==> IsUnlocked(next, score, streak)
  {
  }

  /** The highest unlocked entry of the table, searching from the top. */
  function HighestUnlocked(score: int, streak: int): (r: Option<nat>)
    ensures r.Some? ==> r.value < |WinterTitles| && IsUnlocked(WinterTitles[r.value], score, streak)
                        && forall k :: r.value < k < |WinterTitles| ==> !IsUnlocked(WinterTitles[k], score, streak)
    ensures r.None? ==> forall k :: 0 <= k < |WinterTitles| ==> !IsUnlocked(WinterTitles[k], score, streak)
  {
    HighestUnlockedBelow(score, streak, |WinterTitles|)
  }

  function HighestUnlockedBelow(score: int, streak: int, n: nat): (r: Option<nat>)
    requires n <= |WinterTitles|
    ensures r.Some? ==> r.value < n && IsUnlocked(WinterTitles[r.value], score, streak)
                        && forall k :: r.value < k < n ==> !IsUnlocked(WinterTitles[k], score, streak)
    ensures r.None? ==> forall k :: 0 <= k < n ==> !IsUnlocked(WinterTitles[k], score, streak)
  {
    if n == 0 then None
    else if IsUnlocked(WinterTitles[n - 1], score, streak) then Some(n - 1)
    else HighestUnlockedBelow(score, streak, n - 1)
  }

  /**
   * The guide and the server agree: for stats that are not negative, the highest unlocked
   * entry of the table is the title the server awards.
   */
  lemma GuideAgreesWithServer(score: int, streak: int)
    requires score >= 0 && streak >= 0
    ensures HighestUnlocked(score, streak).Some?
    ensures WinterTitles[HighestUnlocked(score, streak).value].title
            == ServerRules.WinterTitle(score, streak).Name()
  {
    RecruitAlwaysUnlocked(score, streak);
    var k := HighestUnlocked(score, streak).value;
    var t := ServerRules.WinterTitle(score, streak);
    assert WinterTitles[t.Tier()].title == t.Name();
    assert IsUnlocked(WinterTitles[t.Tier()], score, streak);
    if k > t.Tier() {
      var u := TitleAt(k);
      assert ServerRules.Earns(u, score, streak);
    }
  }

  /** The server's title at a table position. */
  function TitleAt(i: nat): (t: ServerRules.Title)
    requires i < |WinterTitles|
    ensures t.Tier() == i && t.Name() == WinterTitles[i].title
  {
    if i == 0 then ServerRules.FrozenRecruit
    else if i == 1 then ServerRules.IceApprentice
    else if i == 2 then ServerRules.FrostWalker
    else if i == 3 then ServerRules.WinterGuardian
    else if i == 4 then ServerRules.FrozenWarrior
    else ServerRules.IceEmperor
  }

  const SnowEmoji: string := "\U{2744}\U{FE0F}"

  /** `getTitleEmoji`: one emoji per named title above the first, snow for anything else. */
  function TitleEmoji(title: string): (r: string)
    ensures r == SnowEmoji <==> title !in {"Ice Emperor", "Frozen Warrior", "Winter Guardian", "Frost Walker", "Ice Apprentice"}
  {
    if title == "Ice Emperor" then "\U{1F451}"
    else if title == "Frozen Warrior" then "\U{2694}\U{FE0F}"
    else if title == "Winter Guardian" then "\U{1F6E1}\U{FE0F}"
    else if title == "Frost Walker" then "\U{1F97E}"
    else if title == "Ice Apprentice" then "\U{1F9D9}\U{200D}\U{2642}\U{FE0F}"
    else SnowEmoji
  }

  /** Different titles of the table other than the first get different emoji. */
  lemma EmojiDistinguishesTitles(i: nat, j: nat)
    requires 0 < i < j < |WinterTitles|
    ensures TitleEmoji(WinterTitles[i].title) != TitleEmoji(WinterTitles[j].title)
  {
  }
}
