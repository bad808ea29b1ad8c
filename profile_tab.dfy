/**
 * The profile tab: a mount effect that seeds the demo user, and the title guide shared with
 * the profile screen.
 */
module ProfileTab {
  import opened Wrappers
  import opened Entities
  import opened Titles
  import UserStore

  /** The mount effect: the demo user is stored only when there is no user. */
  method Mount(store: UserStore.Store, now: string)
    modifies store
    ensures old(store.user).None? ==> store.user == Some(DemoUser(DemoUserId, now))
    ensures old(store.user).Some? ==> store.user == old(store.user)
    ensures store.habits == old(store.habits) && store.chatMessages == old(store.chatMessages)
    ensures store.isLoading == old(store.isLoading)
  {
    if store.user.None? {
      store.SetUser(DemoUser(DemoUserId, now));
    }
  }

  /**
   * The seeded demo user, whatever its timestamp, is shown as the first title: the header
   * carries the snow emoji, and in the titles guide the first entry is the only one both
   * unlocked and marked current.
   */
  lemma DemoUserIsRecruit(now: string)
    ensures var u := DemoUser(DemoUserId, now);
            && TitleEmoji(u.winterTitle) == SnowEmoji
            && IndexOfTitle(u.winterTitle) == Some(0)
            && (forall k :: 0 <= k < |WinterTitles| ==> (WinterTitles[k].title == u.winterTitle <==> k == 0))
            && (forall k :: 0 <= k < |WinterTitles| ==> (IsUnlocked(WinterTitles[k], u.totalScore, u.streakDays) <==> k == 0))
  {
    var u := DemoUser(DemoUserId, now);
    assert WinterTitles[0].title == u.winterTitle;
    UnlockedAreOnlyTheFirst();
  }

  /** At zero score and streak only the first entry of the guide is unlocked. */
  lemma UnlockedAreOnlyTheFirst()
    ensures forall k :: 0 < k < |WinterTitles| ==> !IsUnlocked(WinterTitles[k], 0, 0)
  {
    ThresholdsNonDecreasing();
    assert !IsUnlocked(WinterTitles[1], 0, 0);
  }
}
