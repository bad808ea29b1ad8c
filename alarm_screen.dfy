/**
 * The roasting alarm screen: the settings record and its switches, when the alarm is
 * scheduled and what the notification says, snoozing, and dismissing with the typed proof
 * phrase. Times are milliseconds since the epoch; the notification scheduler, speech and the
 * random choice of a roast are outside the model (the roast index is a parameter).
 */
module AlarmScreen {
  import opened Wrappers
  import opened Text

  const RequiredPhrase: string := "I am disciplined and ready"

  const RoastMessages: seq<string> := [
    "Wake up, ice cube! The winter doesn't wait for weaklings.",
    "Still in bed? Pathetic. Champions rise while you dream.",
    "The frost is calling, but you're too comfortable being mediocre.",
    "Every second you waste is another step backwards in your Winter Arc.",
    "Real warriors don't need snooze buttons. Prove you're not fake.",
    "The cold doesn't care about your excuses. Neither do I.",
    "While you sleep, your goals are freezing to death.",
    "Discipline starts now, not in 5 more minutes.",
    "The winter arc begins with getting your lazy bones out of bed.",
    "Congratulations, you just failed your first test of the day."
  ]

  const SnoozeRoasts: seq<string> := [
    "Snoozing again? You're weaker than I thought.",
    "This is exactly why you'll never reach your goals.",
    "The winter is laughing at your lack of discipline.",
    "Every snooze is proof you're not ready for greatness.",
    "Your future self is disgusted by your current weakness."
  ]

  const FirstTryLine: string := "Finally awake. Now prove you're worth something today."
  const AttemptsText: string := "attempts to wake up. Pathetic, but you're up now."
  const DayMillis: int := 24 * 60 * 60 * 1000

  datatype ProofType = TextProof | PhotoProof

  datatype AlarmSettings = AlarmSettings(
    enabled: bool, time: int, requireProof: bool, proofType: ProofType,
    customMessage: Option<string>, voiceEnabled: bool)

  /** A scheduled notification: when it fires and its body. */
  datatype Notification = Notification(trigger: int, body: string)

  /**
   * What one call of `scheduleAlarm` does to the notification scheduler: nothing, or cancel
   * every scheduled notification and then schedule one.
   */
  datatype Scheduling = Skipped | CancelAllThenSchedule(notification: Notification)

  /**
   * What a settings switch did: the new settings, whether every scheduled notification was
   * cancelled, and what was scheduled afterwards.
   */
  datatype SwitchOutcome = SwitchOutcome(settings: AlarmSettings, cancelledAll: bool, scheduled: Option<Notification>)

  // ---------------------------------------------------------------------------------------
  // Scheduling.

  /** The first firing of the alarm: its time, or the same time a day later once that has passed. */
  function NextOccurrence(time: int, now: int): (r: int)
    ensures r == time || r == time + DayMillis
    ensures time > now ==> r == time
    ensures time <= now ==> r == time + DayMillis
  {
    if time <= now then time + DayMillis else time
  }

  /** An alarm time set within the last day is always scheduled in the future, at most a day ahead. */
  lemma NextOccurrenceIsAhead(time: int, now: int)
    requires now - DayMillis < time
    ensures now < NextOccurrence(time, now)
    ensures time <= now ==> NextOccurrence(time, now) <= now + DayMillis
  {
  }

  /** The notification body: the saved custom message when it is non-empty, otherwise a roast. */
  function AlarmBody(settings: AlarmSettings, roastIndex: nat): (r: string)
    requires roastIndex < |RoastMessages|
    ensures settings.customMessage.Some? && settings.customMessage.value != [] ==> r == settings.customMessage.value
    ensures settings.customMessage.None? || settings.customMessage.value == [] ==> r in RoastMessages
  {
    if settings.customMessage.Some? && settings.customMessage.value != [] then settings.customMessage.value
    else RoastMessages[roastIndex]
  }

  /**
   * `scheduleAlarm` over the settings it reads: nothing when the alarm is off; otherwise every
   * scheduled notification is cancelled and one is scheduled at the next occurrence of the
   * alarm time.
   */
  function ScheduleAlarm(settings: AlarmSettings, now: int, roastIndex: nat): (r: Scheduling)
    requires roastIndex < |RoastMessages|
    ensures r.Skipped? <==> !settings.enabled
    ensures r.CancelAllThenSchedule? ==> r.notification.trigger == NextOccurrence(settings.time, now)
                                         && r.notification.body == AlarmBody(settings, roastIndex)
  {
    if !settings.enabled then Skipped
    else CancelAllThenSchedule(Notification(NextOccurrence(settings.time, now), AlarmBody(settings, roastIndex)))
  }

  /** The outcome of a switch that stores `settings` and then runs one scheduling call. */
  function Outcome(settings: AlarmSettings, run: Scheduling): SwitchOutcome {
    match run
    case Skipped => SwitchOutcome(settings, false, None)
    case CancelAllThenSchedule(n) => SwitchOutcome(settings, true, Some(n))
  }

  // ---------------------------------------------------------------------------------------
  // The enable switch and the time picker. Both call `scheduleAlarm` from the same render
  // that queued the settings update, so it reads the settings from before the update.

  /**
   * The enable switch as written: off cancels everything; on runs `scheduleAlarm` over the
   * settings from before the switch, so it schedules only an alarm that was already on, at
   * its old time.
   */
  function EnableSwitchAsWritten(settings: AlarmSettings, value: bool, now: int, roastIndex: nat): (r: SwitchOutcome)
    requires roastIndex < |RoastMessages|
    ensures r.settings == settings.(enabled := value)
    ensures !value ==> r.cancelledAll && r.scheduled.None?
    ensures value ==> (r.cancelledAll <==> settings.enabled) && (r.scheduled.Some? <==> settings.enabled)
    ensures r.scheduled.Some? ==> r.scheduled.value.trigger == NextOccurrence(settings.time, now)
                                  && r.scheduled.value.body == AlarmBody(settings, roastIndex)
  {
    if value then Outcome(settings.(enabled := value), ScheduleAlarm(settings, now, roastIndex))
    else SwitchOutcome(settings.(enabled := value), true, None)
  }

  /** So switching the alarm on from off never schedules it, and cancels nothing. */
  lemma EnablingSchedulesNothing(settings: AlarmSettings, now: int, roastIndex: nat)
    requires roastIndex < |RoastMessages| && !settings.enabled
    ensures EnableSwitchAsWritten(settings, true, now, roastIndex).settings.enabled
    ensures EnableSwitchAsWritten(settings, true, now, roastIndex).scheduled.None?
    ensures !EnableSwitchAsWritten(settings, true, now, roastIndex).cancelledAll
  {
  }

  /** The enable switch as intended: scheduling reads the switched-on settings. */
  function EnableSwitch(settings: AlarmSettings, value: bool, now: int, roastIndex: nat): (r: SwitchOutcome)
    requires roastIndex < |RoastMessages|
    ensures r.settings == settings.(enabled := value) && r.cancelledAll
    ensures r.scheduled.Some? <==> value
    ensures r.scheduled.Some? ==> r.scheduled.value.trigger == NextOccurrence(settings.time, now)
                                  && r.scheduled.value.body == AlarmBody(settings, roastIndex)
  {
    if value then Outcome(settings.(enabled := value), ScheduleAlarm(settings.(enabled := value), now, roastIndex))
    else SwitchOutcome(settings.(enabled := value), true, None)
  }

  /** Switching the intended alarm on schedules it at the next occurrence of its time. */
  lemma EnablingSchedulesTheAlarm(settings: AlarmSettings, now: int, roastIndex: nat)
    requires roastIndex < |RoastMessages|
    ensures EnableSwitch(settings, true, now, roastIndex).scheduled
            == Some(Notification(NextOccurrence(settings.time, now), AlarmBody(settings, roastIndex)))
  {
  }

  /**
   * The time picker as written: the new time is stored; an enabled alarm is cancelled and
   * scheduled again, at the next occurrence of the OLD time.
   */
  function PickTimeAsWritten(settings: AlarmSettings, time: int, now: int, roastIndex: nat): (r: SwitchOutcome)
    requires roastIndex < |RoastMessages|
    ensures r.settings == settings.(time := time)
    ensures (r.cancelledAll <==> settings.enabled) && (r.scheduled.Some? <==> settings.enabled)
    ensures r.scheduled.Some? ==> r.scheduled.value.trigger == NextOccurrence(settings.time, now)
                                  && r.scheduled.value.body == AlarmBody(settings, roastIndex)
  {
    if settings.enabled then Outcome(settings.(time := time), ScheduleAlarm(settings, now, roastIndex))
    else SwitchOutcome(settings.(time := time), false, None)
  }

  /** So picking a new future time while the alarm is on schedules it at the old time. */
  lemma PickedTimeIgnored(settings: AlarmSettings, time: int, now: int, roastIndex: nat)
    requires roastIndex < |RoastMessages| && settings.enabled
    requires settings.time > now && time > now && time != settings.time
    ensures PickTimeAsWritten(settings, time, now, roastIndex).settings.time == time
    ensures PickTimeAsWritten(settings, time, now, roastIndex).scheduled.value.trigger == settings.time
    ensures PickTimeAsWritten(settings, time, now, roastIndex).scheduled.value.trigger != time
  {
  }

  /** The time picker as intended: scheduling reads the picked time. */
  function PickTime(settings: AlarmSettings, time: int, now: int, roastIndex: nat): (r: SwitchOutcome)
    requires roastIndex < |RoastMessages|
    ensures r.settings == settings.(time := time)
    ensures (r.cancelledAll <==> settings.enabled) && (r.scheduled.Some? <==> settings.enabled)
    ensures r.scheduled.Some? ==> r.scheduled.value.trigger == NextOccurrence(time, now)
  {
    if settings.enabled then Outcome(settings.(time := time), ScheduleAlarm(settings.(time := time), now, roastIndex))
    else SwitchOutcome(settings.(time := time), false, None)
  }

  /** With the intended picker, an enabled alarm fires at the next occurrence of the picked time. */
  lemma PickedTimeScheduled(settings: AlarmSettings, time: int, now: int, roastIndex: nat)
    requires roastIndex < |RoastMessages| && settings.enabled
    ensures PickTime(settings, time, now, roastIndex).scheduled.value.trigger == NextOccurrence(time, now)
  {
  }

  // ---------------------------------------------------------------------------------------
  // Dismissing and snoozing.

  /** How a typed phrase is compared: lower-cased, then trimmed. */
  function Normalized(s: string): string {
    Trim(ToLowerAscii(s))
  }

  /**
   * The dismiss check: with a text proof required, the typed proof must match the required
   * phrase once both are normalised; with no proof or a photo proof anything passes.
   */
  predicate ProofAccepted(settings: AlarmSettings, requiredPhrase: string, proofText: string) {
    !(settings.requireProof && settings.proofType == TextProof)
    || Normalized(proofText) == Normalized(requiredPhrase)
  }

  /** A phrase that is not empty and has no white space at either end. */
  predicate IsBare(s: string) {
    s != [] && !IsJsSpace(s[0]) && !IsJsSpace(s[|s| - 1])
  }

  /** The phrase the screen asks for is bare. */
  lemma RequiredPhraseIsBare()
    ensures IsBare(RequiredPhrase)
  {
    assert |RequiredPhrase| == 26 && RequiredPhrase[0] == 'I' && RequiredPhrase[25] == 'y';
  }

  /** Lower-casing a bare phrase gives a bare phrase, which normalising then leaves alone. */
  lemma BareNormalizesToLower(phrase: string)
    requires IsBare(phrase)
    ensures Normalized(phrase) == ToLowerAscii(phrase) && IsBare(ToLowerAscii(phrase))
  {
    var lower := ToLowerAscii(phrase);
    assert lower[0] == LowerAscii(phrase[0]) && lower[|lower| - 1] == LowerAscii(phrase[|phrase| - 1]);
    TrimOfUnpadded(lower);
  }

  /** A bare required phrase passes whatever white space surrounds it. */
  lemma PaddedPhraseAccepted(settings: AlarmSettings, phrase: string, before: string, after: string)
    requires IsBare(phrase) && AllSpace(before) && AllSpace(after)
    ensures ProofAccepted(settings, phrase, before + phrase + after)
  {
    BareNormalizesToLower(phrase);
    var lower := ToLowerAscii(phrase);
    LowerOfPadded(before, phrase, after);
    TrimOfPadded(before, lower, after);
  }

  /** An empty proof is rejected whenever a text proof is required and the phrase is bare. */
  lemma EmptyProofRejected(settings: AlarmSettings, phrase: string)
    requires settings.requireProof && settings.proofType == TextProof
    requires IsBare(phrase)
    ensures !ProofAccepted(settings, phrase, "")
  {
    BareNormalizesToLower(phrase);
    assert |Normalized("")| == 0 by {
      assert |ToLowerAscii("")| == 0;
    }
  }

  /** The spoken line on dismissal: a fixed line at the first try, else the number of attempts. */
  function DismissLine(snoozeCount: nat): (r: string)
    ensures snoozeCount == 0 ==> r == FirstTryLine
    ensures snoozeCount > 0 ==> r == NatToString(snoozeCount + 1) + " " + AttemptsText
  {
    if snoozeCount == 0 then FirstTryLine else NatToString(snoozeCount + 1) + " " + AttemptsText
  }

  /** After at least one snooze, the line opens with the number of attempts, snoozes plus one. */
  lemma DismissLineCountsAttempts(snoozeCount: nat)
    requires snoozeCount > 0
    ensures var head := BeforeFirst(DismissLine(snoozeCount), ' ');
            AllDigits(head) && DecimalValue(head) == snoozeCount + 1
  {
    var digits := NatToString(snoozeCount + 1);
    assert ' ' !in digits by {
      forall k | 0 <= k < |digits| ensures digits[k] != ' ' {
        assert IsDigit(digits[k]);
      }
    }
    assert DismissLine(snoozeCount) == digits + [' '] + AttemptsText;
    SplitAfterSeparator(digits, AttemptsText, ' ');
    DecimalRoundTrip(snoozeCount + 1);
  }

  /** The spoken line on a snooze: its number and a roast. */
  function SnoozeLine(count: nat, roast: string): string {
    "Snooze number " + NatToString(count) + ". " + roast
  }

  class AlarmScreen {
    var settings: AlarmSettings
    var showTimePicker: bool
    var proofText: string
    var customMessage: string
    var snoozeCount: nat
    var isAlarmActive: bool
    /** The phrase state, which the screen never updates. */
    const requiredPhrase: string

    /** The initial state, with the alarm time read from the clock. */
    constructor (now: int)
      ensures settings == AlarmSettings(false, now, false, TextProof, None, true)
      ensures !showTimePicker && proofText == "" && customMessage == "" && snoozeCount == 0 && !isAlarmActive
      ensures requiredPhrase == RequiredPhrase
    {
      requiredPhrase := RequiredPhrase;
      settings := AlarmSettings(false, now, false, TextProof, None, true);
      showTimePicker := false;
      proofText := "";
      customMessage := "";
      snoozeCount := 0;
      isAlarmActive := false;
    }

    method SetProofText(text: string)
      modifies this`proofText
      ensures proofText == text
    {
      proofText := text;
    }

    method SetCustomMessage(text: string)
      modifies this`customMessage
      ensures customMessage == text
    {
      customMessage := text;
    }

    /** The save button copies the draft message into the settings, and changes nothing else there. */
    method SaveCustomMessage()
      modifies this`settings
      ensures settings == old(settings).(customMessage := Some(customMessage))
    {
      settings := settings.(customMessage := Some(customMessage));
    }

    /**
     * The enable switch: stores the value, then cancels everything when off or runs
     * `scheduleAlarm` when on. That call was created before the update, so it reads the
     * settings from before the switch (`EnableSwitchAsWritten`).
     */
    method ToggleEnabled(value: bool, now: int, roastIndex: nat) returns (cancelledAll: bool, scheduled: Option<Notification>)
      requires roastIndex < |RoastMessages|
      modifies this`settings
      ensures SwitchOutcome(settings, cancelledAll, scheduled) == EnableSwitchAsWritten(old(settings), value, now, roastIndex)
    {
      var rendered := settings;
      settings := settings.(enabled := value);
      cancelledAll, scheduled := true, None;
      if value {
        var run := ScheduleAlarm(rendered, now, roastIndex);
        cancelledAll, scheduled := run.CancelAllThenSchedule?, if run.CancelAllThenSchedule? then Some(run.notification) else None;
      }
    }

    /** The voice switch changes only the voice setting. */
    method ToggleVoice(value: bool)
      modifies this`settings
      ensures settings == old(settings).(voiceEnabled := value)
    {
      settings := settings.(voiceEnabled := value);
    }

    /** The proof switch changes only the proof setting. */
    method ToggleRequireProof(value: bool)
      modifies this`settings
      ensures settings == old(settings).(requireProof := value)
    {
      settings := settings.(requireProof := value);
    }

    method OpenTimePicker()
      modifies this`showTimePicker
      ensures showTimePicker
    {
      showTimePicker := true;
    }

    /**
     * The time picker's change handler: the picker closes; a picked time is stored and, when
     * the alarm is on, `scheduleAlarm` runs over the settings from before the pick
     * (`PickTimeAsWritten`).
     */
    method PickTimeHandler(selected: Option<int>, now: int, roastIndex: nat) returns (cancelledAll: bool, scheduled: Option<Notification>)
      requires roastIndex < |RoastMessages|
      modifies this`settings, this`showTimePicker
      ensures !showTimePicker
      ensures selected.None? ==> settings == old(settings) && !cancelledAll && scheduled.None?
      ensures selected.Some? ==>
                SwitchOutcome(settings, cancelledAll, scheduled) == PickTimeAsWritten(old(settings), selected.value, now, roastIndex)
    {
      showTimePicker := false;
      cancelledAll, scheduled := false, None;
      if selected.Some? {
        var rendered := settings;
        settings := settings.(time := selected.value);
        if rendered.enabled {
          var run := ScheduleAlarm(rendered, now, roastIndex);
          cancelledAll, scheduled := true, Some(run.notification);
        }
      }
    }

    /**
     * `handleSnooze`: one more snooze, spoken with its number and a roast when the voice is
     * on; nothing else changes.
     */
    method HandleSnooze(roastIndex: nat) returns (spoken: Option<string>, alertTitle: string)
      requires roastIndex < |SnoozeRoasts|
      modifies this`snoozeCount
      ensures snoozeCount == old(snoozeCount) + 1
      ensures settings.voiceEnabled ==> spoken == Some(SnoozeLine(snoozeCount, SnoozeRoasts[roastIndex]))
      ensures !settings.voiceEnabled ==> spoken.None?
      ensures alertTitle == "Snooze #" + NatToString(snoozeCount)
    {
      snoozeCount := snoozeCount + 1;
      var roast := SnoozeRoasts[roastIndex];
      spoken := if settings.voiceEnabled then Some(SnoozeLine(snoozeCount, roast)) else None;
      alertTitle := "Snooze #" + NatToString(snoozeCount);
    }

    /** The alert's wake-me-now button and the five-minute timer both raise the alarm again. */
    method Reactivate()
      modifies this`isAlarmActive
      ensures isAlarmActive
    {
      isAlarmActive := true;
    }

    /**
     * `handleAlarmDismiss`: a rejected proof changes nothing. An accepted dismiss ends the
     * alarm, resets the snooze count and clears the proof, and speaks the dismiss line for
     * the snoozes so far when the voice is on.
     */
    method HandleAlarmDismiss() returns (accepted: bool, spoken: Option<string>)
      modifies this`isAlarmActive, this`snoozeCount, this`proofText
      ensures accepted <==> ProofAccepted(settings, requiredPhrase, old(proofText))
      ensures !accepted ==>
                spoken.None? && isAlarmActive == old(isAlarmActive)
                && snoozeCount == old(snoozeCount) && proofText == old(proofText)
      ensures accepted ==> !isAlarmActive && snoozeCount == 0 && proofText == ""
      ensures accepted && settings.voiceEnabled ==> spoken == Some(DismissLine(old(snoozeCount)))
      ensures accepted && !settings.voiceEnabled ==> spoken.None?
    {
      if !ProofAccepted(settings, requiredPhrase, proofText) {
        return false, None;
      }
      var snoozes := snoozeCount;
      isAlarmActive := false;
      snoozeCount := 0;
      proofText := "";
      accepted := true;
      spoken := if settings.voiceEnabled then Some(DismissLine(snoozes)) else None;
    }

    /** `testAlarm`: raises the alarm and speaks a roast when the voice is on. */
    method TestAlarm(roastIndex: nat) returns (spoken: Option<string>)
      requires roastIndex < |RoastMessages|
      modifies this`isAlarmActive
      ensures isAlarmActive
      ensures settings.voiceEnabled ==> spoken == Some(RoastMessages[roastIndex])
      ensures !settings.voiceEnabled ==> spoken.None?
    {
      isAlarmActive := true;
      spoken := if settings.voiceEnabled then Some(RoastMessages[roastIndex]) else None;
    }
  }
}
