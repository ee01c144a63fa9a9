/** The count-down timer of the revision dialog: it starts at the topic's
    estimated time, ticks down once a second while running, can be paused,
    reset, extended and stopped, and reports the minutes actually spent. */
module Countdown {
  import opened Wrappers
  import opened Numbers
  import opened Text
  import Types

  /** `formatTime`: whole minutes and remaining seconds, each written with
      at least two digits, separated by a colon. */
  function FormatTime(totalSeconds: nat): string
  {
    PadStart2(NatToString(totalSeconds / 60)) + ":" + PadStart2(NatToString(totalSeconds % 60))
  }

  lemma PaddedDigits(n: nat)
    ensures |PadStart2(NatToString(n))| >= 2
    ensures forall i :: 0 <= i < |PadStart2(NatToString(n))| ==> IsDecimalDigit(PadStart2(NatToString(n))[i])
  {
  }

  /** The clock text reads back as its minutes and seconds: splitting at
      the colon gives two fields of at least two digits, which parse to
      `s / 60` and `s % 60`, and those recombine to `s`. */
  lemma FormatTimeRoundTrip(s: nat)
    ensures |Split(FormatTime(s), ':')| == 2
    ensures |Split(FormatTime(s), ':')[0]| >= 2 && |Split(FormatTime(s), ':')[1]| >= 2
    ensures ParseInt(Split(FormatTime(s), ':')[0]) == Some(s / 60)
    ensures ParseInt(Split(FormatTime(s), ':')[1]) == Some(s % 60)
    ensures 0 <= s % 60 < 60 && (s / 60) * 60 + s % 60 == s
  {
    var mm := PadStart2(NatToString(s / 60));
    var ss := PadStart2(NatToString(s % 60));
    PaddedDigits(s / 60);
    PaddedDigits(s % 60);
    assert ':' !in mm && ':' !in ss by {
      assert !IsDecimalDigit(':');
    }
    assert [mm, ss][1..] == [ss];
    assert Join([mm, ss], [':']) == FormatTime(s);
    SplitJoin([mm, ss], ':');
    ParseIntPadded(s / 60);
    ParseIntPadded(s % 60);
  }

  /** One second of the running timer: the last second lands on 0. */
  function TickValue(t: int): (r: int)
    ensures t > 1 ==> r == t - 1
    ensures t <= 1 ==> r == 0
  {
    if t <= 1 then 0 else t - 1
  }

  /** Where `k` seconds of running take a time left of `t`; the interval
      only runs while time is left. */
  function Ticks(t: int, k: nat): int
    decreases k
  {
    if k == 0 || t <= 0 then t else Ticks(TickValue(t), k - 1)
  }

  /** Counting down never goes below zero: after `k` seconds a
      non-negative time left `t` has become `max(0, t - k)`. */
  lemma {:induction false} TicksFloor(t: int, k: nat)
    requires t >= 0
    ensures Ticks(t, k) == Max(0, t - k)
    decreases k
  {
    if k > 0 && t > 0 {
      TicksFloor(TickValue(t), k - 1);
    }
  }

  /** `Math.ceil((originalTime - timeLeft) / 60)`. */
  function ActualMinutes(originalTime: int, timeLeft: int): int
  {
    CeilDiv(originalTime - timeLeft, 60)
  }

  /** Some time is recorded exactly when the timer stands below where it
      started, and a minute begun counts as a whole one. */
  lemma ActualMinutesPositive(originalTime: int, timeLeft: int)
    ensures ActualMinutes(originalTime, timeLeft) > 0 <==> timeLeft < originalTime
    ensures timeLeft < originalTime ==>
              (ActualMinutes(originalTime, timeLeft) - 1) * 60 < originalTime - timeLeft
              <= ActualMinutes(originalTime, timeLeft) * 60
  {
  }

  /** `timeLeft > 0 && timeLeft < originalTime * 0.8`. */
  predicate NeedsConfirmation(timeLeft: int, originalTime: int)
  {
    timeLeft > 0 && (timeLeft as real) < (originalTime as real) * 0.8
  }

  /** Stopping asks first exactly when the timer is still running down
      and less than four fifths of the planned time are left. */
  lemma NeedsConfirmationExactly(timeLeft: int, originalTime: int)
    ensures NeedsConfirmation(timeLeft, originalTime) <==> 0 < timeLeft && 5 * timeLeft < 4 * originalTime
  {
  }

  /** `parseInt(customMinutes)` when it is a whole number from 1 to 120. */
  function CustomMinutes(text: string): (r: Option<int>)
    ensures r.Some? <==> ParseInt(text).Some? && 1 <= ParseInt(text).value <= 120
    ensures r.Some? ==> r.value == ParseInt(text).value
  {
    match ParseInt(text)
    case Some(m) => if m != 0 && m > 0 && m <= 120 then Some(m) else None
    case None => None
  }

  /** What `onComplete` receives. */
  datatype Completion = Completion(rating: Types.Rating, notes: string, actualMinutes: int)

  class FocusTimer {
    const originalTime: int
    var timeLeft: int
    var isActive: bool
    var isPaused: bool
    var notes: string
    var customMinutes: string
    var showCustomInput: bool
    var sessionId: Option<string>
    var showStopConfirm: bool
    var pausedAt: Option<Types.Millis>

    /** The time left never drops below zero. */
    predicate Valid()
      reads this
    {
      timeLeft >= 0
    }

    /** Both the time left and the original time start at the estimate. */
    constructor(estimatedMinutes: int)
      ensures originalTime == estimatedMinutes * 60 && timeLeft == originalTime
      ensures !isActive && !isPaused && sessionId.None? && pausedAt.None? && !showStopConfirm
      ensures notes == "" && customMinutes == "" && !showCustomInput
      ensures estimatedMinutes >= 0 ==> Valid()
    {
      originalTime := estimatedMinutes * 60;
      timeLeft := estimatedMinutes * 60;
      isActive := false;
      isPaused := false;
      notes := "";
      customMinutes := "";
      showCustomInput := false;
      sessionId := None;
      showStopConfirm := false;
      pausedAt := None;
    }

    /** The interval under the running timer: one second off while active,
        unpaused and with time left; the last second stops the timer. */
    method Tick()
      modifies this
      ensures old(isActive && !isPaused && timeLeft > 0) ==>
                timeLeft == TickValue(old(timeLeft)) && isActive == (old(timeLeft) > 1)
      ensures !old(isActive && !isPaused && timeLeft > 0) ==> timeLeft == old(timeLeft) && isActive == old(isActive)
      ensures isPaused == old(isPaused) && sessionId == old(sessionId) && pausedAt == old(pausedAt)
      ensures notes == old(notes) && customMinutes == old(customMinutes) && showCustomInput == old(showCustomInput)
      ensures showStopConfirm == old(showStopConfirm)
      ensures old(Valid()) ==> Valid()
    {
      if isActive && !isPaused && timeLeft > 0 {
        if timeLeft <= 1 {
          isActive := false;
          timeLeft := 0;
        } else {
          timeLeft := timeLeft - 1;
        }
      }
    }

    /** `handleStart`: a session id is made only when there is none, so a
        restart after a pause keeps it. */
    method Start(now: Types.Millis)
      modifies this
      ensures old(sessionId).None? ==> sessionId == Some("session_" + IntToString(now))
      ensures old(sessionId).Some? ==> sessionId == old(sessionId)
      ensures isActive && !isPaused
      ensures timeLeft == old(timeLeft) && pausedAt == old(pausedAt) && showStopConfirm == old(showStopConfirm)
      ensures notes == old(notes) && customMinutes == old(customMinutes) && showCustomInput == old(showCustomInput)
    {
      if sessionId.None? {
        sessionId := Some("session_" + IntToString(now));
      }
      isActive := true;
      isPaused := false;
    }

    /** `handlePause`: pausing records when, resuming forgets it. */
    method Pause(now: Types.Millis)
      modifies this
      ensures isPaused == !old(isPaused)
      ensures isPaused ==> pausedAt == Some(now)
      ensures !isPaused ==> pausedAt.None?
      ensures timeLeft == old(timeLeft) && isActive == old(isActive) && sessionId == old(sessionId)
      ensures showStopConfirm == old(showStopConfirm)
      ensures notes == old(notes) && customMinutes == old(customMinutes) && showCustomInput == old(showCustomInput)
    {
      if !isPaused {
        pausedAt := Some(now);
      } else {
        pausedAt := None;
      }
      isPaused := !isPaused;
    }

    /** `handleReset`: back to the original time, stopped, with no session
        and no pause time. */
    method Reset()
      modifies this
      ensures !isActive && !isPaused && timeLeft == originalTime
      ensures sessionId.None? && pausedAt.None?
      ensures showStopConfirm == old(showStopConfirm)
      ensures notes == old(notes) && customMinutes == old(customMinutes) && showCustomInput == old(showCustomInput)
    {
      isActive := false;
      isPaused := false;
      timeLeft := originalTime;
      sessionId := None;
      pausedAt := None;
    }

    /** `confirmStop`: the session is saved as 'Good' with the minutes
        spent, but only when that is at least one minute; the question is
        closed either way. */
    method ConfirmStop() returns (saved: Option<Completion>)
      modifies this
      ensures ActualMinutes(originalTime, old(timeLeft)) > 0 ==>
                saved == Some(Completion(Types.Good, old(notes), ActualMinutes(originalTime, old(timeLeft))))
                && !isActive && !isPaused && pausedAt.None?
      ensures ActualMinutes(originalTime, old(timeLeft)) <= 0 ==>
                saved.None? && isActive == old(isActive) && isPaused == old(isPaused) && pausedAt == old(pausedAt)
      ensures !showStopConfirm
      ensures timeLeft == old(timeLeft) && sessionId == old(sessionId)
      ensures notes == old(notes) && customMinutes == old(customMinutes) && showCustomInput == old(showCustomInput)
    {
      var actualMinutes := CeilDiv(originalTime - timeLeft, 60);
      if actualMinutes > 0 {
        isActive := false;
        isPaused := false;
        pausedAt := None;
        saved := Some(Completion(Types.Good, notes, actualMinutes));
      } else {
        saved := None;
      }
      showStopConfirm := false;
    }

    /** `handleStop`: ask first while less than four fifths of the time are
        left and some is left; otherwise save at once. */
    method Stop() returns (saved: Option<Completion>)
      modifies this
      ensures NeedsConfirmation(old(timeLeft), originalTime) ==>
                saved.None? && showStopConfirm && isActive == old(isActive) && isPaused == old(isPaused)
                && pausedAt == old(pausedAt)
      ensures !NeedsConfirmation(old(timeLeft), originalTime) ==> !showStopConfirm
      ensures !NeedsConfirmation(old(timeLeft), originalTime) && ActualMinutes(originalTime, old(timeLeft)) > 0 ==>
                saved == Some(Completion(Types.Good, old(notes), ActualMinutes(originalTime, old(timeLeft))))
                && !isActive && !isPaused && pausedAt.None?
      ensures !NeedsConfirmation(old(timeLeft), originalTime) && ActualMinutes(originalTime, old(timeLeft)) <= 0 ==>
                saved.None? && isActive == old(isActive) && isPaused == old(isPaused) && pausedAt == old(pausedAt)
      ensures timeLeft == old(timeLeft) && sessionId == old(sessionId)
      ensures notes == old(notes) && customMinutes == old(customMinutes) && showCustomInput == old(showCustomInput)
    {
      if timeLeft > 0 && (timeLeft as real) < (originalTime as real) * 0.8 {
        showStopConfirm := true;
        saved := None;
      } else {
        saved := ConfirmStop();
      }
    }

    /** Typing into the notes box. */
    method EditNotes(text: string)
      modifies this
      ensures notes == text
      ensures timeLeft == old(timeLeft) && isActive == old(isActive) && isPaused == old(isPaused)
      ensures sessionId == old(sessionId) && pausedAt == old(pausedAt) && showStopConfirm == old(showStopConfirm)
      ensures customMinutes == old(customMinutes) && showCustomInput == old(showCustomInput)
    {
      notes := text;
    }

    /** Typing into the extra-minutes box. */
    method EditCustomMinutes(text: string)
      modifies this
      ensures customMinutes == text
      ensures timeLeft == old(timeLeft) && isActive == old(isActive) && isPaused == old(isPaused)
      ensures sessionId == old(sessionId) && pausedAt == old(pausedAt) && showStopConfirm == old(showStopConfirm)
      ensures notes == old(notes) && showCustomInput == old(showCustomInput)
    {
      customMinutes := text;
    }

    /** The "+ Time" button shows the extra-minutes box, its Cancel button
        hides it; what was typed stays. */
    method ShowCustomInput(show: bool)
      modifies this
      ensures showCustomInput == show && customMinutes == old(customMinutes)
      ensures timeLeft == old(timeLeft) && isActive == old(isActive) && isPaused == old(isPaused)
      ensures sessionId == old(sessionId) && pausedAt == old(pausedAt) && showStopConfirm == old(showStopConfirm)
      ensures notes == old(notes)
    {
      showCustomInput := show;
    }

    /** "Pause Instead" in the early-stop dialog: the dialog closes and
        `handlePause` runs, which toggles, so a timer that was already
        paused resumes. */
    method PauseInstead(now: Types.Millis)
      modifies this
      ensures !showStopConfirm
      ensures isPaused == !old(isPaused)
      ensures isPaused ==> pausedAt == Some(now)
      ensures !isPaused ==> pausedAt.None?
      ensures timeLeft == old(timeLeft) && isActive == old(isActive) && sessionId == old(sessionId)
      ensures notes == old(notes) && customMinutes == old(customMinutes) && showCustomInput == old(showCustomInput)
    {
      showStopConfirm := false;
      Pause(now);
    }

    /** `handleAddCustomTime`: a whole number of minutes from 1 to 120 is
        added to the time left and the box is cleared and hidden; anything
        else changes nothing. */
    method AddCustomTime() returns (added: Option<int>)
      modifies this
      ensures added == CustomMinutes(old(customMinutes))
      ensures added.Some? ==> timeLeft == old(timeLeft) + added.value * 60
                              && customMinutes == "" && !showCustomInput
      ensures added.None? ==> timeLeft == old(timeLeft) && customMinutes == old(customMinutes)
                              && showCustomInput == old(showCustomInput)
      ensures isActive == old(isActive) && isPaused == old(isPaused) && sessionId == old(sessionId)
      ensures pausedAt == old(pausedAt) && showStopConfirm == old(showStopConfirm) && notes == old(notes)
      ensures old(Valid()) ==> Valid()
    {
      added := CustomMinutes(customMinutes);
      if added.Some? {
        timeLeft := timeLeft + added.value * 60;
        customMinutes := "";
        showCustomInput := false;
      }
    }

    /** `handleFinish`: the chosen rating and the minutes spent go to
        `onComplete` whatever their value, and the timer stops. */
    method Finish(rating: Types.Rating) returns (saved: Completion)
      modifies this
      ensures saved == Completion(rating, old(notes), ActualMinutes(originalTime, old(timeLeft)))
      ensures !isActive && !isPaused && pausedAt.None?
      ensures timeLeft == old(timeLeft) && sessionId == old(sessionId) && showStopConfirm == old(showStopConfirm)
      ensures notes == old(notes) && customMinutes == old(customMinutes) && showCustomInput == old(showCustomInput)
    {
      var actualMinutes := CeilDiv(originalTime - timeLeft, 60);
      isActive := false;
      isPaused := false;
      pausedAt := None;
      saved := Completion(rating, notes, actualMinutes);
    }
  }

  /** Extra minutes added before any time has run make the minutes that
      Finish reports negative: 30 minutes planned, 10 added, finished at
      once gives -10. Stop in the same state records nothing. */
  lemma FinishAfterExtensionIsNegative()
    ensures ActualMinutes(30 * 60, 30 * 60 + 10 * 60) == -10
    ensures !NeedsConfirmation(30 * 60 + 10 * 60, 30 * 60)
  {
  }
}
