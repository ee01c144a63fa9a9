/** The full-page focus mode: a count-up timer of elapsed seconds with a
    session that the mock API opens, and the recall rating that closes it. */
module FocusPage {
  import opened Wrappers
  import Countdown
  import Types

  /** The rating buttons are shown only while the timer is active and more
      than a minute has been counted. */
  predicate RatingsShown(isActive: bool, seconds: int)
  {
    isActive && seconds > 60
  }

  /** When the ratings are shown, the clock reads at least one minute. */
  lemma RatingsShownClock(isActive: bool, seconds: nat)
    requires RatingsShown(isActive, seconds)
    ensures seconds / 60 >= 1
    ensures Countdown.FormatTime(seconds) != Countdown.FormatTime(0)
  {
    Countdown.FormatTimeRoundTrip(seconds);
    Countdown.FormatTimeRoundTrip(0);
  }

  /** What `finishTimer` is called with. */
  datatype FinishRequest = FinishRequest(sessionId: string, actualSeconds: int, rating: Types.Rating, notes: string)

  class FocusMode {
    var isActive: bool
    var isPaused: bool
    var seconds: int
    var notes: string
    var sessionId: Option<string>

    constructor()
      ensures !isActive && !isPaused && seconds == 0 && notes == "" && sessionId.None?
    {
      isActive := false;
      isPaused := false;
      seconds := 0;
      notes := "";
      sessionId := None;
    }

    /** The interval: one second more while active and unpaused. */
    method Tick()
      modifies this
      ensures old(isActive && !isPaused) ==> seconds == old(seconds) + 1
      ensures !old(isActive && !isPaused) ==> seconds == old(seconds)
      ensures isActive == old(isActive) && isPaused == old(isPaused)
      ensures sessionId == old(sessionId) && notes == old(notes)
    {
      if isActive && !isPaused {
        seconds := seconds + 1;
      }
    }

    /** `handleStart`: the timer runs only once `startTimer` has answered
        with a session id; a failed call (`None`) changes nothing. */
    method Start(started: Option<string>)
      modifies this
      ensures started.Some? ==> sessionId == started && isActive && !isPaused
      ensures started.None? ==> sessionId == old(sessionId) && isActive == old(isActive) && isPaused == old(isPaused)
      ensures seconds == old(seconds) && notes == old(notes)
    {
      if started.Some? {
        sessionId := started;
        isActive := true;
        isPaused := false;
      }
    }

    /** The interval firing `k` times: a running, unpaused clock counts up
        by exactly `k` seconds; a stopped or paused one does not move. */
    method RunFor(k: nat)
      modifies this
      ensures old(isActive && !isPaused) ==> seconds == old(seconds) + k
      ensures !old(isActive && !isPaused) ==> seconds == old(seconds)
      ensures isActive == old(isActive) && isPaused == old(isPaused)
      ensures sessionId == old(sessionId) && notes == old(notes)
    {
      var i := 0;
      while i < k
        invariant 0 <= i <= k
        invariant isActive == old(isActive) && isPaused == old(isPaused)
        invariant sessionId == old(sessionId) && notes == old(notes)
        invariant isActive && !isPaused ==> seconds == old(seconds) + i
        invariant !(isActive && !isPaused) ==> seconds == old(seconds)
      {
        Tick();
        i := i + 1;
      }
    }

    /** `handlePause`: toggles the pause. */
    method Pause()
      modifies this
      ensures isPaused == !old(isPaused)
      ensures isActive == old(isActive) && seconds == old(seconds)
      ensures sessionId == old(sessionId) && notes == old(notes)
    {
      isPaused := !isPaused;
    }

    /** `handleReset`: stopped, unpaused, at zero, with no session. */
    method Reset()
      modifies this
      ensures !isActive && !isPaused && seconds == 0 && sessionId.None?
      ensures notes == old(notes)
    {
      isActive := false;
      isPaused := false;
      seconds := 0;
      sessionId := None;
    }

    /** `handleAddMinute`: sixty seconds more, running or not. */
    method AddMinute()
      modifies this
      ensures seconds == old(seconds) + 60
      ensures isActive == old(isActive) && isPaused == old(isPaused)
      ensures sessionId == old(sessionId) && notes == old(notes)
    {
      seconds := seconds + 60;
    }

    /** Typing into the notes box. */
    method EditNotes(text: string)
      modifies this
      ensures notes == text
      ensures isActive == old(isActive) && isPaused == old(isPaused)
      ensures seconds == old(seconds) && sessionId == old(sessionId)
    {
      notes := text;
    }

    /** `handleFinish`: without a session, or with an empty session id
        (which is falsy), nothing is sent; otherwise the elapsed seconds,
        the rating and the notes go to `finishTimer`. The page state
        itself is not changed. */
    method Finish(rating: Types.Rating) returns (request: Option<FinishRequest>)
      ensures sessionId.None? || sessionId.value == "" ==> request.None?
      ensures sessionId.Some? && sessionId.value != "" ==>
                request == Some(FinishRequest(sessionId.value, seconds, rating, notes))
    {
      if sessionId.None? || sessionId.value == "" {
        return None;
      }
      request := Some(FinishRequest(sessionId.value, seconds, rating, notes));
    }
  }
}
