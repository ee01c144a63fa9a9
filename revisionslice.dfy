/** The revision store slice: the topic list, the selected topic and the
    focus-mode record, with the reducers and the settled-request cases for
    loading and adding topics. */
module RevisionStore {
  import opened Wrappers
  import opened Text
  import opened Types

  /** The `focusMode` record; `startTime` is the clock reading passed in. */
  datatype FocusState = FocusState(
    isActive: bool,
    currentTopicId: Option<string>,
    startTime: Option<Millis>,
    duration: int)

  const Idle := FocusState(false, None, None, 0)

  /** A focus record is consistent when it is active exactly when it has a
      topic and a start time. */
  predicate Consistent(f: FocusState)
  {
    f.isActive <==> (f.currentTopicId.Some? && f.startTime.Some?)
  }

  /** Starting and ending focus mode always give a consistent record,
      whatever was there before; updating the duration keeps consistency. */
  lemma FocusRecords(id: string, now: Millis, f: FocusState, d: int)
    ensures Consistent(FocusState(true, Some(id), Some(now), 0)) && Consistent(Idle)
    ensures Consistent(f) ==> Consistent(f.(duration := d))
    ensures Idle.currentTopicId.None? && Idle.duration == 0
  {
  }

  class RevisionSlice {
    var topics: seq<Topic>
    var schedules: seq<RevisionSchedule>
    var sessions: seq<RevisionSession>
    var loading: bool
    var error: Option<string>
    var selectedTopic: Option<Topic>
    var focusMode: FocusState

    predicate Valid()
      reads this
    {
      Consistent(focusMode)
    }

    /** `initialState`. */
    constructor()
      ensures topics == [] && schedules == [] && sessions == []
      ensures !loading && error.None? && selectedTopic.None? && focusMode == Idle
      ensures Valid()
    {
      topics := [];
      schedules := [];
      sessions := [];
      loading := false;
      error := None;
      selectedTopic := None;
      focusMode := Idle;
    }

    /** `setSelectedTopic`; `None` clears the selection. */
    method SetSelectedTopic(t: Option<Topic>)
      requires Valid()
      modifies this
      ensures selectedTopic == t && Valid()
      ensures topics == old(topics) && schedules == old(schedules) && sessions == old(sessions)
      ensures loading == old(loading) && error == old(error) && focusMode == old(focusMode)
    {
      selectedTopic := t;
    }

    /** `startFocusMode(topicId)` at the clock reading `now`. */
    method StartFocusMode(topicId: string, now: Millis)
      requires Valid()
      modifies this
      ensures focusMode == FocusState(true, Some(topicId), Some(now), 0) && Valid()
      ensures topics == old(topics) && schedules == old(schedules) && sessions == old(sessions)
      ensures loading == old(loading) && error == old(error) && selectedTopic == old(selectedTopic)
    {
      focusMode := FocusState(true, Some(topicId), Some(now), 0);
    }

    /** `endFocusMode`: back to the idle record. */
    method EndFocusMode()
      requires Valid()
      modifies this
      ensures focusMode == Idle && Valid()
      ensures topics == old(topics) && schedules == old(schedules) && sessions == old(sessions)
      ensures loading == old(loading) && error == old(error) && selectedTopic == old(selectedTopic)
    {
      focusMode := Idle;
    }

    /** `updateFocusDuration`: only the duration changes, active or not. */
    method UpdateFocusDuration(d: int)
      requires Valid()
      modifies this
      ensures focusMode == old(focusMode).(duration := d) && Valid()
      ensures topics == old(topics) && schedules == old(schedules) && sessions == old(sessions)
      ensures loading == old(loading) && error == old(error) && selectedTopic == old(selectedTopic)
    {
      focusMode := focusMode.(duration := d);
    }

    /** `clearError`. */
    method ClearError()
      requires Valid()
      modifies this
      ensures error.None? && Valid()
      ensures topics == old(topics) && schedules == old(schedules) && sessions == old(sessions)
      ensures loading == old(loading) && selectedTopic == old(selectedTopic) && focusMode == old(focusMode)
    {
      error := None;
    }

    /** `fetchTopics.pending` and `addTopic.pending`, which do the same. */
    method RequestPending()
      requires Valid()
      modifies this
      ensures loading && error.None? && Valid()
      ensures topics == old(topics) && schedules == old(schedules) && sessions == old(sessions)
      ensures selectedTopic == old(selectedTopic) && focusMode == old(focusMode)
    {
      loading := true;
      error := None;
    }

    /** `fetchTopics.fulfilled`: the payload replaces the list. */
    method FetchTopicsFulfilled(payload: seq<Topic>)
      requires Valid()
      modifies this
      ensures !loading && topics == payload && Valid()
      ensures schedules == old(schedules) && sessions == old(sessions)
      ensures error == old(error) && selectedTopic == old(selectedTopic) && focusMode == old(focusMode)
    {
      loading := false;
      topics := payload;
    }

    /** `fetchTopics.rejected`: the error's message, or a default one. */
    method FetchTopicsRejected(message: Option<string>)
      requires Valid()
      modifies this
      ensures !loading && error == Some(MessageOr(message, "Failed to fetch topics")) && Valid()
      ensures topics == old(topics) && schedules == old(schedules) && sessions == old(sessions)
      ensures selectedTopic == old(selectedTopic) && focusMode == old(focusMode)
    {
      loading := false;
      error := Some(MessageOr(message, "Failed to fetch topics"));
    }

    /** `addTopic.fulfilled`: the created topic goes at the end. */
    method AddTopicFulfilled(payload: Topic)
      requires Valid()
      modifies this
      ensures !loading && topics == old(topics) + [payload] && Valid()
      ensures schedules == old(schedules) && sessions == old(sessions)
      ensures error == old(error) && selectedTopic == old(selectedTopic) && focusMode == old(focusMode)
    {
      loading := false;
      topics := topics + [payload];
    }

    /** `addTopic.rejected`. */
    method AddTopicRejected(message: Option<string>)
      requires Valid()
      modifies this
      ensures !loading && error == Some(MessageOr(message, "Failed to add topic")) && Valid()
      ensures topics == old(topics) && schedules == old(schedules) && sessions == old(sessions)
      ensures selectedTopic == old(selectedTopic) && focusMode == old(focusMode)
    {
      loading := false;
      error := Some(MessageOr(message, "Failed to add topic"));
    }
  }
}
