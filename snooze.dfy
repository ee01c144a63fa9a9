/** The floating "snooze all" button: the number of days comes from a
    quick option or from the custom box, only 1 to 30 days are accepted,
    and the choice goes to `onSnooze` together with the cascade switch. */
module SnoozeAll {
  import opened Wrappers
  import opened Text
  import Types

  /** The quick options, in days. */
  const QuickOptions: seq<int> := [1, 3, 7]

  /** `selectedDays || parseInt(customDays)`. */
  function ChosenDays(selected: Option<int>, custom: string): (r: Option<int>)
    ensures selected.Some? && selected.value != 0 ==> r == selected
    ensures selected.None? || selected == Some(0) ==> r == ParseInt(custom)
  {
    if selected.Some? && selected.value != 0 then selected else ParseInt(custom)
  }

  /** The days `handleSnooze` goes ahead with: a choice from 1 to 30. */
  function SnoozeDays(selected: Option<int>, custom: string): (r: Option<int>)
    ensures r.Some? <==> ChosenDays(selected, custom).Some? && 1 <= ChosenDays(selected, custom).value <= 30
    ensures r.Some? ==> r == ChosenDays(selected, custom)
  {
    match ChosenDays(selected, custom)
    case Some(d) => if d == 0 || d < 1 || d > 30 then None else Some(d)
    case None => None
  }

  /** Every quick option is accepted, whatever the custom box says. */
  lemma QuickOptionsAccepted(k: nat, custom: string)
    requires k < |QuickOptions|
    ensures SnoozeDays(Some(QuickOptions[k]), custom) == Some(QuickOptions[k])
  {
  }

  /** Without a selection, the custom box decides alone. */
  lemma CustomDecides(custom: string)
    ensures SnoozeDays(None, custom).Some? <==> ParseInt(custom).Some? && 1 <= ParseInt(custom).value <= 30
  {
  }

  /** `!selectedDays && !customDays` disables the Snooze button. */
  predicate SnoozeEnabled(selected: Option<int>, custom: string)
  {
    (selected.Some? && selected.value != 0) || custom != ""
  }

  /** An enabled button can still be refused (a custom entry of 45), and
      an accepted snooze always had the button enabled. */
  lemma EnabledIsNotAccepted()
    ensures SnoozeEnabled(None, "45") && SnoozeDays(None, "45").None?
    ensures forall s: Option<int>, c: string :: SnoozeDays(s, c).Some? ==> SnoozeEnabled(s, c)
  {
    ParseIntFortyFive();
    forall s: Option<int>, c: string | SnoozeDays(s, c).Some? ensures SnoozeEnabled(s, c) {
      if !(s.Some? && s.value != 0) && c == "" {
        ParseIntEmpty();
      }
    }
  }

  lemma ParseIntEmpty()
    ensures ParseInt("") == None
  {
    assert TrimStart("") == "";
    assert DigitPrefix("", 10) == "";
  }

  /** The resume date in the preview: `now + (days || 0)` whole days. */
  function PreviewResume(now: Types.Millis, selected: Option<int>, custom: string): (r: Types.Millis)
    ensures ChosenDays(selected, custom).Some? ==> r == now + ChosenDays(selected, custom).value * Types.DayMs
    ensures ChosenDays(selected, custom).None? ==> r == now
  {
    now + IntOr(ChosenDays(selected, custom), 0) * Types.DayMs
  }

  /** What `onSnooze` receives. */
  datatype SnoozeRequest = SnoozeRequest(days: int, cascade: bool)

  /** Nothing is drawn while no revision is pending. */
  predicate Renders(pendingCount: int)
  {
    pendingCount != 0
  }

  class SnoozeButton {
    var showDialog: bool
    var selectedDays: Option<int>
    var customDays: string
    var cascadeEnabled: bool

    /** At most one of the two sources of the day count is set. */
    predicate Valid()
      reads this
    {
      !(selectedDays.Some? && customDays != "")
    }

    /** Closed, nothing chosen, cascade on. */
    constructor()
      ensures !showDialog && selectedDays.None? && customDays == "" && cascadeEnabled
      ensures Valid()
    {
      showDialog := false;
      selectedDays := None;
      customDays := "";
      cascadeEnabled := true;
    }

    /** The floating button opens the dialog. */
    method Open()
      modifies this
      ensures showDialog
      ensures selectedDays == old(selectedDays) && customDays == old(customDays) && cascadeEnabled == old(cascadeEnabled)
    {
      showDialog := true;
    }

    /** Choosing a quick option empties the custom box. */
    method ChooseQuickOption(k: nat)
      requires k < |QuickOptions|
      modifies this
      ensures selectedDays == Some(QuickOptions[k]) && customDays == ""
      ensures showDialog == old(showDialog) && cascadeEnabled == old(cascadeEnabled)
      ensures Valid()
    {
      selectedDays := Some(QuickOptions[k]);
      customDays := "";
    }

    /** Typing in the custom box drops the quick option. */
    method TypeCustomDays(text: string)
      modifies this
      ensures customDays == text && selectedDays.None?
      ensures showDialog == old(showDialog) && cascadeEnabled == old(cascadeEnabled)
      ensures Valid()
    {
      customDays := text;
      selectedDays := None;
    }

    /** The cascade switch. */
    method SetCascade(on: bool)
      modifies this
      ensures cascadeEnabled == on
      ensures showDialog == old(showDialog) && selectedDays == old(selectedDays) && customDays == old(customDays)
    {
      cascadeEnabled := on;
    }

    /** `handleClose`: the dialog closes and the choice is forgotten; the
        cascade switch keeps its position. */
    method Close()
      modifies this
      ensures !showDialog && selectedDays.None? && customDays == ""
      ensures cascadeEnabled == old(cascadeEnabled)
      ensures Valid()
    {
      showDialog := false;
      selectedDays := None;
      customDays := "";
    }

    /** `handleSnooze`: refused, with nothing changed, unless the chosen
        days are from 1 to 30; otherwise the days and the cascade switch are
        passed on and the dialog closes as on Cancel. */
    method Snooze() returns (request: Option<SnoozeRequest>)
      modifies this
      ensures SnoozeDays(old(selectedDays), old(customDays)).None? ==>
                request.None? && showDialog == old(showDialog) && selectedDays == old(selectedDays)
                && customDays == old(customDays)
      ensures SnoozeDays(old(selectedDays), old(customDays)).Some? ==>
                request == Some(SnoozeRequest(SnoozeDays(old(selectedDays), old(customDays)).value, old(cascadeEnabled)))
                && !showDialog && selectedDays.None? && customDays == ""
      ensures cascadeEnabled == old(cascadeEnabled)
      ensures old(Valid()) ==> Valid()
    {
      var days := SnoozeDays(selectedDays, customDays);
      if days.None? {
        return None;
      }
      request := Some(SnoozeRequest(days.value, cascadeEnabled));
      showDialog := false;
      selectedDays := None;
      customDays := "";
    }
  }
}
