/** The settings dialog: the quick timer presets (kept sorted and free of
    repeats by the add and remove handlers) and the daily capacity field. */
module SettingsEditor {
  import opened Wrappers
  import opened Seqs
  import opened Text
  import Types
  import MockApi

  /** The largest preset the dialog accepts, in minutes. */
  const MaxPreset := 240

  /** The value `handleAddPreset` accepts from the text box: a whole
      number of minutes from 1 to 240 that is not yet a preset. */
  function PresetToAdd(text: string, presets: seq<int>): (r: Option<int>)
    ensures r.Some? <==> ParseInt(text).Some? && 1 <= ParseInt(text).value <= MaxPreset
                         && ParseInt(text).value !in presets
    ensures r.Some? ==> r.value == ParseInt(text).value
  {
    match ParseInt(text)
    case Some(m) => if m != 0 && m > 0 && m <= MaxPreset && m !in presets then Some(m) else None
    case None => None
  }

  /** `[...presets, m].sort((a, b) => a - b)`. */
  function AddPreset(presets: seq<int>, m: int): seq<int>
  {
    SortAsc(presets + [m])
  }

  function Unequal(p: int): int -> bool
  {
    x => x != p
  }

  /** `presets.filter(p => p !== preset)`. */
  function RemovePreset(presets: seq<int>, p: int): seq<int>
  {
    Filter(presets, Unequal(p))
  }

  /** Adding a new value to a sorted list without repeats gives a sorted
      list without repeats holding the old values and the new one. */
  lemma AddPresetKeepsOrder(presets: seq<int>, m: int)
    requires StrictlyAsc(presets) && m !in presets
    ensures StrictlyAsc(AddPreset(presets, m))
    ensures forall x :: x in AddPreset(presets, m) <==> x in presets || x == m
    ensures |AddPreset(presets, m)| == |presets| + 1
  {
    SortAscAddFresh(presets, m);
    SortAscFacts(presets + [m]);
    assert |multiset(AddPreset(presets, m))| == |multiset(presets + [m])|;
  }

  /** Removing deletes every copy of the value and keeps the rest, in
      order; a sorted list without repeats stays so. */
  lemma RemovePresetFacts(presets: seq<int>, p: int)
    ensures p !in RemovePreset(presets, p)
    ensures forall x :: x in RemovePreset(presets, p) <==> x in presets && x != p
    ensures StrictlyAsc(presets) ==> StrictlyAsc(RemovePreset(presets, p))
  {
    var r := RemovePreset(presets, p);
    FilterMembers(presets, Unequal(p));
    forall x ensures x in r <==> x in presets && x != p {
      if x in r {
        var i :| 0 <= i < |r| && r[i] == x;
      }
      if x in presets && x != p {
        var i :| 0 <= i < |presets| && presets[i] == x;
      }
    }
    if StrictlyAsc(presets) {
      FilterStrictlyAsc(presets, Unequal(p));
    }
  }

  /** Removing a preset just added restores the list. */
  lemma RemoveUndoesAdd(presets: seq<int>, m: int)
    requires StrictlyAsc(presets) && m !in presets
    ensures RemovePreset(AddPreset(presets, m), m) == presets
  {
    AddPresetKeepsOrder(presets, m);
    RemovePresetFacts(AddPreset(presets, m), m);
    StrictlyAscUnique(RemovePreset(AddPreset(presets, m), m), presets);
  }

  /** Adding back a preset just removed restores the list. */
  lemma AddUndoesRemove(presets: seq<int>, m: int)
    requires StrictlyAsc(presets) && m in presets
    ensures AddPreset(RemovePreset(presets, m), m) == presets
  {
    RemovePresetFacts(presets, m);
    AddPresetKeepsOrder(RemovePreset(presets, m), m);
    StrictlyAscUnique(AddPreset(RemovePreset(presets, m), m), presets);
  }

  /** `parseInt(value) || 45` for the capacity box. */
  function CapacityOf(text: string): (r: int)
    ensures ParseInt(text).None? || ParseInt(text) == Some(0) ==> r == 45
    ensures ParseInt(text).Some? && ParseInt(text).value != 0 ==> r == ParseInt(text).value
  {
    IntOr(ParseInt(text), 45)
  }

  class SettingsDialog {
    var settings: Types.UserSettings
    var newPreset: string

    /** The dialog opens on the same values `getSettings` defaults to. */
    constructor()
      ensures settings == MockApi.DefaultSettings && newPreset == ""
    {
      settings := MockApi.DefaultSettings;
      newPreset := "";
    }

    /** The presets are increasing with no value twice. */
    predicate Valid()
      reads this
    {
      StrictlyAsc(settings.timerQuickPresets)
    }

    /** Typing into the new-preset box. */
    method EditNewPreset(text: string)
      modifies this
      ensures newPreset == text && settings == old(settings)
    {
      newPreset := text;
    }

    /** `handleAddPreset`: an accepted value joins the sorted presets and
        the box is cleared; anything else changes nothing. */
    method AddPresetFromInput() returns (added: Option<int>)
      modifies this
      ensures added == PresetToAdd(old(newPreset), old(settings).timerQuickPresets)
      ensures added.Some? ==>
                settings == old(settings).(timerQuickPresets := AddPreset(old(settings).timerQuickPresets, added.value))
                && newPreset == ""
      ensures added.None? ==> settings == old(settings) && newPreset == old(newPreset)
      ensures old(Valid()) ==> Valid()
    {
      var minutes := ParseInt(newPreset);
      if minutes.Some? && minutes.value != 0 && minutes.value > 0 && minutes.value <= MaxPreset
         && minutes.value !in settings.timerQuickPresets {
        ghost var before := settings.timerQuickPresets;
        settings := settings.(timerQuickPresets := SortAsc(settings.timerQuickPresets + [minutes.value]));
        newPreset := "";
        added := Some(minutes.value);
        if StrictlyAsc(before) {
          AddPresetKeepsOrder(before, minutes.value);
        }
      } else {
        added := None;
      }
    }

    /** `handleRemovePreset`: every copy of the value goes. */
    method RemovePresetValue(preset: int)
      modifies this
      ensures settings == old(settings).(timerQuickPresets := RemovePreset(old(settings).timerQuickPresets, preset))
      ensures newPreset == old(newPreset)
      ensures old(Valid()) ==> Valid()
    {
      ghost var before := settings.timerQuickPresets;
      settings := settings.(timerQuickPresets := Filter(settings.timerQuickPresets, Unequal(preset)));
      RemovePresetFacts(before, preset);
    }

    /** Typing into the capacity box: an unparseable or zero entry falls
        back to 45 minutes. */
    method EditCapacity(text: string)
      modifies this
      ensures settings == old(settings).(dailyCapacityMinutes := CapacityOf(text))
      ensures newPreset == old(newPreset)
    {
      settings := settings.(dailyCapacityMinutes := IntOr(ParseInt(text), 45));
    }
  }

  /** The opening presets 15, 30, 45 and 60 are increasing. */
  lemma DefaultPresetsValid()
    ensures StrictlyAsc(MockApi.DefaultSettings.timerQuickPresets)
  {
  }
}
