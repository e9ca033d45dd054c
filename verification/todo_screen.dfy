/**
  The controller of the to-do screen as a pure state machine: each handler
  of the screen is a function from the screen's state to its next state.
  The storage slot and the notification requests issued so far are part of
  the state, so that every handler's effect on them can be stated.
 */
module TodoScreen {
  import opened TodoTypes
  import opened TaskStore
  import JsText

  /** The screen's state: the task list, the draft text and reminder time,
      whether the date picker is shown, the storage slot, and the reminders
      requested from the notification service, oldest first. */
  datatype Screen = Screen(
    tasks: seq<Task>,
    draftText: string,
    draftDate: Instant,
    pickerVisible: bool,
    slot: Slot,
    reminders: seq<Reminder>)

  /** The state right after the screen mounts, before loading finishes:
      no tasks, an empty draft, the reminder time set to `now`, the picker
      hidden. */
  function Mount(slot: Slot, now: Instant): (r: Screen)
    ensures r.tasks == [] && r.draftText == [] && r.draftDate == now
    ensures !r.pickerVisible && r.reminders == []
    ensures r.slot == slot
  {
    Screen([], "", now, false, slot, [])
  }

  /** The load step; `readOk` says whether reading the storage succeeds.
      The list is replaced only when the read succeeds and the slot holds
      a list. A failed read or an unparsable value is logged, and a missing
      key is skipped; either way the whole state is left as it was. */
  function Load(s: Screen, readOk: bool): (r: Screen)
    ensures readOk && s.slot.Holds? ==> r == s.(tasks := s.slot.tasks)
    ensures !(readOk && s.slot.Holds?) ==> r == s
  {
    if !readOk then s
    else
      match Read(s.slot)
      case Some(stored) => s.(tasks := stored)
      case None => s
  }

  /** Mounting followed by the completed load: after a successful read the
      list shown is whatever the slot yields; otherwise it is the initial
      empty list, whatever the slot holds. */
  function Open(slot: Slot, now: Instant, readOk: bool): (r: Screen)
    ensures readOk ==> r.tasks == Shown(slot)
    ensures !(readOk && slot.Holds?) ==> r.tasks == []
    ensures r.draftText == [] && r.draftDate == now && !r.pickerVisible
    ensures r.slot == slot && r.reminders == []
  {
    Load(Mount(slot, now), readOk)
  }

  /** The reminder requested for a task typed as `text` due at `date`. */
  function ReminderFor(text: string, date: Instant): (r: Reminder)
    ensures r.title == ReminderTitle && r.trigger == date && r.sound
    ensures |r.body| == |ReminderBodyPrefix| + |text|
    ensures r.body[..|ReminderBodyPrefix|] == ReminderBodyPrefix
    ensures r.body[|ReminderBodyPrefix|..] == text
  {
    Reminder(ReminderTitle, ReminderBodyPrefix + text, true, date)
  }

  /** The add button. A draft that trims to nothing changes nothing. Any
      other draft is appended, exactly as typed, with the draft time
      rendered by `format`; the draft text is cleared but the draft time
      is kept; the whole new list is saved; and one reminder for the draft
      text at the draft time is requested. */
  function AddTask(s: Screen, format: Instant -> string, writeOk: bool): (r: Screen)
    ensures JsText.IsBlank(s.draftText) ==> r == s
    ensures r.tasks == s.tasks <==> JsText.IsBlank(s.draftText)
    ensures !JsText.IsBlank(s.draftText) ==>
      && |r.tasks| == |s.tasks| + 1
      && r.tasks[..|s.tasks|] == s.tasks
      && r.tasks[|s.tasks|].text == s.draftText
      && r.tasks[|s.tasks|].date == format(s.draftDate)
    ensures !JsText.IsBlank(s.draftText) ==>
      && r.draftText == []
      && r.draftDate == s.draftDate
      && r.pickerVisible == s.pickerVisible
    ensures !JsText.IsBlank(s.draftText) ==>
      if writeOk then Read(r.slot) == Some(r.tasks) else r.slot == s.slot
    ensures !JsText.IsBlank(s.draftText) ==>
      && |r.reminders| == |s.reminders| + 1
      && r.reminders[..|s.reminders|] == s.reminders
      && r.reminders[|s.reminders|] == ReminderFor(s.draftText, s.draftDate)
  {
    if JsText.Trim(s.draftText) == [] then s
    else
      var updated := s.tasks + [Task(s.draftText, format(s.draftDate))];
      s.(tasks := updated,
         draftText := "",
         slot := Save(s.slot, updated, writeOk),
         reminders := s.reminders + [ReminderFor(s.draftText, s.draftDate)])
  }

  /** The position filter of the delete handler: keeps every element whose
      position differs from `index`, in the original order. */
  function FilterOut<T>(xs: seq<T>, index: int): (r: seq<T>)
    ensures |r| == if 0 <= index < |xs| then |xs| - 1 else |xs|
    decreases |xs|
  {
    if xs == [] then []
    else (if index == 0 then [] else [xs[0]]) + FilterOut(xs[1..], index - 1)
  }

  /** Filtering out a position removes exactly that element, and filtering
      out a position outside the list removes nothing. */
  lemma {:induction false} FilterOutSplices<T>(xs: seq<T>, index: int)
    ensures 0 <= index < |xs| ==> FilterOut(xs, index) == xs[..index] + xs[index + 1..]
    ensures !(0 <= index < |xs|) ==> FilterOut(xs, index) == xs
    decreases |xs|
  {
    if xs != [] {
      FilterOutSplices(xs[1..], index - 1);
      if index == 0 {
        assert xs[1..] == xs[..0] + xs[1..];
      } else if 0 < index < |xs| {
        assert xs[..index] == [xs[0]] + xs[1..][..index - 1];
        assert xs[index + 1..] == xs[1..][index..];
      } else {
        assert xs == [xs[0]] + xs[1..];
      }
    }
  }

  /** The delete button of the task at `index`. The task at that position
      is removed and the rest keep their order; a position outside the list
      matches nothing. Either way the resulting list is saved; drafts,
      picker and requested reminders are untouched. */
  function RemoveTask(s: Screen, index: int, writeOk: bool): (r: Screen)
    ensures 0 <= index < |s.tasks| ==>
      && |r.tasks| == |s.tasks| - 1
      && r.tasks == s.tasks[..index] + s.tasks[index + 1..]
    ensures !(0 <= index < |s.tasks|) ==> r.tasks == s.tasks
    ensures if writeOk then Read(r.slot) == Some(r.tasks) else r.slot == s.slot
    ensures r.draftText == s.draftText && r.draftDate == s.draftDate
    ensures r.pickerVisible == s.pickerVisible && r.reminders == s.reminders
  {
    var updated := FilterOut(s.tasks, index);
    FilterOutSplices(s.tasks, index);
    s.(tasks := updated, slot := Save(s.slot, updated, writeOk))
  }

  /** Typing in the text field replaces the draft text. */
  function EditDraft(s: Screen, text: string): (r: Screen)
    ensures r.draftText == text
    ensures r.tasks == s.tasks && r.slot == s.slot && r.draftDate == s.draftDate
    ensures r.pickerVisible == s.pickerVisible && r.reminders == s.reminders
  {
    s.(draftText := text)
  }

  /** Tapping the reminder button shows the date picker. */
  function ShowPicker(s: Screen): (r: Screen)
    ensures r.pickerVisible
    ensures r.tasks == s.tasks && r.slot == s.slot && r.draftDate == s.draftDate
    ensures r.draftText == s.draftText && r.reminders == s.reminders
  {
    s.(pickerVisible := true)
  }

  /** The picker's change handler: the picker is always hidden; the draft
      time becomes the selected one, and is kept when nothing was selected. */
  function PickerChange(s: Screen, selected: Option<Instant>): (r: Screen)
    ensures !r.pickerVisible
    ensures selected.Some? ==> r.draftDate == selected.value
    ensures selected.None? ==> r.draftDate == s.draftDate
    ensures r.tasks == s.tasks && r.slot == s.slot && r.draftText == s.draftText
    ensures r.reminders == s.reminders
  {
    var hidden := s.(pickerVisible := false);
    match selected
    case Some(d) => hidden.(draftDate := d)
    case None => hidden
  }
}
