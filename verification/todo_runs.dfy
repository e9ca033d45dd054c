/**
  Sequences of user events on the to-do screen, and what holds across them:
  the storage slot keeps agreeing with the list on screen, so a reload shows
  the same list; repeated adds append in call order; requested reminders are
  never withdrawn.
 */
module TodoRuns {
  import opened TodoTypes
  import opened TaskStore
  import opened TodoScreen
  import JsText

  /** One user interaction with the mounted screen. The flags say whether
      the storage write the handler issues succeeds. */
  datatype Event =
    | Typed(text: string)
    | AddPressed(writeOk: bool)
    | RemovePressed(index: int, writeOk: bool)
    | ReminderPressed
    | PickerChanged(selected: Option<Instant>)

  predicate WriteOk(e: Event) {
    match e
    case AddPressed(ok) => ok
    case RemovePressed(_, ok) => ok
    case _ => true
  }

  predicate WritesSucceed(events: seq<Event>) {
    forall k :: 0 <= k < |events| ==> WriteOk(events[k])
  }

  /** The slot agrees with the screen: reloading it would show exactly the
      list now on screen. */
  predicate Agrees(s: Screen) {
    Shown(s.slot) == s.tasks
  }

  /** One event. The picker's change handler exists only while the picker
      is shown, so a picker event on a hidden picker does nothing. Every
      event adds at most one task, never withdraws a requested reminder,
      and keeps the slot in agreement when its write succeeds. */
  function Step(s: Screen, e: Event, format: Instant -> string): (r: Screen)
    ensures |r.tasks| <= |s.tasks| + 1
    ensures |s.reminders| <= |r.reminders| && r.reminders[..|s.reminders|] == s.reminders
    ensures Agrees(s) && WriteOk(e) ==> Agrees(r)
    ensures e.PickerChanged? && !s.pickerVisible ==> r == s
  {
    match e
    case Typed(text) => EditDraft(s, text)
    case AddPressed(ok) => AddTask(s, format, ok)
    case RemovePressed(index, ok) => RemoveTask(s, index, ok)
    case ReminderPressed => ShowPicker(s)
    case PickerChanged(selected) => if s.pickerVisible then PickerChange(s, selected) else s
  }

  /** The events in order. The list grows by at most one task per event,
      and the reminders requested before the run stay requested. */
  function Run(s: Screen, events: seq<Event>, format: Instant -> string): (r: Screen)
    ensures |r.tasks| <= |s.tasks| + |events|
    ensures |s.reminders| <= |r.reminders| && r.reminders[..|s.reminders|] == s.reminders
    decreases |events|
  {
    if events == [] then s else Run(Step(s, events[0], format), events[1..], format)
  }

  lemma {:induction false} RunAppend(s: Screen, a: seq<Event>, b: seq<Event>, format: Instant -> string)
    ensures Run(s, a + b, format) == Run(Run(s, a, format), b, format)
    decreases |a|
  {
    if a == [] {
      assert a + b == b;
    } else {
      assert (a + b)[0] == a[0];
      assert (a + b)[1..] == a[1..] + b;
      RunAppend(Step(s, a[0], format), a[1..], b, format);
    }
  }

  /** When every write succeeds, the slot agrees with the screen after the
      run if it did before. */
  lemma {:induction false} RunKeepsAgreement(s: Screen, events: seq<Event>, format: Instant -> string)
    requires Agrees(s) && WritesSucceed(events)
    ensures Agrees(Run(s, events, format))
    decreases |events|
  {
    if events != [] {
      assert WriteOk(events[0]);
      assert WritesSucceed(events[1..]) by {
        forall k | 0 <= k < |events[1..]| ensures WriteOk(events[1..][k]) {
          assert events[1..][k] == events[k + 1];
        }
      }
      RunKeepsAgreement(Step(s, events[0], format), events[1..], format);
    }
  }

  /** Persistence survives a reload: open the screen on any slot with a
      successful read, handle any events whose writes succeed, then discard
      the screen and open a new one on the same slot, again reading
      successfully; the new screen shows the same list. */
  lemma ReloadShowsSameList(slot: Slot, now: Instant, later: Instant, events: seq<Event>,
                            format: Instant -> string)
    requires WritesSucceed(events)
    ensures Open(Run(Open(slot, now, true), events, format).slot, later, true).tasks
            == Run(Open(slot, now, true), events, format).tasks
  {
    RunKeepsAgreement(Open(slot, now, true), events, format);
  }

  /** A failed read at mount leaves the screen on the empty list while the
      slot still holds the stored list, so the two disagree; the next add
      then saves the one new task over the whole stored list. */
  lemma {:induction false} FailedLoadThenAddOverwrites(stored: seq<Task>, now: Instant, later: Instant,
                                                       text: string, format: Instant -> string)
    requires !JsText.IsBlank(text)
    ensures stored != [] ==> !Agrees(Open(Holds(stored), now, false))
    ensures var r := Run(Open(Holds(stored), now, false), [Typed(text), AddPressed(true)], format);
            && r.tasks == [Task(text, format(now))]
            && Open(r.slot, later, true).tasks == [Task(text, format(now))]
  {
    var start := Open(Holds(stored), now, false);
    var task := Task(text, format(now));
    assert start.tasks == [] && start.draftDate == now;
    TypeThenAdd(start, text, true, format);
    var r := Run(start, [Typed(text), AddPressed(true)], format);
    assert Stamped([text], format(now)) == [task];
    assert r.tasks == [] + [task];
    assert r.tasks == [task];
    assert r.slot == Holds([task]) by {
      RunCons(start, Typed(text), [AddPressed(true)], format);
      assert [Typed(text)] + [AddPressed(true)] == [Typed(text), AddPressed(true)];
      RunOne(EditDraft(start, text), AddPressed(true), format);
    }
  }

  /** A failed save after a successful add is lost on reload: the slot
      still shows the list from before the add. */
  lemma FailedSaveIsLostOnReload(s: Screen, format: Instant -> string, later: Instant)
    requires Agrees(s) && !JsText.IsBlank(s.draftText)
    ensures Open(AddTask(s, format, false).slot, later, true).tasks == s.tasks
    ensures Open(AddTask(s, format, false).slot, later, true).tasks != AddTask(s, format, false).tasks
  {
  }

  /** Type each text and press add; `oks[k]` says whether the save issued
      by the k-th add succeeds. */
  function TypeAndAdd(texts: seq<string>, oks: seq<bool>): (r: seq<Event>)
    requires |oks| == |texts|
    ensures |r| == 2 * |texts|
    decreases |texts|
  {
    if texts == [] then []
    else [Typed(texts[0]), AddPressed(oks[0])] + TypeAndAdd(texts[1..], oks[1..])
  }

  /** The texts that are not blank, in order. */
  function NonBlank(texts: seq<string>): (r: seq<string>)
    ensures |r| <= |texts|
    ensures forall k :: 0 <= k < |r| ==> !JsText.IsBlank(r[k])
    decreases |texts|
  {
    if texts == [] then []
    else (if JsText.IsBlank(texts[0]) then [] else [texts[0]]) + NonBlank(texts[1..])
  }

  /** The tasks for `texts`, each stamped with the same rendered time. */
  function Stamped(texts: seq<string>, date: string): (r: seq<Task>)
    ensures |r| == |texts|
    ensures forall k :: 0 <= k < |r| ==> r[k].text == texts[k] && r[k].date == date
  {
    seq(|texts|, k requires 0 <= k < |texts| => Task(texts[k], date))
  }

  lemma RunCons(s: Screen, e: Event, rest: seq<Event>, format: Instant -> string)
    ensures Run(s, [e] + rest, format) == Run(Step(s, e, format), rest, format)
  {
    assert ([e] + rest)[1..] == rest;
  }

  lemma RunOne(s: Screen, e: Event, format: Instant -> string)
    ensures Run(s, [e], format) == Step(s, e, format)
  {
    RunCons(s, e, [], format);
    assert [e] + [] == [e];
  }

  /** Typing a text and pressing add, as one step of a run. Whether the
      save succeeds does not matter to the list. */
  lemma {:induction false} TypeThenAdd(s: Screen, text: string, ok: bool, format: Instant -> string)
    ensures var r := Run(s, [Typed(text), AddPressed(ok)], format);
            && r.tasks == s.tasks + Stamped(if JsText.IsBlank(text) then [] else [text], format(s.draftDate))
            && r.draftDate == s.draftDate
  {
    var typed := EditDraft(s, text);
    var date := format(s.draftDate);
    assert [Typed(text)] + [AddPressed(ok)] == [Typed(text), AddPressed(ok)];
    RunCons(s, Typed(text), [AddPressed(ok)], format);
    assert Step(s, Typed(text), format) == typed;
    RunOne(typed, AddPressed(ok), format);
    var r := AddTask(typed, format, ok);
    assert Run(s, [Typed(text), AddPressed(ok)], format) == r;
    if JsText.IsBlank(text) {
      assert r == typed;
      assert s.tasks + Stamped([], date) == s.tasks;
    } else {
      AppendedTask(typed, format, ok);
      assert Stamped([text], date) == [Task(text, date)];
    }
  }

  /** A non-blank add, stated as one list append, whatever the save does. */
  lemma AppendedTask(s: Screen, format: Instant -> string, ok: bool)
    requires !JsText.IsBlank(s.draftText)
    ensures AddTask(s, format, ok).tasks == s.tasks + [Task(s.draftText, format(s.draftDate))]
  {
    var r := AddTask(s, format, ok);
    assert r.tasks[..|s.tasks|] == s.tasks;
    assert r.tasks == r.tasks[..|s.tasks|] + [r.tasks[|s.tasks|]];
  }

  /** Stamping two batches of texts one after the other appends the same
      tasks as stamping them together. */
  lemma StampedInTwoBatches(before: seq<Task>, head: seq<string>, tail: seq<string>, date: string)
    ensures (before + Stamped(head, date)) + Stamped(tail, date) == before + Stamped(head + tail, date)
  {
    assert Stamped(head + tail, date) == Stamped(head, date) + Stamped(tail, date);
  }

  /** Repeated adds: the list grows by one task per non-blank text, in
      call order, each stamped with the unchanged draft time, whichever
      saves succeed; blank texts add nothing. */
  lemma {:induction false} AddsAppendInCallOrder(s: Screen, texts: seq<string>, oks: seq<bool>,
                                                 format: Instant -> string)
    requires |oks| == |texts|
    ensures Run(s, TypeAndAdd(texts, oks), format).tasks
            == s.tasks + Stamped(NonBlank(texts), format(s.draftDate))
    ensures |Run(s, TypeAndAdd(texts, oks), format).tasks| == |s.tasks| + |NonBlank(texts)|
    ensures Run(s, TypeAndAdd(texts, oks), format).draftDate == s.draftDate
    decreases |texts|
  {
    var date := format(s.draftDate);
    if texts == [] {
      assert TypeAndAdd(texts, oks) == [];
      assert Run(s, [], format) == s;
      assert s.tasks + Stamped([], date) == s.tasks;
    } else {
      var t := texts[0];
      var first := [Typed(t), AddPressed(oks[0])];
      var rest := TypeAndAdd(texts[1..], oks[1..]);
      var mid := Run(s, first, format);
      var head := if JsText.IsBlank(t) then [] else [t];
      TypeThenAdd(s, t, oks[0], format);
      assert TypeAndAdd(texts, oks) == first + rest;
      RunAppend(s, first, rest, format);
      AddsAppendInCallOrder(mid, texts[1..], oks[1..], format);
      var tail := NonBlank(texts[1..]);
      assert NonBlank(texts) == head + tail;
      StampedInTwoBatches(s.tasks, head, tail, date);
      assert Run(s, TypeAndAdd(texts, oks), format) == Run(mid, rest, format);
    }
  }

  /** Picking a time and then adding stamps the new task with the picked
      time, whether or not the add's save succeeds; cancelling the picker
      keeps the earlier time. */
  lemma {:induction false} PickedTimeStampsNextTask(s: Screen, selected: Option<Instant>, text: string,
                                                    ok: bool, format: Instant -> string)
    requires s.pickerVisible && !JsText.IsBlank(text)
    ensures var r := Run(s, [PickerChanged(selected), Typed(text), AddPressed(ok)], format);
            r.tasks == s.tasks + [Task(text, format(if selected.Some? then selected.value else s.draftDate))]
  {
    var rest := [Typed(text), AddPressed(ok)];
    var picked := PickerChange(s, selected);
    var date := format(picked.draftDate);
    assert picked.draftDate == if selected.Some? then selected.value else s.draftDate;
    assert [PickerChanged(selected)] + rest == [PickerChanged(selected), Typed(text), AddPressed(ok)];
    RunCons(s, PickerChanged(selected), rest, format);
    assert Step(s, PickerChanged(selected), format) == picked;
    TypeThenAdd(picked, text, ok, format);
    var r := Run(picked, rest, format);
    assert r.tasks == picked.tasks + Stamped([text], date);
    assert Stamped([text], date) == [Task(text, date)];
  }

  /** The first-use scenario: on a fresh install, typing "Buy milk" and
      adding it shows, saves and schedules that one task. */
  lemma BuyMilkOnFreshInstall(t0: Instant, format: Instant -> string)
    ensures var r := Run(Open(Absent, t0, true), [Typed("Buy milk"), AddPressed(true)], format);
            && r.tasks == [Task("Buy milk", format(t0))]
            && r.slot == Holds(r.tasks)
            && r.reminders == [Reminder("Reminder", "Task: Buy milk", true, t0)]
            && r.draftText == []
  {
    var events := [Typed("Buy milk"), AddPressed(true)];
    assert events[1..] == [AddPressed(true)];
    assert !JsText.IsWhitespace('B');
    assert "Task: " + "Buy milk" == "Task: Buy milk";
  }

  /** Removing the middle of three tasks leaves the outer two in order. */
  lemma RemoveMiddleOfThree(s: Screen, a: Task, b: Task, c: Task)
    requires s.tasks == [a, b, c]
    ensures RemoveTask(s, 1, true).tasks == [a, c]
  {
    assert [a, b, c][..1] + [a, b, c][2..] == [a, c];
  }
}
