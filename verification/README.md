# To-do list screen, modelled in Dafny

This project models the controller of the task-list screen (`TodoScreen` in
`App.js`) of a small React Native to-do app. The model is a pure state
machine. The screen's state is an immutable record holding:

- the task list, a sequence of `{text, date}` records;
- the draft text and the draft reminder time;
- whether the date picker is shown;
- the on-device storage slot under the key `"tasks"`;
- the reminder notifications requested so far.

Each handler of the screen is a function from one state to the next:
mount, the load step, add, remove, typing, opening the picker and the
picker's change handler. The storage slot and the reminder log are ordinary
fields of the state. Because of that, the contracts can say exactly what
each handler writes to storage and which reminders it requests.

Files:

- `todo_types.dfy` (`TodoTypes`): the task record, a point in time
  (`Instant`, milliseconds since the epoch, as in a JavaScript `Date`), the
  notification content, and `Option`.
- `js_text.dfy` (`JsText`): `String.prototype.trim` over the ECMAScript
  white-space and line-terminator characters, and the predicate `IsBlank`.
- `task_store.dfy` (`TaskStore`): the storage slot. It is absent, holds a
  list, or holds a value that does not parse. It also defines reading,
  saving, and the list a fresh screen shows after a successful load.
- `todo_screen.dfy` (`TodoScreen`): the screen state and its handlers.
- `todo_runs.dfy` (`TodoRuns`): sequences of user events and the
  properties that hold across them.

Four inputs are parameters rather than library calls:

- the locale rendering `date.toLocaleString()` is a function
  `format: Instant -> string`;
- `new Date()` at mount is the parameter `now`;
- the outcome of the storage read at mount is a flag `readOk`;
- the outcome of each storage write is a flag `writeOk`.

## Model

| member | source | states |
|---|---|---|
| JsText.TrimStart | App.js:91 | Leading white space is dropped: the result is a suffix of the input, everything dropped is white space, and the result starts with a non-white-space character or is empty |
| JsText.TrimEnd | App.js:91 | Trailing white space is dropped: the result is a prefix of the input, everything dropped is white space, and the result ends with a non-white-space character or is empty |
| JsText.Trim | App.js:91 | `task.trim()` is empty (falsy) exactly when the draft is empty or white space only (`IsBlank`: every character is in `IsWhitespace`, the ECMAScript WhiteSpace and LineTerminator set); otherwise it begins and ends with a non-white-space character |
| TaskStore.Read | App.js:58-65 | A successful read yields a list exactly when the slot holds one; a missing key and a value that does not parse both yield nothing |
| TaskStore.Save | App.js:68-74 | A successful save makes the slot read back as exactly the saved list; a failed save is dropped and leaves the slot as it was |
| TaskStore.Shown | App.js:58-65 | After a successful read, a freshly mounted screen shows the stored list when there is one and the initial empty list otherwise |
| TodoScreen.Mount | App.js:39-42 | The screen starts with no tasks, an empty draft, the reminder time set to the mount time and the picker hidden |
| TodoScreen.Load | App.js:58-65 | The list is replaced by the stored list only when the read succeeds and the slot holds a list; a failed read, a missing key or an unparsable value leaves the whole state unchanged |
| TodoScreen.Open | App.js:44-47 | Mounting followed by loading shows what the slot yields after a successful read, and the empty list when the read fails, the key is missing or the value does not parse |
| TodoScreen.ReminderFor | App.js:77-85 | The requested notification has title "Reminder", body "Task: " followed by the text exactly, sound on, and fires at the draft time |
| TodoScreen.AddTask | App.js:90-99 | A blank draft changes nothing. Otherwise exactly one task is appended after the unchanged old list, with the untrimmed text and the rendered draft time. The draft text is cleared and the draft time kept. A successful save stores the whole new list and a failed one leaves the slot alone. One reminder is requested. The list changes if and only if the draft is not blank |
| TodoScreen.FilterOut | App.js:103 | Filtering by position drops one element when the position is inside the list and none otherwise |
| TodoScreen.FilterOutSplices | App.js:103 | The position filter equals `xs[..i] + xs[i+1..]` for an index inside the list, and the list itself for any other index |
| TodoScreen.RemoveTask | App.js:102-106 | An in-range index yields the list without that element, length N-1, order kept. An out-of-range index leaves the list unchanged. The resulting list is saved in both cases. Drafts, picker and requested reminders are untouched |
| TodoScreen.EditDraft | App.js:150-156 | Typing replaces the draft text and nothing else |
| TodoScreen.ShowPicker | App.js:117 | The reminder button shows the picker and changes nothing else |
| TodoScreen.PickerChange | App.js:126-129 | The picker is always hidden. The draft time becomes the selected time, or is kept when nothing was selected. Nothing else changes |
| TodoRuns.Step | App.js:117-157 | Any single event adds at most one task and withdraws no requested reminder. When its write succeeds, it keeps the slot in agreement with the list on screen. A picker event while the picker is hidden does nothing |
| TodoRuns.Run | App.js:90-106 | Over any run of events the list grows by at most one task per event, and reminders requested earlier stay requested, because removing a task does not cancel its reminder |
| TodoRuns.RunKeepsAgreement | App.js:93-105 | If every write succeeds, a slot that agrees with the screen still agrees after any run, because every mutation saves the whole new list |
| TodoRuns.ReloadShowsSameList | App.js:58-74 | Open the screen with a successful read, handle any events whose writes succeed, then reopen on the same slot with a successful read: the new screen shows the same list |
| TodoRuns.FailedLoadThenAddOverwrites | App.js:58-96 | A failed read at mount leaves the screen on the empty list while the slot still holds a non-empty stored list, so the two disagree; the next add then saves exactly the one new task, and a later reload shows only that task |
| TodoRuns.FailedSaveIsLostOnReload | App.js:68-74 | From a screen whose slot agrees with its list, an add whose save fails is lost: reopening shows the list from before the add, which differs from the list on screen |
| TodoRuns.AddsAppendInCallOrder | App.js:90-99 | Typing and adding a series of texts, with any mix of succeeding and failing saves, appends one task per non-blank text, in call order, each with the unchanged draft time. The length grows by the number of non-blank texts |
| TodoRuns.PickedTimeStampsNextTask | App.js:126-129 | A time picked before an add is the time the new task carries, whether or not the add's save succeeds; a cancelled pick leaves the earlier time on it |
| TodoRuns.BuyMilkOnFreshInstall | App.js:90-99 | On a fresh install, adding "Buy milk" shows and stores exactly that task and requests one reminder with body "Task: Buy milk" at the mount time |
| TodoRuns.RemoveMiddleOfThree | App.js:102-106 | Removing position 1 from `[a, b, c]` leaves `[a, c]` |

## Left out

- JSON encoding and decoding: the slot holds the task list itself. A
  stored value that parses but is not a task list (for example `null`) is
  not modelled.
- The AsyncStorage calls: reading and writing are reduced to the slot
  field and the `readOk` and `writeOk` flags.
- The notification library: setting the handler, the permission request
  and its advisory alert, the "Reminder Set" alert, and the platform
  delivering the notification (App.js:14-20, 50-55, 86). Only the
  requested content and trigger are kept.
- A failing schedule call: it is not caught, but the list, the draft and
  the save are already updated before the call, so it cannot affect the
  modelled state.
- Date rendering: `toLocaleString` is the parameter `format`. Its output
  is never inspected.
- Concurrency: the load step and the saves are asynchronous. A task added
  or removed before the load finishes is saved over the stored list
  (App.js:96, 105). When the slot held a list, the load then puts the old
  list back on screen (App.js:61), so screen and slot disagree. When the key
  was missing or the read failed, the early change stays on screen. Typing
  is never affected, because the load only sets the list. The model runs
  the load to completion before any event and treats each save as done at
  once.
- The splash screen timer, navigation, the settings placeholder, the
  JSX rendering and the styles (App.js:23-35, 112-114, 165-206).
- Strings are sequences of Unicode scalar values, not UTF-16 code units,
  so unpaired surrogates cannot be expressed. Every character `trim`
  removes lies in the Basic Multilingual Plane, so for every string the
  model can express, whether a draft is blank is decided as in JavaScript.
- Removal by index: the rendered list only ever passes positions it
  shows, but the filter in the code accepts any value. The model therefore
  takes any integer index and states the out-of-range case as well; it does
  not demand a valid index of the caller.
- JsText.Trim: its own contract states emptiness and the end characters,
  not that the result is exactly the slice between the first and last
  non-white-space characters. That slice follows from the contracts of
  TrimStart and TrimEnd, and the screen only uses whether the result is
  empty.
