/**
  The on-device key-value slot, under the key "tasks", that holds the whole
  task list. JSON encoding is not modelled: the slot holds the list itself.
 */
module TaskStore {
  import opened TodoTypes

  /** What the slot can hold: nothing yet (first run), a list written by
      the screen, or a value that does not parse as JSON. */
  datatype Slot = Absent | Holds(tasks: seq<Task>) | Unparsable

  /** The list a successful read of the slot hands to the screen, or `None`
      when the load step leaves the screen's list alone: the key is missing,
      or parsing threw and the error was only logged. A stored list is never
      the empty string, so a present list is always taken. A read that
      itself fails is a separate outcome of the load step. */
  function Read(slot: Slot): (r: Option<seq<Task>>)
    ensures r.Some? <==> slot.Holds?
    ensures r.Some? ==> r.value == slot.tasks
  {
    match slot
    case Holds(tasks) => Some(tasks)
    case Absent => None
    case Unparsable => None
  }

  /** Overwrite the slot with the whole list. A failed write is logged and
      dropped, leaving the slot as it was. */
  function Save(slot: Slot, tasks: seq<Task>, writeOk: bool): (r: Slot)
    ensures writeOk ==> Read(r) == Some(tasks)
    ensures !writeOk ==> r == slot
  {
    if writeOk then Holds(tasks) else slot
  }

  /** The list a freshly mounted screen shows once a successful read of
      the slot is done: the stored list, or the initial empty list. */
  function Shown(slot: Slot): (r: seq<Task>)
    ensures slot.Holds? ==> r == slot.tasks
    ensures !slot.Holds? ==> r == []
  {
    match Read(slot)
    case Some(tasks) => tasks
    case None => []
  }
}
