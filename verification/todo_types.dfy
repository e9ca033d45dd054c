/** The records the to-do screen holds and hands to the platform. */
module TodoTypes {

  datatype Option<T> = None | Some(value: T)

  /** A JavaScript `Date`: a point in time, milliseconds since the epoch.
      The model never looks inside it; it is only stored, compared and
      handed to the formatting function. */
  datatype Instant = Instant(epochMillis: int)

  /** A to-do entry: the text as typed and the reminder time already
      rendered as a locale string. Tasks carry no identity; their position
      in the list is the only way to name one. */
  datatype Task = Task(text: string, date: string)

  /** The content and trigger of one local-notification request. */
  datatype Reminder = Reminder(title: string, body: string, sound: bool, trigger: Instant)

  const ReminderTitle: string := "Reminder"
  const ReminderBodyPrefix: string := "Task: "
}
