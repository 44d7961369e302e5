/** What the application posts through the NotificationManager: the daily
    limit alert and the monitor's ongoing status notification. Only the
    decisions are kept (which text variant, which figures in which unit,
    whether a progress bar is shown); the `%.2f` formatting, icons, intents
    and channels are not. */
module Notifications {
  import opened Wrappers

  datatype Unit = MB | GB

  /** A usage figure as the status text shows it: a value in a unit. */
  datatype Amount = Amount(value: real, unit: Unit)

  /** The megabytes an amount stands for. */
  function InMegabytes(a: Amount): real {
    if a.unit == GB then a.value * 1024.0 else a.value
  }

  /** The two forms of the status notification's content text. */
  datatype ContentText =
    | LimitText(today: Amount, percentage: int, limit: Amount)          // "Today: … | p% of limit (…)"
    | NoLimitText(today: Amount, lastThreeHours: Amount)               // "Today: … | Last 3 hours: …"

  /** `setProgress(max, progress, false)`. */
  datatype Progress = Progress(max: int, progress: int)

  datatype Notification =
    | LimitAlert(title: string, message: string)
    | StatusUpdate(content: ContentText, progressBar: Option<Progress>)

  /** The notifications on screen, by id; `notify` with an id that is
      already shown replaces that notification. */
  class NotificationManager {
    var shown: map<int, Notification>

    constructor ()
      ensures shown == map[]
    {
      shown := map[];
    }

    method Notify(id: int, n: Notification)
      modifies this
      ensures shown == old(shown)[id := n]
    {
      shown := shown[id := n];
    }
  }
}
