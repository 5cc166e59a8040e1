/**
 * The notification decision (App.notify): two independent alert channels, a
 * system notification gated on the granted permission and a chime gated on
 * the sound checkbox.
 */
module Alerts {

  /** An alert the monitor emits, recorded as an abstract event. */
  datatype Alert =
    | Notified(title: string, body: string, opens: string)  // a click opens `opens` in a new tab
    | Chimed                                                 // the chime, restarted from its start at full volume

  const Title := "NVIDIA 3080FE Stock alert"
  const Lead := "Stock went from "
  const Link := " to "

  /** Only the answer 'granted' to the permission request authorises notifications. */
  predicate Grants(consent: string)
  {
    consent == "granted"
  }

  /** The notification text `Stock went from <old> to <new>.` */
  function NotificationBody(oldStatus: string, newStatus: string): string
  {
    Lead + oldStatus + Link + newStatus + "."
  }

  /** Each part of the notification text sits at a fixed offset, so old and new can be read back. */
  lemma NotificationBodyParts(oldStatus: string, newStatus: string)
    ensures var body := NotificationBody(oldStatus, newStatus);
      && |body| == |Lead| + |oldStatus| + |Link| + |newStatus| + 1
      && body[..|Lead|] == Lead
      && body[|Lead|..|Lead| + |oldStatus|] == oldStatus
      && body[|Lead| + |oldStatus|..|Lead| + |oldStatus| + |Link|] == Link
      && body[|Lead| + |oldStatus| + |Link|..|body| - 1] == newStatus
      && body[|body| - 1] == '.'
  {
  }

  /** The alerts one `notify(old, new)` emits, in the order it emits them. */
  function NotifyAlerts(canNotify: bool, soundChecked: bool, oldStatus: string, newStatus: string, storeUrl: string)
    : (alerts: seq<Alert>)
    ensures Notified(Title, NotificationBody(oldStatus, newStatus), storeUrl) in alerts <==> canNotify
    ensures Chimed in alerts <==> soundChecked
    ensures forall a :: a in alerts ==> a == Chimed || a == Notified(Title, NotificationBody(oldStatus, newStatus), storeUrl)
    ensures |alerts| == (if canNotify then 1 else 0) + (if soundChecked then 1 else 0)
    // the notification, when there is one, comes before the chime
    ensures canNotify ==> alerts[0].Notified?
  {
    (if canNotify then [Notified(Title, NotificationBody(oldStatus, newStatus), storeUrl)] else [])
    + (if soundChecked then [Chimed] else [])
  }
}
