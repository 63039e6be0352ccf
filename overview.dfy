/**
 * The dashboard's overview panel: its "Sleep Last Night" tile shows the
 * sleep value the last check-in stored, or a fixed placeholder.
 */
module DashboardOverview {
  import opened Wrappers
  import opened Storage

  /** What the tile shows when nothing usable is stored. */
  const SleepPlaceholder: string := "7.5h"

  /** The mount effect's read: a stored non-empty string, or nothing; an empty string is falsy and is ignored. */
  function LoadSleep(items: map<string, string>): (r: Option<string>)
    ensures r.Some? <==> SleepKey in items && items[SleepKey] != ""
    ensures r.Some? ==> r.value == items[SleepKey]
  {
    match Lookup(items, SleepKey)
    case Some(s) => if s != "" then Some(s) else None
    case None => None
  }

  /** The tile's text: the stored value with an "h", or the placeholder. */
  function SleepLabel(sleep: Option<string>): (r: string)
    ensures sleep.Some? && sleep.value != "" ==> r == sleep.value + "h"
    ensures sleep.None? || sleep.value == "" ==> r == SleepPlaceholder
    ensures r[|r| - 1] == 'h'
  {
    if sleep.Some? && sleep.value != "" then sleep.value + "h" else SleepPlaceholder
  }

  /** The panel's state. */
  class Overview {
    var sleep: Option<string>

    /** Mounting reads `dashboardSleep` once and writes nothing. */
    constructor Mount(store: LocalStore)
      ensures sleep == LoadSleep(store.items)
      ensures unchanged(store)
    {
      sleep := LoadSleep(store.items);
    }
  }
}
