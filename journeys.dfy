/**
 * How the pages talk to each other through the store: a check-in leaves a
 * note and a sleep value that the dashboard and its overview pick up on their
 * next mount, and logging out leaves every page with its defaults.
 */
module Journeys {
  import opened Wrappers
  import opened Text
  import opened Json
  import opened Storage
  import opened Dashboard
  import opened DailyCheckin
  import opened Settings
  import opened DashboardOverview

  /** A check-in's note reaches the dashboard banner when it has visible text; otherwise the banner shows what it showed before. */
  lemma CheckinFeedbackReachesDashboard(items: map<string, string>, notes: string, sleep: seq<nat>)
    ensures Trim(notes) != "" ==>
      LoadFeedback(SubmitEffect(items, notes, sleep)) == Trim(notes)
      && FeedbackShown(LoadFeedback(SubmitEffect(items, notes, sleep)))
    ensures Trim(notes) == "" ==> LoadFeedback(SubmitEffect(items, notes, sleep)) == LoadFeedback(items)
  {
  }

  /** A check-in's sleep value reaches the overview tile, written as `String` writes it, with an "h". */
  lemma CheckinSleepReachesOverview(items: map<string, string>, notes: string, sleep: seq<nat>)
    ensures |sleep| > 0 ==> SleepLabel(LoadSleep(SubmitEffect(items, notes, sleep))) == SleepText(sleep[0]) + "h"
    ensures |sleep| == 0 ==> LoadSleep(SubmitEffect(items, notes, sleep)) == LoadSleep(items)
  {
    if |sleep| > 0 {
      assert SleepText(sleep[0]) != "" by {
        assert |NatToString(sleep[0] / 2)| > 0;
      }
    }
  }

  /** A check-in touches neither the reports nor the profile, so a dashboard that mounted before still mounts with the same data. */
  lemma CheckinKeepsReportsAndUser(items: map<string, string>, notes: string, sleep: seq<nat>)
    ensures LoadReports(SubmitEffect(items, notes, sleep)) == LoadReports(items)
    ensures LoadUser(SubmitEffect(items, notes, sleep)) == LoadUser(items)
  {
    var r := SubmitEffect(items, notes, sleep);
    assert ReportsKey != FeedbackKey && ReportsKey != SleepKey;
    assert UserKey != FeedbackKey && UserKey != SleepKey;
    assert (ReportsKey in r <==> ReportsKey in items) && (ReportsKey in items ==> r[ReportsKey] == items[ReportsKey]);
    assert (UserKey in r <==> UserKey in items) && (UserKey in items ==> r[UserKey] == items[UserKey]);
  }

  /** After logging out every page mounts with its defaults: the default profile, no reports, no note, and the sleep placeholder. */
  lemma LogoutRestoresDefaults(items: map<string, string>)
    requires items == map[]
    ensures LoadUser(items) == DefaultUser
    ensures LoadReports(items) == Ok([])
    ensures LoadFeedback(items) == "" && !FeedbackShown(LoadFeedback(items))
    ensures LoadSleep(items) == None && SleepLabel(LoadSleep(items)) == SleepPlaceholder
  {
  }

  /**
   * A client: the check-in form is submitted with a note, then the
   * dashboard and its overview mount on the same store.
   */
  method CheckinThenDashboard(store: LocalStore, notes: string) returns (page: DashboardPage, tile: Overview)
    requires LoadReports(store.items).Ok?
    modifies store
    ensures Trim(notes) != "" ==> page.feedback == Trim(notes)
    ensures tile.sleep == Some(SleepText(14))
    ensures page.reports == LoadReports(old(store.items)).value
  {
    var form := new CheckinForm();
    form.SetNotes(notes);
    ghost var before := store.items;
    form.Submit(store);
    CheckinKeepsReportsAndUser(before, notes, [14]);
    CheckinFeedbackReachesDashboard(before, notes, [14]);
    page := new DashboardPage.Mount(store);
    tile := new Overview.Mount(store);
    assert SleepText(14) != "" by {
      assert |NatToString(7)| > 0;
    }
  }

  /** A client: after logging out from the settings page, the dashboard greets the default user and shows no reports. */
  method LogoutThenDashboard(store: LocalStore) returns (page: DashboardPage)
    modifies store
    ensures page.user == DefaultUser && page.reports == [] && page.feedback == ""
  {
    var settings := new SettingsPage.Mount(store);
    settings.Logout();
    LogoutRestoresDefaults(store.items);
    page := new DashboardPage.Mount(store);
  }
}
