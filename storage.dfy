/**
 * The browser's `localStorage` as the pages use it: one flat map from keys
 * to strings, shared by every page, with last-write-wins updates.
 */
module Storage {
  import opened Wrappers
  import opened Json

  /** The keys the pages read and write. */
  const UserKey: string := "user"
  const ReportsKey: string := "reports"
  const FeedbackKey: string := "dashboardFeedback"
  const SleepKey: string := "dashboardSleep"

  /** `getItem`: the stored string, or `None` where the browser answers `null`. */
  function Lookup(items: map<string, string>, key: string): (r: Option<string>)
    ensures r.Some? <==> key in items
    ensures r.Some? ==> r.value == items[key]
  {
    if key in items then Some(items[key]) else None
  }

  /** The profile every page starts from before reading `user`. */
  const DefaultUser: User := User("John", "Doe", "john.doe@example.com")

  /**
   * The `user` hydration effect shared by the sidebar, the dashboard and the
   * settings page: a missing or empty value keeps the default, and so does a
   * value `JSON.parse` rejects, because the exception is caught.
   */
  function LoadUser(items: map<string, string>): (r: User)
    ensures UserKey !in items ==> r == DefaultUser
    ensures r == DefaultUser || (UserKey in items && items[UserKey] == EncodeUser(r))
  {
    if UserKey in items && items[UserKey] != "" then
      match DecodeUser(items[UserKey])
      case Some(u) => DecodeUserCanonical(items[UserKey]); u
      case None => DefaultUser
    else DefaultUser
  }

  /** The profile a page shows is the stored one exactly when the stored text is that profile's JSON, and the default otherwise. */
  lemma LoadUserSpec(items: map<string, string>)
    ensures UserKey !in items ==> LoadUser(items) == DefaultUser
    ensures UserKey in items && (forall u :: items[UserKey] != EncodeUser(u)) ==> LoadUser(items) == DefaultUser
    ensures forall u :: UserKey in items && items[UserKey] == EncodeUser(u) ==> LoadUser(items) == u
  {
    if UserKey in items {
      var t := items[UserKey];
      forall u | t == EncodeUser(u) ensures LoadUser(items) == u {
        DecodeUserIff(t, u);
        assert EncodeUser(u)[0] == '{';
      }
      if DecodeUser(t).Some? {
        DecodeUserIff(t, DecodeUser(t).value);
      }
    }
  }

  /** The store. */
  class LocalStore {
    var items: map<string, string>

    /** A browser profile with nothing stored yet. */
    constructor ()
      ensures items == map[]
    {
      items := map[];
    }

    /** `localStorage.getItem(key)`. */
    method GetItem(key: string) returns (v: Option<string>)
      ensures v == Lookup(items, key)
    {
      v := Lookup(items, key);
    }

    /** `localStorage.setItem(key, value)`: replaces whatever the key held. */
    method SetItem(key: string, value: string)
      modifies this
      ensures items == old(items)[key := value]
    {
      items := items[key := value];
    }

    /** `localStorage.removeItem(key)`. */
    method RemoveItem(key: string)
      modifies this
      ensures items == old(items) - {key}
    {
      items := items - {key};
    }

    /** `localStorage.clear()`. */
    method Clear()
      modifies this
      ensures items == map[]
    {
      items := map[];
    }
  }
}
