/**
 * The dashboard page: the greeting, the sidebar's avatar initials, the
 * check-in feedback banner, the attached reports, and the chatbot
 * transcript. Its state lives in `DashboardPage`; whatever must outlive the
 * page goes through the shared `LocalStore`.
 */
module Dashboard {
  import opened Wrappers
  import opened Text
  import opened Json
  import opened Storage
  import Chatbot

  datatype Author = FromUser | FromBot

  /** One line of the chat transcript. */
  datatype Message = Message(from: Author, text: string)

  /** Mounting fails when the `reports` initialiser's `JSON.parse` throws. */
  datatype MountError = MalformedReports

  /* ---------------- hydration ---------------- */

  /** The `reports` initialiser: an absent or empty value is the empty list; anything else goes through `JSON.parse`, whose exception is not caught. */
  function LoadReports(items: map<string, string>): (r: Result<seq<Report>, MountError>)
    ensures ReportsKey !in items ==> r == Ok([])
    ensures r.Err? ==> ReportsKey in items && items[ReportsKey] != ""
    ensures r.Ok? && ReportsKey in items && items[ReportsKey] != "" ==> items[ReportsKey] == EncodeReports(r.value)
  {
    if ReportsKey !in items || items[ReportsKey] == "" then Ok([])
    else match DecodeReports(items[ReportsKey])
      case Some(rs) => DecodeReportsCanonical(items[ReportsKey]); Ok(rs)
      case None => Err(MalformedReports)
  }

  /** What a mount sees of `reports`: nothing stored gives no reports, a list's JSON gives that list, and any other text makes the page fail. */
  lemma LoadReportsSpec(items: map<string, string>)
    ensures ReportsKey !in items ==> LoadReports(items) == Ok([])
    ensures forall rs :: ReportsKey in items && items[ReportsKey] == EncodeReports(rs) ==> LoadReports(items) == Ok(rs)
    ensures LoadReports(items).Err? <==>
      ReportsKey in items && items[ReportsKey] != "" && forall rs :: items[ReportsKey] != EncodeReports(rs)
  {
    if ReportsKey in items {
      var t := items[ReportsKey];
      forall rs | t == EncodeReports(rs) ensures LoadReports(items) == Ok(rs) {
        DecodeReportsIff(t, rs);
        assert t[0] == '[';
      }
      if DecodeReports(t).Some? {
        DecodeReportsIff(t, DecodeReports(t).value);
      }
    }
  }

  /** The feedback initialiser: the stored note, or "" when there is none. */
  function LoadFeedback(items: map<string, string>): (r: string)
    ensures FeedbackKey in items ==> r == items[FeedbackKey]
    ensures FeedbackKey !in items ==> r == ""
  {
    Lookup(items, FeedbackKey).GetOr("")
  }

  /** The banner shows while the note is non-empty. */
  predicate FeedbackShown(feedback: string) {
    feedback != ""
  }

  /* ---------------- greeting and initials ---------------- */

  /** The name in the greeting: the first name, or "John" when it is empty. */
  function DisplayName(u: User): (r: string)
    ensures r != []
    ensures u.firstName != [] ==> r == u.firstName
    ensures u.firstName == [] ==> r == "John"
  {
    if u.firstName == "" then "John" else u.firstName
  }

  /** `getGreeting`, with the clock's hour passed in. */
  function Greeting(hour: int, u: User): (r: string)
    ensures hour < 12 ==> r == "Good morning, " + DisplayName(u) + "!"
    ensures 12 <= hour < 18 ==> r == "Good afternoon, " + DisplayName(u) + "!"
    ensures 18 <= hour ==> r == "Good evening, " + DisplayName(u) + "!"
  {
    var name := DisplayName(u);
    if hour < 12 then "Good morning, " + name + "!"
    else if hour < 18 then "Good afternoon, " + name + "!"
    else "Good evening, " + name + "!"
  }

  /** The greeting's period depends only on the hour: it never goes back from evening to afternoon or from afternoon to morning as the hour grows. */
  lemma GreetingPeriodMonotone(h1: int, h2: int, u: User)
    requires h1 <= h2
    ensures Greeting(h2, u) == "Good morning, " + DisplayName(u) + "!" ==> Greeting(h1, u) == Greeting(h2, u)
    ensures Greeting(h1, u) == "Good evening, " + DisplayName(u) + "!" ==> Greeting(h1, u) == Greeting(h2, u)
  {
    var n := DisplayName(u);
    assert ("Good morning, " + n + "!")[5] != ("Good afternoon, " + n + "!")[5];
    assert ("Good morning, " + n + "!")[5] != ("Good evening, " + n + "!")[5];
    assert ("Good evening, " + n + "!")[5] != ("Good afternoon, " + n + "!")[5];
  }

  /** The avatar fallback: the first letters of the first and last name, or 'J' and 'D' for an empty one. */
  function Initials(u: User): (r: string)
    ensures |r| == 2
    ensures r[0] == (if u.firstName != [] then u.firstName[0] else 'J')
    ensures r[1] == (if u.lastName != [] then u.lastName[0] else 'D')
  {
    [if u.firstName != [] then u.firstName[0] else 'J', if u.lastName != [] then u.lastName[0] else 'D']
  }

  /* ---------------- deleting a report ---------------- */

  /** `s.filter((_, i) => i !== idx)`. */
  function RemoveIndex<T>(s: seq<T>, idx: int): (r: seq<T>)
    ensures |r| == if 0 <= idx < |s| then |s| - 1 else |s|
    ensures forall x :: x in r ==> x in s
  {
    if s == [] then []
    else (if idx == 0 then [] else [s[0]]) + RemoveIndex(s[1..], idx - 1)
  }

  /** The filter drops exactly the element at `idx` and keeps the others in order; an index outside the list changes nothing. */
  lemma {:induction false} RemoveIndexSpec<T>(s: seq<T>, idx: int)
    ensures RemoveIndex(s, idx) == if 0 <= idx < |s| then s[..idx] + s[idx + 1..] else s
  {
    if s != [] {
      RemoveIndexSpec(s[1..], idx - 1);
      if 0 < idx < |s| {
        assert s[1..][..idx - 1] == s[1..idx];
        assert s[1..][idx..] == s[idx + 1..];
        assert s[..idx] == [s[0]] + s[1..idx];
      } else if idx == 0 {
      } else {
        assert [s[0]] + s[1..] == s;
      }
    }
  }

  /** Deleting the report just appended restores the previous list. */
  lemma AppendThenRemove<T>(s: seq<T>, x: T)
    ensures RemoveIndex(s + [x], |s|) == s
  {
    RemoveIndexSpec(s + [x], |s|);
    assert (s + [x])[..|s|] == s;
  }

  /** After a list is written under `reports`, the next mount loads that list. */
  lemma ReportsPersist(items: map<string, string>, rs: seq<Report>)
    ensures LoadReports(items[ReportsKey := EncodeReports(rs)]) == Ok(rs)
  {
    LoadReportsSpec(items[ReportsKey := EncodeReports(rs)]);
  }

  /** After a dismissal the next mount finds no note, so the banner stays hidden. */
  lemma DismissedStaysHidden(items: map<string, string>)
    ensures LoadFeedback(items - {FeedbackKey}) == ""
    ensures !FeedbackShown(LoadFeedback(items - {FeedbackKey}))
  {
  }

  /* ---------------- the page ---------------- */

  class DashboardPage {
    const store: LocalStore
    var messages: seq<Message>
    var input: string
    var reports: seq<Report>
    var feedback: string
    var user: User

    /**
     * Mounting: the state initialisers and the `user` effect. The page only
     * mounts when the `reports` value parses; otherwise `LoadReports`
     * reports the error the initialiser throws.
     */
    constructor Mount(store: LocalStore)
      requires LoadReports(store.items).Ok?
      ensures this.store == store
      ensures messages == [Message(FromBot, Chatbot.Welcome)] && input == ""
      ensures reports == LoadReports(store.items).value
      ensures feedback == LoadFeedback(store.items)
      ensures user == LoadUser(store.items)
    {
      this.store := store;
      messages := [Message(FromBot, Chatbot.Welcome)];
      input := "";
      reports := LoadReports(store.items).value;
      feedback := LoadFeedback(store.items);
      user := LoadUser(store.items);
    }

    /** The chat input's `onChange`. */
    method SetInput(text: string)
      modifies this
      ensures input == text
      ensures messages == old(messages) && reports == old(reports)
      ensures feedback == old(feedback) && user == old(user)
    {
      input := text;
    }

    /**
     * `handleSend`: a blank input does nothing; otherwise the user's
     * message, untrimmed, and the bot's reply are appended and the input is
     * cleared.
     */
    method Send()
      modifies this
      ensures Trim(old(input)) == "" ==> messages == old(messages) && input == old(input)
      ensures Trim(old(input)) != "" ==>
        && messages == old(messages) + [Message(FromUser, old(input)), Message(FromBot, Chatbot.Reply(old(input)))]
        && input == ""
      ensures reports == old(reports) && feedback == old(feedback) && user == old(user)
    {
      if Trim(input) != "" {
        Exchange();
      }
    }

    /** The non-blank branch of `handleSend`: the user's line, the reply, and the input cleared. */
    method Exchange()
      modifies this
      ensures messages == old(messages) + [Message(FromUser, old(input)), Message(FromBot, Chatbot.Reply(old(input)))]
      ensures input == ""
      ensures reports == old(reports) && feedback == old(feedback) && user == old(user)
    {
      var reply := Chatbot.ComputeReply(input);
      messages := messages + [Message(FromUser, input), Message(FromBot, reply)];
      input := "";
    }

    /** `handleReportUpload`: the chosen files, in order, after the current list; the result is saved under `reports`. */
    method UploadReports(files: seq<Report>)
      modifies this, store
      ensures reports == old(reports) + files
      ensures store.items == old(store.items)[ReportsKey := EncodeReports(reports)]
      ensures messages == old(messages) && input == old(input)
      ensures feedback == old(feedback) && user == old(user)
    {
      var updated := reports + files;
      reports := updated;
      store.SetItem(ReportsKey, EncodeReports(updated));
    }

    /** `handleDeleteReport`: the list without its `idx`-th entry, saved under `reports`. */
    method DeleteReport(idx: int)
      modifies this, store
      ensures reports == RemoveIndex(old(reports), idx)
      ensures store.items == old(store.items)[ReportsKey := EncodeReports(reports)]
      ensures messages == old(messages) && input == old(input)
      ensures feedback == old(feedback) && user == old(user)
    {
      var updated := RemoveIndex(reports, idx);
      reports := updated;
      store.SetItem(ReportsKey, EncodeReports(updated));
    }

    /** `handleDismissFeedback`: hides the banner and forgets the note. */
    method DismissFeedback()
      modifies this, store
      ensures feedback == "" && !FeedbackShown(feedback)
      ensures store.items == old(store.items) - {FeedbackKey}
      ensures messages == old(messages) && input == old(input)
      ensures reports == old(reports) && user == old(user)
    {
      feedback := "";
      store.RemoveItem(FeedbackKey);
    }
  }

  /** "workout" has visible text. */
  lemma WorkoutNotBlank()
    ensures Trim("workout") != ""
  {
    var s := "workout";
    assert !AllSpace(s) by {
      assert !IsJsSpace(s[0]);
    }
    TrimEmptyIff(s);
  }

  /** Three spaces trim to nothing. */
  lemma SpacesBlank()
    ensures Trim("   ") == ""
  {
    var s := "   ";
    assert AllSpace(s);
    TrimEmptyIff(s);
  }

  /** A client: a real message grows the transcript by the user's line and the bot's reply and clears the input. */
  method SendScenario(page: DashboardPage, line: string)
    requires Trim(line) != ""
    modifies page
  {
    var before := page.messages;
    page.SetInput(line);
    page.Send();
    assert |page.messages| == |before| + 2;
    assert page.messages[|before|] == Message(FromUser, line);
    assert page.messages[|before| + 1].from == FromBot;
    assert page.input == "";
  }

  /** A client: a blank message changes nothing. */
  method BlankSendScenario(store: LocalStore)
    requires LoadReports(store.items).Ok?
  {
    var page := new DashboardPage.Mount(store);
    page.SetInput("   ");
    SpacesBlank();
    page.Send();
    assert |page.messages| == 1 && page.input == "   ";
  }
}
