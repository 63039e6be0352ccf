/**
 * The daily check-in form: its sliders and text fields, the two small
 * classifiers that decorate the mood and stress cards, and the submit
 * handler, which leaves the trimmed note and the night's sleep in the store
 * for the dashboard.
 *
 * The sleep slider moves in steps of half an hour, so a sleep value is kept
 * as a whole number of half-hours: `14` is 7 hours and `15` is 7.5 hours.
 */
module DailyCheckin {
  import opened Wrappers
  import opened Text
  import opened Storage

  /* ---------------- sleep as text ---------------- */

  /** `String(x)` for `x` = `h` half-hours: the whole hours, then ".5" for an odd count. */
  function SleepText(h: nat): (r: string)
    ensures r != [] && IsDigit(r[0])
    ensures h % 2 == 1 ==> |r| >= 3 && r[|r| - 2..] == ".5"
    ensures h % 2 == 0 ==> AllDigits(r)
  {
    NatToString(h / 2) + (if h % 2 == 1 then ".5" else "")
  }

  predicate AllDigits(s: string) {
    forall i :: 0 <= i < |s| ==> IsDigit(s[i])
  }

  /** Reads a sleep value back from its text: digits, optionally followed by ".5". */
  function ParseSleep(s: string): Option<nat>
  {
    if |s| >= 3 && s[|s| - 2..] == ".5" && AllDigits(s[..|s| - 2]) then
      Some(2 * DigitsValue(s[..|s| - 2]) + 1)
    else if s != [] && AllDigits(s) then
      Some(2 * DigitsValue(s))
    else None
  }

  /** The stored sleep text reads back as the value the slider held. */
  lemma SleepTextRoundTrip(h: nat)
    ensures ParseSleep(SleepText(h)) == Some(h)
  {
    var d := NatToString(h / 2);
    NatToStringValue(h / 2);
    var s := SleepText(h);
    if h % 2 == 1 {
      assert s[..|s| - 2] == d;
      assert s[|s| - 2..] == ".5";
    } else {
      assert s == d;
      if |s| >= 2 {
        assert IsDigit(s[|s| - 2]);
        assert s[|s| - 2..][0] == s[|s| - 2];
      }
    }
  }

  /** Different sleep values are stored as different texts. */
  lemma SleepTextInjective(h1: nat, h2: nat)
    ensures SleepText(h1) == SleepText(h2) <==> h1 == h2
  {
    SleepTextRoundTrip(h1);
    SleepTextRoundTrip(h2);
  }

  lemma SleepTextExamples()
    ensures SleepText(14) == "7" && SleepText(15) == "7.5" && SleepText(24) == "12"
  {
    assert NatToString(7) == "7";
    assert NatToString(1) == "1" && NatToString(2) == "2";
    assert NatToString(12) == NatToString(1) + ['2'];
  }

  /* ---------------- mood emoji ---------------- */

  /** The ten mood faces, from terrible to amazing. */
  const MoodEmojis: seq<string> :=
    ["\U{1F622}", "\U{1F61F}", "\U{1F610}", "\U{1F642}", "\U{1F60A}",
     "\U{1F604}", "\U{1F929}", "\U{1F973}", "\U{1F31F}", "\U{2728}"]

  /** The face shown when the index falls outside the list. */
  const NeutralFace: string := "\U{1F610}"

  /**
   * `getMoodEmoji`: the entry at `min(value - 1, 9)`; a negative index reads
   * `undefined`, which `||` replaces with the neutral face.
   */
  function MoodEmoji(value: int): (r: string)
    ensures 1 <= value <= 10 ==> r == MoodEmojis[value - 1]
    ensures value > 10 ==> r == MoodEmojis[9]
    ensures value <= 0 ==> r == NeutralFace
  {
    var i := if value - 1 < 9 then value - 1 else 9;
    if 0 <= i then MoodEmojis[i] else NeutralFace
  }

  /** Every slider position from 1 to 10 shows its own face, and anything above 10 shows the last one. */
  lemma MoodEmojiDistinct(v: int, w: int)
    requires 1 <= v <= 10 && 1 <= w <= 10
    ensures MoodEmoji(v) == MoodEmoji(w) <==> v == w
    ensures MoodEmoji(v + 10) == MoodEmoji(10)
  {
    assert forall i, j :: 0 <= i < j < 10 ==> MoodEmojis[i][0] != MoodEmojis[j][0];
    if MoodEmoji(v) == MoodEmoji(w) {
      assert MoodEmojis[v - 1][0] == MoodEmojis[w - 1][0];
    }
  }

  /* ---------------- stress colour ---------------- */

  const StressLow: string := "text-success"
  const StressMedium: string := "text-warning"
  const StressHigh: string := "text-destructive"

  /** `getStressColor`: three bands with upper bounds 3 and 6. */
  function StressColor(value: int): (r: string)
    ensures r == StressLow <==> value <= 3
    ensures r == StressMedium <==> 3 < value <= 6
    ensures r == StressHigh <==> 6 < value
  {
    if value <= 3 then StressLow
    else if value <= 6 then StressMedium
    else StressHigh
  }

  /** The face on the stress card, using the same thresholds inline. */
  function StressEmoji(value: int): (r: string)
    ensures r == "\U{1F60C}" <==> StressColor(value) == StressLow
    ensures r == "\U{1F630}" <==> StressColor(value) == StressMedium
    ensures r == "\U{1F635}" <==> StressColor(value) == StressHigh
  {
    if value <= 3 then "\U{1F60C}" else if value <= 6 then "\U{1F630}" else "\U{1F635}"
  }

  /** How alarming a stress colour is, from 0 to 2. */
  function Severity(color: string): nat
  {
    if color == StressLow then 0 else if color == StressMedium then 1 else 2
  }

  /** A higher stress value never gets a calmer colour. */
  lemma StressColorMonotone(v: int, w: int)
    requires v <= w
    ensures Severity(StressColor(v)) <= Severity(StressColor(w))
  {
  }

  /** The card's face and its colour change at the same values. */
  lemma StressEmojiAgrees(v: int, w: int)
    ensures StressEmoji(v) == StressEmoji(w) <==> StressColor(v) == StressColor(w)
  {
    assert "\U{1F60C}" != "\U{1F630}" && "\U{1F60C}" != "\U{1F635}" && "\U{1F630}" != "\U{1F635}";
  }

  /* ---------------- submitting ---------------- */

  /**
   * What a submit does to the store: the trimmed note under
   * `dashboardFeedback` when it has visible text, and the first sleep value
   * under `dashboardSleep` when the slider holds one.
   */
  function SubmitEffect(items: map<string, string>, notes: string, sleep: seq<nat>): (r: map<string, string>)
    ensures forall k :: k != FeedbackKey && k != SleepKey ==>
      (k in r <==> k in items) && (k in items ==> r[k] == items[k])
    ensures Trim(notes) != "" ==> FeedbackKey in r && r[FeedbackKey] == Trim(notes)
    ensures Trim(notes) == "" ==>
      (FeedbackKey in r <==> FeedbackKey in items) && (FeedbackKey in items ==> r[FeedbackKey] == items[FeedbackKey])
    ensures |sleep| > 0 ==> SleepKey in r && r[SleepKey] == SleepText(sleep[0])
    ensures |sleep| == 0 ==>
      (SleepKey in r <==> SleepKey in items) && (SleepKey in items ==> r[SleepKey] == items[SleepKey])
  {
    assert FeedbackKey != SleepKey by {
      assert FeedbackKey[9] != SleepKey[9];
    }
    var withNote := if Trim(notes) != "" then items[FeedbackKey := Trim(notes)] else items;
    if |sleep| > 0 then withNote[SleepKey := SleepText(sleep[0])] else withNote
  }

  /** The check-in form's state. */
  class CheckinForm {
    var sleep: seq<nat>
    var mood: seq<int>
    var stress: seq<int>
    var energy: seq<int>
    var workHours: string
    var exercise: string
    var socialInteractions: seq<int>
    var notes: string

    /** The form as it first renders. */
    constructor ()
      ensures sleep == [14] && mood == [5] && stress == [3] && energy == [6]
      ensures workHours == "" && exercise == "" && socialInteractions == [3] && notes == ""
    {
      sleep := [14];
      mood := [5];
      stress := [3];
      energy := [6];
      workHours := "";
      exercise := "";
      socialInteractions := [3];
      notes := "";
    }

    /** The sleep slider's `onValueChange`. */
    method SetSleep(value: seq<nat>)
      modifies this
      ensures sleep == value && notes == old(notes)
      ensures mood == old(mood) && stress == old(stress) && energy == old(energy)
      ensures workHours == old(workHours) && exercise == old(exercise) && socialInteractions == old(socialInteractions)
    {
      sleep := value;
    }

    /** The notes field's `onChange`. */
    method SetNotes(value: string)
      modifies this
      ensures notes == value && sleep == old(sleep)
      ensures mood == old(mood) && stress == old(stress) && energy == old(energy)
      ensures workHours == old(workHours) && exercise == old(exercise) && socialInteractions == old(socialInteractions)
    {
      notes := value;
    }

    /** `handleSubmit`: the two conditional writes, in the page's order. */
    method Submit(store: LocalStore)
      modifies store
      ensures store.items == SubmitEffect(old(store.items), notes, sleep)
    {
      ghost var before := store.items;
      var note := Trim(notes);
      if note != "" {
        store.SetItem(FeedbackKey, note);
      }
      ghost var withNote := store.items;
      assert withNote == if note != "" then before[FeedbackKey := note] else before;
      if |sleep| > 0 {
        store.SetItem(SleepKey, SleepText(sleep[0]));
      }
      assert store.items == if |sleep| > 0 then withNote[SleepKey := SleepText(sleep[0])] else withNote;
    }
  }
}
