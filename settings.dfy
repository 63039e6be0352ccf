/**
 * The settings page: a record of switches and one choice, the toast that
 * names a changed switch in words, the profile read from the store, and
 * logging out, which wipes the store.
 */
module Settings {
  import opened Text
  import opened Json
  import opened Storage

  /** A setting is a switch or, for the retention period, a named choice. */
  datatype SettingValue = Flag(on: bool) | Choice(name: string)

  /** The settings as the page first renders them. */
  const DefaultSettings: map<string, SettingValue> := map[
    "dataSharing" := Flag(false),
    "notifications" := Flag(true),
    "darkMode" := Flag(false),
    "wearableSync" := Flag(false),
    "professionalHelp" := Flag(true),
    "dataRetention" := Choice("1year"),
    "emergencyContact" := Flag(true)
  ]

  /** `{...prev, [key]: value}`: the record with `key` set to the switch's new position, added if it was not there. */
  function UpdateSetting(settings: map<string, SettingValue>, key: string, value: bool): (r: map<string, SettingValue>)
    ensures key in r && r[key] == Flag(value)
    ensures forall k :: k != key ==> (k in r <==> k in settings) && (k in settings ==> r[k] == settings[k])
  {
    settings[key := Flag(value)]
  }

  /* ---------------- the label of a key ---------------- */

  /** `replace(/([A-Z])/g, ' $1')`: a space in front of every capital letter. */
  function SpaceBeforeCapitals(s: string): (r: string)
    ensures |r| >= |s|
  {
    if s == [] then []
    else (if IsUpper(s[0]) then [' ', s[0]] else [s[0]]) + SpaceBeforeCapitals(s[1..])
  }

  /** The words a camel-case key is shown as. */
  function Label(key: string): (r: string)
    ensures |r| >= |key|
  {
    ToLower(SpaceBeforeCapitals(key))
  }

  /** The label, one character of the key at a time. */
  lemma LabelCons(c: char, rest: string)
    ensures Label([c] + rest) == (if IsUpper(c) then [' ', LowerChar(c)] else [c]) + Label(rest)
  {
    assert ([c] + rest)[1..] == rest;
    ToLowerAppend(if IsUpper(c) then [' ', c] else [c], SpaceBeforeCapitals(rest));
  }

  /** The label has no capital letters. */
  lemma LabelLowerCase(key: string)
    ensures forall i :: 0 <= i < |Label(key)| ==> !IsUpper(Label(key)[i])
  {
  }

  /** Upper-cases an ASCII lower-case letter. */
  function UpperChar(c: char): char
  {
    if 'a' <= c <= 'z' then (c as int - 32) as char else c
  }

  /** Back from words to a camel-case key: a space and the letter after it become that letter in capitals. */
  function Camelize(t: string): string
  {
    if t == [] then []
    else if t[0] == ' ' && |t| >= 2 then [UpperChar(t[1])] + Camelize(t[2..])
    else [t[0]] + Camelize(t[1..])
  }

  /** No two such keys share a label: the label can be read back into the key. */
  lemma {:induction false} CamelizeLabel(key: string)
    requires forall i :: 0 <= i < |key| ==> key[i] != ' '
    ensures Camelize(Label(key)) == key
  {
    if key != [] {
      var c, rest := key[0], key[1..];
      assert key == [c] + rest;
      LabelCons(c, rest);
      CamelizeLabel(rest);
      var l := Label(key);
      if IsUpper(c) {
        assert l[2..] == Label(rest);
      } else {
        assert l[1..] == Label(rest);
      }
    }
  }

  /** Two keys without spaces are shown with the same label only when they are the same key. */
  lemma LabelInjective(k1: string, k2: string)
    requires forall i :: 0 <= i < |k1| ==> k1[i] != ' '
    requires forall i :: 0 <= i < |k2| ==> k2[i] != ' '
    ensures Label(k1) == Label(k2) <==> k1 == k2
  {
    CamelizeLabel(k1);
    CamelizeLabel(k2);
  }

  lemma {:induction false} SpaceBeforeCapitalsAppend(a: string, b: string)
    ensures SpaceBeforeCapitals(a + b) == SpaceBeforeCapitals(a) + SpaceBeforeCapitals(b)
  {
    if a == [] {
      assert a + b == b;
    } else {
      var head := if IsUpper(a[0]) then [' ', a[0]] else [a[0]];
      assert (a + b)[0] == a[0] && (a + b)[1..] == a[1..] + b;
      SpaceBeforeCapitalsAppend(a[1..], b);
      assert SpaceBeforeCapitals(a + b) == head + (SpaceBeforeCapitals(a[1..]) + SpaceBeforeCapitals(b));
      assert SpaceBeforeCapitals(a) == head + SpaceBeforeCapitals(a[1..]);
      assert head + (SpaceBeforeCapitals(a[1..]) + SpaceBeforeCapitals(b))
        == (head + SpaceBeforeCapitals(a[1..])) + SpaceBeforeCapitals(b);
    }
  }

  /** The label of a run without capitals is the run itself. */
  lemma {:induction false} LabelNoCapitals(s: string)
    requires forall i :: 0 <= i < |s| ==> !IsUpper(s[i])
    ensures Label(s) == s
  {
    if s != [] {
      LabelNoCapitals(s[1..]);
      LabelCons(s[0], s[1..]);
      assert [s[0]] + s[1..] == s;
    }
  }

  /** The label of a key that joins two words. */
  lemma LabelTwoWords(w1: string, c: char, w2: string)
    requires IsUpper(c)
    requires forall i :: 0 <= i < |w1| ==> !IsUpper(w1[i])
    requires forall i :: 0 <= i < |w2| ==> !IsUpper(w2[i])
    ensures Label(w1 + [c] + w2) == w1 + [' ', LowerChar(c)] + w2
  {
    var tail := [c] + w2;
    assert w1 + [c] + w2 == w1 + tail;
    SpaceBeforeCapitalsAppend(w1, tail);
    ToLowerAppend(SpaceBeforeCapitals(w1), SpaceBeforeCapitals(tail));
    assert Label(w1 + tail) == Label(w1) + Label(tail);
    LabelNoCapitals(w1);
    LabelCons(c, w2);
    LabelNoCapitals(w2);
    assert Label(tail) == [' ', LowerChar(c)] + w2;
  }

  /** The two keys shown as examples of the toast's wording. */
  lemma LabelExamples()
    ensures Label("dataSharing") == "data sharing"
    ensures Label("wearableSync") == "wearable sync"
  {
    var s := 'S';
    assert LowerChar(s) == 's';
    LabelTwoWords("data", s, "haring");
    assert "data" + [s] + "haring" == "dataSharing";
    assert "data" + [' ', 's'] + "haring" == "data sharing";
    LabelTwoWords("wearable", s, "ync");
    assert "wearable" + [s] + "ync" == "wearableSync";
    assert "wearable" + [' ', 's'] + "ync" == "wearable sync";
  }

  /** The toast after a switch changes. */
  function ToastText(key: string, value: bool): (r: string)
    ensures Label(key) <= r
    ensures value ==> r == Label(key) + " has been enabled."
    ensures !value ==> r == Label(key) + " has been disabled."
  {
    Label(key) + " has been " + (if value then "enabled" else "disabled") + "."
  }

  /** The page's state. */
  class SettingsPage {
    const store: LocalStore
    var settings: map<string, SettingValue>
    var user: User

    /** Mounting: the default record and the `user` effect. */
    constructor Mount(store: LocalStore)
      ensures this.store == store
      ensures settings == DefaultSettings
      ensures user == LoadUser(store.items)
    {
      this.store := store;
      settings := DefaultSettings;
      user := LoadUser(store.items);
    }

    /** `handleSettingChange`: one switch moves and the toast names it. */
    method ChangeSetting(key: string, value: bool) returns (toast: string)
      modifies this
      ensures settings == UpdateSetting(old(settings), key, value)
      ensures toast == ToastText(key, value)
      ensures user == old(user)
    {
      settings := settings[key := Flag(value)];
      toast := ToastText(key, value);
    }

    /** `handleLogout`: everything the browser kept for the app is gone. */
    method Logout()
      modifies store
      ensures store.items == map[]
    {
      store.Clear();
    }
  }
}
