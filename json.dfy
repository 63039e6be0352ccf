/**
 * The JSON texts the pages keep in the store: the list of report
 * attachments under `reports` and the profile under `user`.
 *
 * `Encode*` produce exactly what `JSON.stringify` writes for these values
 * (keys in declaration order, no whitespace, the string escapes of
 * `JSON.stringify`). `Decode*` read that canonical form back and answer
 * `None` for anything else, which is how the pages see a value that
 * `JSON.parse` rejects.
 */
module Json {
  import opened Wrappers

  /** One uploaded file: its name and the object URL made for it. */
  datatype Report = Report(name: string, url: string)

  /** The profile shown in the sidebar, the greeting and the settings page. */
  datatype User = User(firstName: string, lastName: string, email: string)

  /* ---------------- strings ---------------- */

  function HexDigit(d: nat): (c: char)
    requires d < 16
    ensures IsHex(c) && HexValue(c) == d
  {
    if d < 10 then ('0' as int + d) as char else ('a' as int + d - 10) as char
  }

  /** The lower-case hexadecimal digits `JSON.stringify` writes. */
  predicate IsHex(c: char) {
    '0' <= c <= '9' || 'a' <= c <= 'f'
  }

  function HexValue(c: char): nat
    requires IsHex(c)
  {
    if c <= '9' then c as int - '0' as int else c as int - 'a' as int + 10
  }

  /** How `JSON.stringify` writes one code point inside a string literal. */
  function EscapeChar(c: char): string
  {
    if c == '"' then "\\\""
    else if c == '\\' then "\\\\"
    else if c == '\U{0008}' then "\\b"
    else if c == '\t' then "\\t"
    else if c == '\n' then "\\n"
    else if c == '\U{000C}' then "\\f"
    else if c == '\r' then "\\r"
    else if c < ' ' then "\\u00" + [HexDigit(c as int / 16), HexDigit(c as int % 16)]
    else [c]
  }

  function Escape(s: string): string
  {
    if s == [] then [] else EscapeChar(s[0]) + Escape(s[1..])
  }

  /** A JSON string literal. */
  function Quote(s: string): string
  {
    "\"" + Escape(s) + "\""
  }

  /** Reads the escape after a backslash; the code point and what follows it. */
  function Unescape(t: string): (r: Option<(char, string)>)
    ensures r.Some? ==> |r.value.1| < |t|
  {
    if t == [] then None
    else if t[0] == '"' then Some(('"', t[1..]))
    else if t[0] == '\\' then Some(('\\', t[1..]))
    else if t[0] == 'b' then Some(('\U{0008}', t[1..]))
    else if t[0] == 't' then Some(('\t', t[1..]))
    else if t[0] == 'n' then Some(('\n', t[1..]))
    else if t[0] == 'f' then Some(('\U{000C}', t[1..]))
    else if t[0] == 'r' then Some(('\r', t[1..]))
    else if |t| >= 5 && t[..3] == "u00" && IsHex(t[3]) && IsHex(t[4])
            && HexValue(t[3]) * 16 + HexValue(t[4]) < 32
            && HexValue(t[3]) * 16 + HexValue(t[4]) !in {8, 9, 10, 12, 13}
    then Some(((HexValue(t[3]) * 16 + HexValue(t[4])) as char, t[5..]))
    else None
  }

  /** Reads the body of a string literal up to and including its closing quote. */
  function ParseBody(t: string): (r: Option<(string, string)>)
    ensures r.Some? ==> |r.value.1| < |t|
    decreases |t|
  {
    if t == [] then None
    else if t[0] == '"' then Some(([], t[1..]))
    else if t[0] == '\\' then
      var e :- Unescape(t[1..]);
      var b :- ParseBody(e.1);
      Some(([e.0] + b.0, b.1))
    else if t[0] < ' ' then None
    else
      var b :- ParseBody(t[1..]);
      Some(([t[0]] + b.0, b.1))
  }

  /** Reads a string literal. */
  function ParseString(t: string): (r: Option<(string, string)>)
    ensures r.Some? ==> |r.value.1| < |t|
  {
    if t != [] && t[0] == '"' then ParseBody(t[1..]) else None
  }

  /** Reads the fixed text `lit`. */
  function Expect(lit: string, t: string): (r: Option<string>)
    ensures r.Some? <==> lit <= t
    ensures r.Some? ==> r.value == t[|lit|..]
  {
    if lit <= t then Some(t[|lit|..]) else None
  }

  lemma ExpectLit(lit: string, rest: string)
    ensures Expect(lit, lit + rest) == Some(rest)
  {
    assert (lit + rest)[|lit|..] == rest;
  }

  lemma ParseBodyEscapeChar(c: char, u: string)
    ensures ParseBody(EscapeChar(c) + u) ==
      match ParseBody(u)
      case None => None
      case Some(b) => Some(([c] + b.0, b.1))
  {
    if c == '"' || c == '\\' || c == '\U{0008}' || c == '\t' || c == '\n' || c == '\U{000C}' || c == '\r' {
      ParseBodyShortEscape(c, u);
    } else if c < ' ' {
      ParseBodyHexEscape(c, u);
    } else {
      assert (EscapeChar(c) + u)[1..] == u;
    }
  }

  /** A character written as a backslash and one letter. */
  lemma ParseBodyShortEscape(c: char, u: string)
    requires c == '"' || c == '\\' || c == '\U{0008}' || c == '\t' || c == '\n' || c == '\U{000C}' || c == '\r'
    ensures ParseBody(EscapeChar(c) + u) ==
      match ParseBody(u)
      case None => None
      case Some(b) => Some(([c] + b.0, b.1))
  {
    var t := EscapeChar(c) + u;
    assert t[1..][1..] == u;
  }

  /** A control character written as `\u00` and two hexadecimal digits. */
  lemma ParseBodyHexEscape(c: char, u: string)
    requires c < ' ' && c !in {'\U{0008}', '\t', '\n', '\U{000C}', '\r'}
    ensures ParseBody(EscapeChar(c) + u) ==
      match ParseBody(u)
      case None => None
      case Some(b) => Some(([c] + b.0, b.1))
  {
    var t := EscapeChar(c) + u;
    var h1, h2 := HexDigit(c as int / 16), HexDigit(c as int % 16);
    assert t[1..][..3] == "u00" && t[1..][3] == h1 && t[1..][4] == h2;
    assert t[1..][5..] == u;
    assert (HexValue(h1) * 16 + HexValue(h2)) as char == c;
  }

  /** Reading an escaped string back up to its closing quote gives the string and leaves what follows. */
  lemma {:induction false} ParseBodyEscape(s: string, rest: string)
    ensures ParseBody(Escape(s) + "\"" + rest) == Some((s, rest))
    decreases |s|
  {
    if s == [] {
      assert Escape(s) + "\"" + rest == "\"" + rest;
    } else {
      assert Escape(s) + "\"" + rest == EscapeChar(s[0]) + (Escape(s[1..]) + "\"" + rest);
      ParseBodyEscapeChar(s[0], Escape(s[1..]) + "\"" + rest);
      ParseBodyEscape(s[1..], rest);
      assert [s[0]] + s[1..] == s;
    }
  }

  /** A string literal reads back as the string it quotes. */
  lemma ParseStringQuote(s: string, rest: string)
    ensures ParseString(Quote(s) + rest) == Some((s, rest))
  {
    var t := Quote(s) + rest;
    assert t[1..] == Escape(s) + "\"" + rest;
    ParseBodyEscape(s, rest);
  }

  lemma UnescapeCanonical(u: string)
    requires Unescape(u).Some?
    ensures var e := Unescape(u).value;
      |EscapeChar(e.0)| >= 1 && EscapeChar(e.0)[0] == '\\' && u == EscapeChar(e.0)[1..] + e.1
  {
    if u[0] == 'u' {
      UnescapeHexCanonical(u);
    } else {
      assert u == [u[0]] + u[1..];
    }
  }

  /** The `\u00` case: the two digits read are the ones `EscapeChar` writes for the code point. */
  lemma UnescapeHexCanonical(u: string)
    requires Unescape(u).Some? && u[0] == 'u'
    ensures var e := Unescape(u).value;
      |EscapeChar(e.0)| >= 1 && EscapeChar(e.0)[0] == '\\' && u == EscapeChar(e.0)[1..] + e.1
  {
    var v := HexValue(u[3]) * 16 + HexValue(u[4]);
    assert Unescape(u).value == (v as char, u[5..]);
    EscapeHex(v as char);
    assert HexDigit(v / 16) == u[3] by { HexInjective(HexDigit(v / 16), u[3]); }
    assert HexDigit(v % 16) == u[4] by { HexInjective(HexDigit(v % 16), u[4]); }
    assert u == "\\u00"[1..] + [u[3], u[4]] + u[5..];
  }

  /** A control character without a short escape is written as `\u00` and its two hexadecimal digits. */
  lemma EscapeHex(c: char)
    requires c < ' ' && c !in {'\U{0008}', '\t', '\n', '\U{000C}', '\r'}
    ensures EscapeChar(c) == "\\u00" + [HexDigit(c as int / 16), HexDigit(c as int % 16)]
  {
  }

  lemma HexInjective(a: char, b: char)
    requires IsHex(a) && IsHex(b) && HexValue(a) == HexValue(b)
    ensures a == b
  {
  }

  lemma EscapeCons(c: char, s: string)
    ensures Escape([c] + s) == EscapeChar(c) + Escape(s)
  {
    assert ([c] + s)[1..] == s;
  }

  /** The only texts the string reader accepts are the ones `Escape` writes. */
  lemma {:induction false} ParseBodyCanonical(t: string)
    requires ParseBody(t).Some?
    ensures var b := ParseBody(t).value; t == Escape(b.0) + "\"" + b.1
    decreases |t|
  {
    var b := ParseBody(t).value;
    if t[0] == '"' {
      assert t == "\"" + t[1..];
    } else if t[0] == '\\' {
      ParseBodyEscaped(t);
    } else {
      var b' := ParseBody(t[1..]).value;
      ParseBodyCanonical(t[1..]);
      assert b.0 == [t[0]] + b'.0 && b.1 == b'.1;
      EscapeCons(t[0], b'.0);
      assert t == [t[0]] + t[1..];
    }
  }

  /** How the reader goes on after a backslash. */
  lemma ParseBodyBackslash(t: string)
    requires ParseBody(t).Some? && t[0] == '\\'
    ensures Unescape(t[1..]).Some?
    ensures var e := Unescape(t[1..]).value;
      && ParseBody(e.1).Some?
      && ParseBody(t).value == ([e.0] + ParseBody(e.1).value.0, ParseBody(e.1).value.1)
  {
  }

  lemma {:induction false} ParseBodyEscaped(t: string)
    requires ParseBody(t).Some? && t[0] == '\\'
    ensures var b := ParseBody(t).value; t == Escape(b.0) + "\"" + b.1
    decreases |t|, 0
  {
    ParseBodyBackslash(t);
    var b := ParseBody(t).value;
    var e := Unescape(t[1..]).value;
    var b' := ParseBody(e.1).value;
    UnescapeCanonical(t[1..]);
    ParseBodyCanonical(e.1);
    EscapeCons(e.0, b'.0);
    Assemble(t, EscapeChar(e.0), e.1, Escape(b'.0), b.1, Escape(b.0));
  }

  /** The text around an escape, reassembled. */
  lemma Assemble(t: string, ec: string, u: string, body: string, rest: string, whole: string)
    requires |ec| >= 1 && |t| >= 1 && t[0] == ec[0] && t[1..] == ec[1..] + u
    requires u == body + "\"" + rest && whole == ec + body
    ensures t == whole + "\"" + rest
  {
    JoinAfterFirst(t, ec, u);
  }

  /** A text whose first character starts `head` and whose remainder is the rest of `head` followed by `tail`. */
  lemma JoinAfterFirst(t: string, head: string, tail: string)
    requires |head| >= 1 && |t| >= 1 && t[0] == head[0] && t[1..] == head[1..] + tail
    ensures t == head + tail
  {
    assert t == [t[0]] + t[1..];
    assert head == [head[0]] + head[1..];
  }

  lemma ParseStringCanonical(t: string)
    requires ParseString(t).Some?
    ensures var b := ParseString(t).value; t == Quote(b.0) + b.1
  {
    ParseBodyCanonical(t[1..]);
    assert t == [t[0]] + t[1..];
  }

  /* ---------------- reports ---------------- */

  /** `JSON.stringify({ name, url })`. */
  function EncodeReport(r: Report): string
  {
    "{\"name\":" + (Quote(r.name) + (",\"url\":" + (Quote(r.url) + "}")))
  }

  function ParseReport(t: string): (r: Option<(Report, string)>)
    ensures r.Some? ==> |r.value.1| < |t|
  {
    var t1 :- Expect("{\"name\":", t);
    var n :- ParseString(t1);
    var t2 :- Expect(",\"url\":", n.1);
    var u :- ParseString(t2);
    var t3 :- Expect("}", u.1);
    Some((Report(n.0, u.0), t3))
  }

  lemma ParseReportEncode(r: Report, rest: string)
    ensures ParseReport(EncodeReport(r) + rest) == Some((r, rest))
  {
    var a, b, c := "{\"name\":", ",\"url\":", "}";
    var qn, qu := Quote(r.name), Quote(r.url);
    assert EncodeReport(r) + rest == a + (qn + (b + (qu + (c + rest))));
    ExpectLit(a, qn + (b + (qu + (c + rest))));
    ParseStringQuote(r.name, b + (qu + (c + rest)));
    ExpectLit(b, qu + (c + rest));
    ParseStringQuote(r.url, c + rest);
    ExpectLit(c, rest);
  }

  lemma ParseReportCanonical(t: string)
    requires ParseReport(t).Some?
    ensures var p := ParseReport(t).value; t == EncodeReport(p.0) + p.1
  {
    var a, b, c := "{\"name\":", ",\"url\":", "}";
    var t1 := Expect(a, t).value;
    var n := ParseString(t1).value;
    var t2 := Expect(b, n.1).value;
    var u := ParseString(t2).value;
    var t3 := Expect(c, u.1).value;
    assert ParseReport(t).value == (Report(n.0, u.0), t3);
    ParseStringCanonical(t1);
    ParseStringCanonical(t2);
    assert t == a + t1 && n.1 == b + t2 && u.1 == c + t3;
    AssembleReport(t, a, Quote(n.0), b, Quote(u.0), c, t1, n.1, t2, u.1, t3);
  }

  /** The five pieces of a report object, read one after another, reassembled around what follows them. */
  lemma AssembleReport(t: string, a: string, qn: string, b: string, qu: string, c: string,
                       t1: string, n1: string, t2: string, u1: string, t3: string)
    requires t == a + t1 && t1 == qn + n1 && n1 == b + t2 && t2 == qu + u1 && u1 == c + t3
    ensures t == (a + (qn + (b + (qu + c)))) + t3
  {
    assert u1 == c + t3;
    assert t2 == (qu + c) + t3;
    assert n1 == (b + (qu + c)) + t3;
    assert t1 == (qn + (b + (qu + c))) + t3;
  }

  /** `JSON.stringify` of a list of reports. */
  function EncodeReports(rs: seq<Report>): string
  {
    "[" + EncodeItems(rs) + "]"
  }

  function EncodeItems(rs: seq<Report>): string
  {
    if rs == [] then "" else EncodeReport(rs[0]) + EncodeTail(rs[1..])
  }

  /** The reports after the first, each preceded by a comma. */
  function EncodeTail(rs: seq<Report>): string
  {
    if rs == [] then "" else "," + (EncodeReport(rs[0]) + EncodeTail(rs[1..]))
  }

  /** Reads `,item` repeatedly up to and including the closing bracket. */
  function ParseTail(t: string): (r: Option<(seq<Report>, string)>)
    ensures r.Some? ==> |r.value.1| < |t|
    decreases |t|
  {
    if t != [] && t[0] == ']' then Some(([], t[1..]))
    else if t != [] && t[0] == ',' then
      var p :- ParseReport(t[1..]);
      var q :- ParseTail(p.1);
      Some(([p.0] + q.0, q.1))
    else None
  }

  /** `JSON.parse` of a report list, restricted to the canonical form. */
  function DecodeReports(t: string): Option<seq<Report>>
  {
    var t1 :- Expect("[", t);
    if t1 == "]" then Some([])
    else
      var p :- ParseReport(t1);
      var q :- ParseTail(p.1);
      if q.1 == [] then Some([p.0] + q.0) else None
  }

  lemma {:induction false} ParseTailEncode(rs: seq<Report>, rest: string)
    ensures ParseTail(EncodeTail(rs) + "]" + rest) == Some((rs, rest))
    decreases |rs|
  {
    var t := EncodeTail(rs) + "]" + rest;
    if rs == [] {
      assert t == "]" + rest;
      assert t[1..] == rest;
    } else {
      var x := EncodeReport(rs[0]);
      var more := EncodeTail(rs[1..]) + "]" + rest;
      assert EncodeTail(rs) == "," + (x + EncodeTail(rs[1..]));
      assert t == "," + (x + more);
      assert t[0] == ',' && t[1..] == x + more;
      ParseReportEncode(rs[0], more);
      ParseTailEncode(rs[1..], rest);
      assert [rs[0]] + rs[1..] == rs;
    }
  }

  lemma {:induction false} ParseTailCanonical(t: string)
    requires ParseTail(t).Some?
    ensures var q := ParseTail(t).value; t == EncodeTail(q.0) + "]" + q.1
    decreases |t|
  {
    var q := ParseTail(t).value;
    if t[0] == ']' {
      assert t == "]" + t[1..];
    } else {
      var p := ParseReport(t[1..]).value;
      var q' := ParseTail(p.1).value;
      ParseReportCanonical(t[1..]);
      ParseTailCanonical(p.1);
      assert q.0 == [p.0] + q'.0 && q.1 == q'.1;
      EncodeTailCons(p.0, q'.0);
      AssembleTail(t, EncodeReport(p.0), EncodeTail(q'.0), q.1, EncodeTail(q.0));
    }
  }

  lemma EncodeTailCons(r: Report, rs: seq<Report>)
    ensures EncodeTail([r] + rs) == "," + (EncodeReport(r) + EncodeTail(rs))
  {
    assert ([r] + rs)[1..] == rs;
  }

  /** The text after a comma, reassembled. */
  lemma AssembleTail(t: string, item: string, more: string, rest: string, whole: string)
    requires |t| >= 1 && t[0] == ',' && t[1..] == item + (more + "]" + rest)
    requires whole == "," + (item + more)
    ensures t == whole + "]" + rest
  {
    assert t == [t[0]] + t[1..];
  }

  /** Every report list survives a write and a read of the `reports` value. */
  lemma DecodeEncodeReports(rs: seq<Report>)
    ensures DecodeReports(EncodeReports(rs)) == Some(rs)
  {
    var t := EncodeReports(rs);
    ExpectLit("[", EncodeItems(rs) + "]");
    assert t == "[" + (EncodeItems(rs) + "]");
    if rs != [] {
      var more := EncodeTail(rs[1..]) + "]";
      assert EncodeItems(rs) + "]" == EncodeReport(rs[0]) + more;
      ParseReportEncode(rs[0], more);
      ParseTailEncode(rs[1..], "");
      assert more + "" == more;
      assert EncodeReport(rs[0]) + more != "]";
      assert [rs[0]] + rs[1..] == rs;
    }
  }

  /** A text the decoder accepts is the one `JSON.stringify` writes for the list it reads. */
  lemma DecodeReportsCanonical(t: string)
    requires DecodeReports(t).Some?
    ensures t == EncodeReports(DecodeReports(t).value)
  {
    var t1 := Expect("[", t).value;
    assert t == "[" + t1;
    if t1 == "]" {
      assert EncodeReports([]) == "[" + "" + "]";
    } else {
      var p := ParseReport(t1).value;
      var q := ParseTail(p.1).value;
      var rs := [p.0] + q.0;
      assert DecodeReports(t).value == rs && q.1 == [];
      ParseReportCanonical(t1);
      ParseTailCanonical(p.1);
      assert rs[0] == p.0 && rs[1..] == q.0;
      AssembleList(t, t1, EncodeReport(p.0), p.1, EncodeTail(q.0), q.1);
    }
  }

  /** A bracket, the first item and the rest of the list, reassembled. */
  lemma AssembleList(t: string, t1: string, item: string, p1: string, tail: string, rest: string)
    requires t == "[" + t1 && t1 == item + p1 && p1 == tail + "]" + rest && rest == []
    ensures t == "[" + (item + tail) + "]"
  {
  }

  /** The decoder accepts exactly the texts `JSON.stringify` writes for a report list. */
  lemma DecodeReportsIff(t: string, rs: seq<Report>)
    ensures DecodeReports(t) == Some(rs) <==> t == EncodeReports(rs)
  {
    if t == EncodeReports(rs) {
      DecodeEncodeReports(rs);
    }
    if DecodeReports(t) == Some(rs) {
      DecodeReportsCanonical(t);
    }
  }

  /* ---------------- user ---------------- */

  /** `JSON.stringify({ firstName, lastName, email })`. */
  function EncodeUser(u: User): string
  {
    "{\"firstName\":" + (Quote(u.firstName) + (",\"lastName\":" + (Quote(u.lastName)
    + (",\"email\":" + (Quote(u.email) + "}")))))
  }

  /** `JSON.parse` of a profile, restricted to the canonical form. */
  function DecodeUser(t: string): Option<User>
  {
    var t1 :- Expect("{\"firstName\":", t);
    var f :- ParseString(t1);
    var t2 :- Expect(",\"lastName\":", f.1);
    var l :- ParseString(t2);
    var t3 :- Expect(",\"email\":", l.1);
    var e :- ParseString(t3);
    if e.1 == "}" then Some(User(f.0, l.0, e.0)) else None
  }

  /** Every profile survives a write and a read of the `user` value. */
  lemma DecodeEncodeUser(u: User)
    ensures DecodeUser(EncodeUser(u)) == Some(u)
  {
    var a, b, c, d := "{\"firstName\":", ",\"lastName\":", ",\"email\":", "}";
    var qf, ql, qe := Quote(u.firstName), Quote(u.lastName), Quote(u.email);
    ExpectLit(a, qf + (b + (ql + (c + (qe + d)))));
    ParseStringQuote(u.firstName, b + (ql + (c + (qe + d))));
    ExpectLit(b, ql + (c + (qe + d)));
    ParseStringQuote(u.lastName, c + (qe + d));
    ExpectLit(c, qe + d);
    ParseStringQuote(u.email, d);
  }

  /** A text the decoder accepts is the one `JSON.stringify` writes for the profile it reads. */
  lemma DecodeUserCanonical(t: string)
    requires DecodeUser(t).Some?
    ensures t == EncodeUser(DecodeUser(t).value)
  {
    var a, b, c, d := "{\"firstName\":", ",\"lastName\":", ",\"email\":", "}";
    var t1 := Expect(a, t).value;
    var f := ParseString(t1).value;
    var t2 := Expect(b, f.1).value;
    var l := ParseString(t2).value;
    var t3 := Expect(c, l.1).value;
    var e := ParseString(t3).value;
    assert DecodeUser(t).value == User(f.0, l.0, e.0);
    ParseStringCanonical(t1);
    ParseStringCanonical(t2);
    ParseStringCanonical(t3);
    assert t == a + t1 && f.1 == b + t2 && l.1 == c + t3 && e.1 == d;
    AssembleUser(t, a, Quote(f.0), b, Quote(l.0), c, Quote(e.0), d, t1, f.1, t2, l.1, t3);
  }

  /** The seven pieces of a profile object, read one after another, reassembled. */
  lemma AssembleUser(t: string, a: string, qf: string, b: string, ql: string, c: string, qe: string, d: string,
                     t1: string, f1: string, t2: string, l1: string, t3: string)
    requires t == a + t1 && t1 == qf + f1 && f1 == b + t2 && t2 == ql + l1 && l1 == c + t3 && t3 == qe + d
    ensures t == a + (qf + (b + (ql + (c + (qe + d)))))
  {
  }

  /** The decoder accepts exactly the texts `JSON.stringify` writes for a profile. */
  lemma DecodeUserIff(t: string, u: User)
    ensures DecodeUser(t) == Some(u) <==> t == EncodeUser(u)
  {
    if t == EncodeUser(u) {
      DecodeEncodeUser(u);
    }
    if DecodeUser(t) == Some(u) {
      DecodeUserCanonical(t);
    }
  }
}
