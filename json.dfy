/**
 * The part of JSON that the monitoring code relies on.
 *
 * `JSON.stringify` of a label set (a flat object of string values) is the
 * identity of a metric series, the key of a histogram's per-series maps and the
 * last component of an alert fingerprint; the histogram turns those keys back
 * into label sets with `JSON.parse`. This module renders label sets exactly as
 * `JSON.stringify` does, reads that text back, and proves the round trip and
 * hence that two label sets serialise alike exactly when they are equal
 * (same keys, same values, same order).
 *
 * It also renders general JSON-like values (`Value`), as the logger's
 * `JSON.stringify(meta)` does.
 */
module Json {
  import opened Wrappers
  import opened Records
  import Text

  /** Metric and alert labels: string keys to string values, in property order. */
  type Labels = Fields<string>

  // ---------------------------------------------------------------- strings

  function HexDigit(d: nat): (c: char)
    requires d < 16
  {
    if d < 10 then ('0' as int + d) as char else ('a' as int + d - 10) as char
  }

  function HexValue(c: char): Option<nat> {
    if '0' <= c <= '9' then Some(c as int - '0' as int)
    else if 'a' <= c <= 'f' then Some(c as int - 'a' as int + 10)
    else if 'A' <= c <= 'F' then Some(c as int - 'A' as int + 10)
    else None
  }

  /** How `JSON.stringify` writes one character inside a string literal. */
  function EscapeChar(c: char): (r: string)
    ensures 1 <= |r|
  {
    var n := c as int;
    if c == '"' then ['\\', '"']
    else if c == '\\' then ['\\', '\\']
    else if n == 8 then ['\\', 'b']
    else if n == 12 then ['\\', 'f']
    else if n == 10 then ['\\', 'n']
    else if n == 13 then ['\\', 'r']
    else if n == 9 then ['\\', 't']
    else if n < 0x20 then ['\\', 'u', '0', '0', HexDigit(n / 16), HexDigit(n % 16)]
    else [c]
  }

  function Escape(s: string): string {
    if s == [] then [] else EscapeChar(s[0]) + Escape(s[1..])
  }

  /** A JSON string literal: `JSON.stringify(s)` for a string `s`. */
  function Quote(s: string): string {
    "\"" + Escape(s) + "\""
  }

  /** The character a one-letter JSON escape (`\n`, `\"`, ...) stands for. */
  function ShortEscape(x: char): Option<char> {
    if x == '"' then Some('"')
    else if x == '\\' then Some('\\')
    else if x == '/' then Some('/')
    else if x == 'b' then Some(8 as char)
    else if x == 'f' then Some(12 as char)
    else if x == 'n' then Some(10 as char)
    else if x == 'r' then Some(13 as char)
    else if x == 't' then Some(9 as char)
    else None
  }

  /** The character of a `\uXXXX` escape, given its four hex digits. */
  function CodeUnit(a: char, b: char, c: char, d: char): Option<char> {
    match (HexValue(a), HexValue(b), HexValue(c), HexValue(d))
    case (Some(w), Some(x), Some(y), Some(z)) =>
      var code := ((w * 16 + x) * 16 + y) * 16 + z;
      if code < 0xD800 || 0xE000 <= code < 0x11_0000 then Some(code as char) else None
    case _ => None
  }

  /** The character a JSON escape sequence stands for; `s` starts after the backslash. */
  function ReadEscape(s: string): (r: Option<(char, string)>)
    ensures r.Some? ==> |r.value.1| < |s|
  {
    if s == [] then None
    else if ShortEscape(s[0]).Some? then Some((ShortEscape(s[0]).value, s[1..]))
    else if s[0] == 'u' && |s| >= 5 then
      match CodeUnit(s[1], s[2], s[3], s[4])
      case Some(c) => Some((c, s[5..]))
      case None => None
    else None
  }

  /**
   * Reads the rest of a JSON string literal whose opening quote has been
   * consumed: its decoded contents and the text after the closing quote.
   */
  function ReadString(s: string): (r: Option<(string, string)>)
    ensures r.Some? ==> |r.value.1| < |s|
    decreases |s|
  {
    if s == [] then None
    else if s[0] == '"' then Some(([], s[1..]))
    else if s[0] == '\\' then
      match ReadEscape(s[1..])
      case None => None
      case Some((c, rest)) =>
        match ReadString(rest)
        case None => None
        case Some((t, after)) => Some(([c] + t, after))
    else if (s[0] as int) < 0x20 then None
    else
      match ReadString(s[1..])
      case None => None
      case Some((t, after)) => Some(([s[0]] + t, after))
  }

  lemma HexRoundTrip(d: nat)
    requires d < 16
    ensures HexValue(HexDigit(d)) == Some(d)
  {
  }

  /** A backslash escape whose reading gives `c` in front of `t`. */
  lemma ReadBackslash(e: string, t: string, c: char)
    requires ReadEscape(e + t) == Some((c, t))
    requires ReadString(t).Some?
    ensures ReadString(['\\'] + e + t)
         == Some(([c] + ReadString(t).value.0, ReadString(t).value.1))
  {
    assert (['\\'] + e + t)[1..] == e + t;
  }

  lemma ReadShortEscape(x: char, t: string)
    requires ShortEscape(x).Some?
    ensures ReadEscape([x] + t) == Some((ShortEscape(x).value, t))
  {
    assert ([x] + t)[1..] == t;
  }

  lemma ReadControlEscape(c: char, t: string)
    requires (c as int) < 0x20
    ensures ReadEscape(['u', '0', '0', HexDigit(c as int / 16), HexDigit(c as int % 16)] + t)
         == Some((c, t))
  {
    var n := c as int;
    HexRoundTrip(n / 16);
    HexRoundTrip(n % 16);
    assert HexValue('0') == Some(0);
    assert CodeUnit('0', '0', HexDigit(n / 16), HexDigit(n % 16)) == Some(c);
    var s := ['u', '0', '0', HexDigit(n / 16), HexDigit(n % 16)] + t;
    assert s[1] == '0' && s[2] == '0' && s[3] == HexDigit(n / 16) && s[4] == HexDigit(n % 16);
    assert s[5..] == t;
  }

  /** Reading one escaped character in front of `t` prepends that character. */
  lemma ReadEscapedChar(c: char, t: string)
    requires ReadString(t).Some?
    ensures ReadString(EscapeChar(c) + t)
         == Some(([c] + ReadString(t).value.0, ReadString(t).value.1))
  {
    var n := c as int;
    var e := EscapeChar(c);
    if c == '"' || c == '\\' || n == 8 || n == 12 || n == 10 || n == 13 || n == 9 {
      var x := e[1];
      assert ShortEscape(x) == Some(c);
      ReadShortEscape(x, t);
      assert e == ['\\'] + [x];
      ReadBackslash([x], t, c);
    } else if n < 0x20 {
      ReadControlEscape(c, t);
      assert e == ['\\'] + e[1..];
      ReadBackslash(e[1..], t, c);
    } else {
      assert e == [c];
      assert ([c] + t)[1..] == t;
    }
  }

  /** Decoding an escaped string literal gives the string back, and the text after it. */
  lemma {:induction false} ReadQuoted(s: string, rest: string)
    ensures ReadString(Escape(s) + "\"" + rest) == Some((s, rest))
  {
    if s == [] {
      assert Escape(s) + "\"" + rest == ['"'] + rest;
    } else {
      var t := Escape(s[1..]) + "\"" + rest;
      ReadQuoted(s[1..], rest);
      SplitEscape(s, rest);
      ReadEscapedChar(s[0], t);
      assert [s[0]] + s[1..] == s;
    }
  }

  lemma {:induction false} SplitEscape(s: string, rest: string)
    requires s != []
    ensures Escape(s) + "\"" + rest == EscapeChar(s[0]) + (Escape(s[1..]) + "\"" + rest)
  {
  }

  // ------------------------------------------------------------- label sets

  function Member(p: (string, string)): string {
    Quote(p.0) + ":" + Quote(p.1)
  }

  function Members(l: Labels): string {
    if l == [] then ""
    else if |l| == 1 then Member(l[0])
    else Member(l[0]) + "," + Members(l[1..])
  }

  /** `JSON.stringify(labels)`: `{"k":"v",...}` with the properties in order. */
  function Stringify(l: Labels): string {
    "{" + Members(l) + "}"
  }

  /** One `"key":"value"` member, and the text after it. */
  function ReadMember(s: string): (r: Option<((string, string), string)>)
    ensures r.Some? ==> |r.value.1| < |s|
  {
    if s == [] || s[0] != '"' then None
    else
      match ReadString(s[1..])
      case None => None
      case Some((k, r)) =>
        if |r| < 2 || r[0] != ':' || r[1] != '"' then None
        else
          match ReadString(r[2..])
          case None => None
          case Some((v, after)) => Some(((k, v), after))
  }

  /** Members separated by ',' up to and including the closing '}'. */
  function ReadMembers(s: string): Option<(Labels, string)>
    decreases |s|
  {
    match ReadMember(s)
    case None => None
    case Some((p, r)) =>
      if r != [] && r[0] == ',' then
        match ReadMembers(r[1..])
        case None => None
        case Some((ps, after)) => Some(([p] + ps, after))
      else if r != [] && r[0] == '}' then Some(([p], r[1..]))
      else None
  }

  /** `JSON.parse(s)` for text that is a flat object of string values. */
  function ParseLabels(s: string): Option<Labels> {
    if |s| < 2 || s[0] != '{' then None
    else if s[1] == '}' then (if |s| == 2 then Some([]) else None)
    else
      match ReadMembers(s[1..])
      case Some((l, after)) => if after == [] then Some(l) else None
      case None => None
  }

  lemma {:induction false} ReadMemberOf(p: (string, string), t: string)
    ensures ReadMember(Member(p) + t) == Some((p, t))
  {
    var k, v := p.0, p.1;
    var afterKey := [':'] + Quote(v) + t;
    var s := Member(p) + t;
    assert s != [] && s[0] == '"' && ReadString(s[1..]) == Some((k, afterKey)) by {
      assert s == Quote(k) + afterKey;
      QuotedRead(k, afterKey);
    }
    assert |afterKey| >= 2 && afterKey[0] == ':' && afterKey[1] == '"' && ReadString(afterKey[2..]) == Some((v, t)) by {
      var q := Quote(v) + t;
      assert afterKey == [':'] + q;
      QuotedRead(v, t);
      assert afterKey[1..] == q;
      assert afterKey[2..] == q[1..];
    }
    ReadMemberSteps(s, k, afterKey, v, t);
  }

  /** A quoted string in front of `rest` opens with `"` and reads back, leaving `rest`. */
  lemma QuotedRead(k: string, rest: string)
    ensures (Quote(k) + rest)[0] == '"' && ReadString((Quote(k) + rest)[1..]) == Some((k, rest))
  {
    assert (Quote(k) + rest)[1..] == Escape(k) + "\"" + rest;
    ReadQuoted(k, rest);
  }

  /** `ReadMember` succeeds when its two string reads do and a `:` joins them. */
  lemma ReadMemberSteps(s: string, k: string, r: string, v: string, after: string)
    requires s != [] && s[0] == '"' && ReadString(s[1..]) == Some((k, r))
    requires |r| >= 2 && r[0] == ':' && r[1] == '"' && ReadString(r[2..]) == Some((v, after))
    ensures ReadMember(s) == Some(((k, v), after))
  {
  }

  lemma ReadMembersMore(s: string, p: (string, string), r: string, ps: Labels, after: string)
    requires ReadMember(s) == Some((p, r))
    requires r != [] && r[0] == ',' && ReadMembers(r[1..]) == Some((ps, after))
    ensures ReadMembers(s) == Some(([p] + ps, after))
  {
  }

  lemma ReadMembersLast(s: string, p: (string, string), r: string)
    requires ReadMember(s) == Some((p, r))
    requires r != [] && r[0] == '}'
    ensures ReadMembers(s) == Some(([p], r[1..]))
  {
  }

  lemma {:induction false} ReadMembersOf(l: Labels, rest: string)
    requires l != []
    ensures ReadMembers(Members(l) + "}" + rest) == Some((l, rest))
  {
    if |l| == 1 {
      ReadOneMember(l, rest);
    } else {
      ReadMembersOf(l[1..], rest);
      ReadFirstMember(l, rest);
    }
  }

  lemma ReadOneMember(l: Labels, rest: string)
    requires |l| == 1
    ensures ReadMembers(Members(l) + "}" + rest) == Some((l, rest))
  {
    var s := Members(l) + "}" + rest;
    var t := "}" + rest;
    assert s == Member(l[0]) + t;
    ReadMemberOf(l[0], t);
    ReadMembersLast(s, l[0], t);
    assert t[1..] == rest && [l[0]] == l;
  }

  lemma {:induction false} ReadFirstMember(l: Labels, rest: string)
    requires |l| > 1
    requires ReadMembers(Members(l[1..]) + "}" + rest) == Some((l[1..], rest))
    ensures ReadMembers(Members(l) + "}" + rest) == Some((l, rest))
  {
    var m, ms := Member(l[0]), Members(l[1..]);
    var t := ms + "}" + rest;
    SplitMembers(l, rest);
    ReadMemberOf(l[0], "," + t);
    ReadMembersStep(m, t, l[0], l[1..], rest);
    assert [l[0]] + l[1..] == l;
  }

  lemma {:induction false} SplitMembers(l: Labels, rest: string)
    requires |l| > 1
    ensures Members(l) + "}" + rest == Member(l[0]) + ("," + (Members(l[1..]) + "}" + rest))
  {
    var a, c := Member(l[0]), Members(l[1..]);
    assert a + "," + c + "}" + rest == a + ("," + (c + "}" + rest));
    assert Members(l) == a + "," + c;
  }

  /** A member, a comma and the remaining members read as one more member in front. */
  lemma ReadMembersStep(m: string, t: string, p: (string, string), ps: Labels, rest: string)
    requires ReadMember(m + ("," + t)) == Some((p, "," + t))
    requires ReadMembers(t) == Some((ps, rest))
    ensures ReadMembers(m + ("," + t)) == Some(([p] + ps, rest))
  {
    assert ("," + t)[1..] == t;
    ReadMembersMore(m + ("," + t), p, "," + t, ps, rest);
  }

  /** `JSON.parse(JSON.stringify(labels))` gives the same label set back. */
  lemma StringifyRoundTrip(l: Labels)
    ensures ParseLabels(Stringify(l)) == Some(l)
  {
    var s := Stringify(l);
    if l != [] {
      ReadMembersOf(l, []);
      assert s[1..] == Members(l) + "}" + [];
      assert Members(l)[0] == '"';
      assert s[1] == '"';
    }
  }

  /**
   * Two label sets serialise to the same text exactly when they are equal:
   * same keys with the same values in the same order.
   */
  lemma StringifyInjective(a: Labels, b: Labels)
    ensures Stringify(a) == Stringify(b) <==> a == b
  {
    if Stringify(a) == Stringify(b) {
      StringifyRoundTrip(a);
      StringifyRoundTrip(b);
    }
  }

  // ---------------------------------------------------- general JSON values

  /** A JSON-like JavaScript value, numbers in thousandths. */
  datatype Value =
    | Undefined
    | Null
    | Bool(b: bool)
    | Num(n: Text.Milli)
    | Str(s: string)
    | Arr(items: seq<Value>)
    | Obj(fields: Fields<Value>)

  /**
   * `JSON.stringify(v)`; `undefined` renders as `null` inside arrays and its
   * properties are left out of objects (at the top level `JSON.stringify`
   * returns no string at all, which the callers here never reach).
   */
  function Serialize(v: Value): string
    decreases v, 1, 0
  {
    match v
    case Undefined => "null"
    case Null => "null"
    case Bool(b) => if b then "true" else "false"
    case Num(n) => Text.NumText(n)
    case Str(s) => Quote(s)
    case Arr(items) => "[" + SerializeItems(v, 0) + "]"
    case Obj(fields) => "{" + SerializeFields(v, 0) + "}"
  }

  /** The elements of the array `a` from index `from` on, comma-separated. */
  function SerializeItems(a: Value, from: nat): string
    requires a.Arr? && from <= |a.items|
    decreases a, 0, |a.items| - from
  {
    if from == |a.items| then ""
    else if from == |a.items| - 1 then Serialize(a.items[from])
    else Serialize(a.items[from]) + "," + SerializeItems(a, from + 1)
  }

  /**
   * The members of the object `o` from property `from` on, leaving out
   * properties whose value is `undefined`.
   */
  function SerializeFields(o: Value, from: nat): string
    requires o.Obj? && from <= |o.fields|
    decreases o, 0, |o.fields| - from
  {
    if from == |o.fields| then ""
    else if o.fields[from].1.Undefined? then SerializeFields(o, from + 1)
    else
      var head := Quote(o.fields[from].0) + ":" + Serialize(o.fields[from].1);
      var tail := SerializeFields(o, from + 1);
      if tail == "" then head else head + "," + tail
  }

  /** A label set as a JSON object value. */
  function LabelsValue(l: Labels): (v: Value)
    ensures v.Obj? && |v.fields| == |l|
  {
    Obj(seq(|l|, i requires 0 <= i < |l| => (l[i].0, Str(l[i].1))))
  }

  /** Rendering a label set as a general value agrees with the label-set rendering. */
  lemma SerializeLabels(l: Labels)
    ensures Serialize(LabelsValue(l)) == Stringify(l)
  {
    FieldsOfLabels(l, 0);
    assert l[0..] == l;
  }

  lemma {:induction false} FieldsOfLabels(l: Labels, from: nat)
    requires from <= |l|
    ensures SerializeFields(LabelsValue(l), from) == Members(l[from..])
    decreases |l| - from
  {
    var o := LabelsValue(l);
    if from < |l| {
      FieldsOfLabels(l, from + 1);
      assert l[from..][1..] == l[from + 1..];
      assert Member(l[from]) == Quote(o.fields[from].0) + ":" + Serialize(o.fields[from].1);
    }
  }
}
