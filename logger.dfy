/**
 * The centralized logger of `logging/logger.ts`: a level filter, redaction of
 * sensitive data in log metadata (`maskValue`), and the line each call writes.
 */
module Logging {
  import opened Wrappers
  import opened Text
  import opened Records
  import opened Json

  // ------------------------------------------------------------- levels

  datatype Level = Debug | Info | Warn | Error

  /** `LOG_LEVELS`. */
  function Rank(l: Level): nat {
    match l
    case Debug => 0
    case Info => 1
    case Warn => 2
    case Error => 3
  }

  function LevelName(l: Level): string {
    match l
    case Debug => "debug"
    case Info => "info"
    case Warn => "warn"
    case Error => "error"
  }

  /** `shouldLog(logLevel)` for a logger configured at `threshold`. */
  predicate ShouldLog(l: Level, threshold: Level) {
    Rank(l) >= Rank(threshold)
  }

  /** The ranks order the levels strictly: debug < info < warn < error. */
  lemma RankOrder()
    ensures Rank(Debug) < Rank(Info) < Rank(Warn) < Rank(Error)
    ensures forall a: Level, b: Level :: Rank(a) == Rank(b) ==> a == b
  {
  }

  /**
   * If a level is logged, so is every more severe level; errors are always
   * logged, and a debug threshold logs everything.
   */
  lemma ShouldLogUpward(l: Level, l': Level, threshold: Level)
    ensures ShouldLog(l, threshold) && Rank(l) <= Rank(l') ==> ShouldLog(l', threshold)
    ensures ShouldLog(Error, threshold) && ShouldLog(l, Debug)
    ensures ShouldLog(l, threshold) <==> Rank(threshold) <= Rank(l)
  {
  }

  // ------------------------------------------------------------- splitting

  /** `s.split(c)` for a one-character separator. */
  function Pieces(s: string, c: char): (r: seq<string>)
    ensures |r| >= 1 && forall p | p in r :: c !in p
  {
    if s == [] then [""]
    else
      var rest := Pieces(s[1..], c);
      if s[0] == c then [""] + rest else [[s[0]] + rest[0]] + rest[1..]
  }

  /** Joining the pieces with the separator gives back the string. */
  lemma {:induction false} PiecesJoin(s: string, c: char)
    ensures Join(Pieces(s, c), [c]) == s
  {
    if s != [] {
      var rest := Pieces(s[1..], c);
      PiecesJoin(s[1..], c);
      if s[0] != c {
        var parts := Pieces(s, c);
        assert parts[1..] == rest[1..];
        if |rest| == 1 {
          assert parts == [[s[0]] + rest[0]];
        } else {
          assert Join(rest, [c]) == rest[0] + [c] + Join(rest[1..], [c]);
        }
        assert s == [s[0]] + s[1..];
      }
    }
  }

  /** A string without the separator is a single piece. */
  lemma {:induction false} PiecesWhole(x: string, c: char)
    requires c !in x
    ensures Pieces(x, c) == [x]
  {
    if x != [] {
      PiecesWhole(x[1..], c);
      assert x == [x[0]] + x[1..];
    }
  }

  /** The first piece of `x + c + y`, when `x` has no separator, is `x`. */
  lemma {:induction false} PiecesAround(x: string, c: char, y: string)
    requires c !in x
    ensures Pieces(x + [c] + y, c) == [x] + Pieces(y, c)
  {
    if x == [] {
      assert [c] + y == x + [c] + y;
      assert ([c] + y)[1..] == y;
    } else {
      PiecesAround(x[1..], c, y);
      assert (x + [c] + y)[1..] == x[1..] + [c] + y;
      assert x == [x[0]] + x[1..];
    }
  }

  // ------------------------------------------------------------- strings

  function Min(a: int, b: int): int { if a <= b then a else b }

  /**
   * The masked local part of an e-mail address: first character, at most
   * five asterisks, last character; very short names become `***`.
   */
  function MaskLocal(local: string): (m: string)
    ensures |m| >= 3 && m[1] == '*'
  {
    if |local| > 2 then [local[0]] + Repeat('*', Min(|local| - 2, 5)) + [local[|local| - 1]]
    else "***"
  }

  /** The first two pieces of `s.split('@')`, the second empty when there is none. */
  function EmailParts(s: string): (string, string) {
    var parts := Pieces(s, '@');
    (parts[0], if |parts| >= 2 then parts[1] else "")
  }

  /** The e-mail branch applies: `@` and `.` occur and both parts are non-empty. */
  predicate IsEmail(s: string) {
    '@' in s && '.' in s && EmailParts(s).0 != "" && EmailParts(s).1 != ""
  }

  /** `[0-9a-f]` under the `i` flag. */
  predicate HexChar(c: char) {
    '0' <= c <= '9' || 'a' <= c <= 'f' || 'A' <= c <= 'F'
  }

  predicate DashAt(i: int) {
    i == 8 || i == 13 || i == 18 || i == 23
  }

  /** `/^[0-9a-f]{8}-[0-9a-f]{4}-[0-9a-f]{4}-[0-9a-f]{4}-[0-9a-f]{12}$/i`. */
  predicate IsUuid(s: string) {
    |s| == 36 && forall i | 0 <= i < 36 :: if DashAt(i) then s[i] == '-' else HexChar(s[i])
  }

  /** `[A-Za-z0-9_-]`. */
  predicate TokenChar(c: char) {
    'A' <= c <= 'Z' || 'a' <= c <= 'z' || '0' <= c <= '9' || c == '_' || c == '-'
  }

  /** `/^eyJ[A-Za-z0-9_-]+\.[A-Za-z0-9_-]+\.[A-Za-z0-9_-]+$/`. */
  predicate IsJwt(s: string) {
    |s| >= 3 && s[..3] == "eyJ" &&
    var parts := Pieces(s[3..], '.');
    |parts| == 3 && forall p | p in parts :: p != [] && forall ch | ch in p :: TokenChar(ch)
  }

  const UuidMask := "-****-****-****-************"
  const JwtMask := "eyJ***[REDACTED]***"
  const Redacted := "[REDACTED]"

  /** `maskValue` on a string. */
  function MaskString(s: string): string {
    if IsEmail(s) then MaskLocal(EmailParts(s).0) + "@" + EmailParts(s).1
    else if IsUuid(s) then s[..8] + UuidMask
    else if IsJwt(s) then JwtMask
    else s
  }

  /**
   * An address keeps its domain (the text between the first and any second
   * `@`); its local part keeps the first and last characters around at most
   * five asterisks, or becomes `***` when it has two characters or fewer.
   */
  lemma EmailMasked(s: string)
    requires IsEmail(s)
    ensures var (local, domain) := EmailParts(s);
      exists m :: MaskString(s) == m + "@" + domain &&
        (|local| <= 2 ==> m == "***") &&
        (|local| > 2 ==> |m| == Min(|local|, 7) && m[0] == local[0] && m[|m| - 1] == local[|local| - 1] &&
                         forall i | 0 < i < |m| - 1 :: m[i] == '*')
  {
    var (local, domain) := EmailParts(s);
    var m := MaskLocal(local);
    assert MaskString(s) == m + "@" + domain;
  }

  /** A UUID keeps its first eight characters; the rest is a fixed mask of the same length. */
  lemma UuidMasked(s: string)
    requires IsUuid(s)
    ensures var r := MaskString(s);
      |r| == 36 && r[..8] == s[..8] && r[8..] == UuidMask && !IsUuid(r)
  {
    assert '@' !in s by {
      forall i | 0 <= i < |s| ensures s[i] != '@' {
        assert DashAt(i) || HexChar(s[i]);
      }
    }
    var r := MaskString(s);
    assert r == s[..8] + UuidMask;
    assert r[9] == '*';
  }

  /** Every character of `s` other than the separator lies in some piece. */
  lemma {:induction false} PiecesCover(s: string, c: char, x: char)
    requires x in s && x != c
    ensures exists p :: p in Pieces(s, c) && x in p
  {
    var rest := Pieces(s[1..], c);
    if s[0] == x {
      assert x in Pieces(s, c)[0];
    } else {
      PiecesCover(s[1..], c, x);
      var p :| p in rest && x in p;
      if s[0] != c && p == rest[0] {
        assert x in Pieces(s, c)[0];
      } else {
        assert p in Pieces(s, c);
      }
    }
  }

  /** A token of the JWT shape is replaced as a whole. */
  lemma JwtMasked(s: string)
    requires IsJwt(s)
    ensures MaskString(s) == JwtMask
  {
    assert s[1] == 'y' && !HexChar('y');
    if '@' in s {
      var i :| 0 <= i < |s| && s[i] == '@';
      assert i >= 3 by {
        assert s[..3] == "eyJ";
      }
      assert '@' in s[3..] by { assert s[3..][i - 3] == '@'; }
      PiecesCover(s[3..], '.', '@');
    }
  }

  /** A string with no `@` that is neither a UUID nor a JWT is logged as it is. */
  lemma PlainUnchanged(s: string)
    requires '@' !in s && !IsUuid(s) && !IsJwt(s)
    ensures MaskString(s) == s
  {
  }

  /** A masked local part is masked already. */
  lemma MaskLocalIdempotent(local: string)
    ensures MaskLocal(MaskLocal(local)) == MaskLocal(local)
  {
    var m := MaskLocal(local);
    if |local| > 2 {
      var k := Min(|local| - 2, 5);
      assert |m| == k + 2 && m[0] == local[0] && m[|m| - 1] == local[|local| - 1];
      assert m[1..|m| - 1] == Repeat('*', k);
      assert MaskLocal(m) == [m[0]] + m[1..|m| - 1] + [m[|m| - 1]];
    } else {
      assert MaskLocal(m) == ['*'] + Repeat('*', 1) + ['*'];
    }
  }

  /** Output of the e-mail branch is left alone by a second masking. */
  lemma EmailFixed(s: string)
    requires IsEmail(s)
    ensures MaskString(MaskString(s)) == MaskString(s)
  {
    var (local, domain) := EmailParts(s);
    var m := MaskLocal(local);
    var r := m + "@" + domain;
    assert MaskString(s) == r;
    var parts := Pieces(s, '@');
    assert local in parts && domain in parts;
    assert '@' !in m by {
      forall i | 0 <= i < |m| ensures m[i] != '@' {
        if |local| > 2 {
          assert m[i] == local[0] || m[i] == '*' || m[i] == local[|local| - 1];
        }
      }
    }
    PiecesAround(m, '@', domain);
    PiecesWhole(domain, '@');
    assert Pieces(r, '@') == [m, domain];
    if '.' in r {
      assert IsEmail(r);
      MaskLocalIdempotent(local);
    } else {
      assert r[|m|] == '@' && !HexChar('@');
      assert !IsUuid(r);
      assert r[1] == '*';
      assert r[..3] != "eyJ";
    }
  }

  /** Output of the UUID branch is left alone by a second masking. */
  lemma UuidFixed(s: string)
    requires IsUuid(s)
    ensures MaskString(MaskString(s)) == MaskString(s)
  {
    UuidMasked(s);
    var r := MaskString(s);
    assert '@' !in r by {
      forall i | 0 <= i < |r| ensures r[i] != '@' {
        if i < 8 {
          assert r[i] == s[i] && HexChar(s[i]);
        } else {
          assert r[i] == UuidMask[i - 8];
        }
      }
    }
    assert r[1] == s[1] && HexChar(s[1]);
    assert r[..3] != "eyJ";
  }

  /** The token mask is itself left alone by masking. */
  lemma JwtFixed()
    ensures MaskString(JwtMask) == JwtMask
  {
    assert !IsEmail(JwtMask) by {
      assert '@' !in JwtMask;
    }
    assert !IsUuid(JwtMask) by {
      assert |JwtMask| == 19;
    }
    assert !IsJwt(JwtMask) by {
      assert JwtMask[3..] == "***[REDACTED]***";
      PiecesWhole(JwtMask[3..], '.');
    }
  }

  /** Masking a string twice is the same as masking it once. */
  lemma MaskStringIdempotent(s: string)
    ensures MaskString(MaskString(s)) == MaskString(s)
  {
    if IsEmail(s) {
      EmailFixed(s);
    } else if IsUuid(s) {
      UuidFixed(s);
    } else if IsJwt(s) {
      assert MaskString(s) == JwtMask;
      JwtFixed();
    }
  }

  // ------------------------------------------------------------- values

  /** `SENSITIVE_FIELDS`. */
  const SensitiveFields: seq<string> :=
    ["password", "passwordHash", "token", "secret", "apiKey", "authorization",
     "cookie", "session", "creditCard", "ssn"]

  /** `SENSITIVE_FIELDS.some(f => key.toLowerCase().includes(f.toLowerCase()))`. */
  predicate Sensitive(key: string) {
    SensitiveFrom(key, 0)
  }

  /** Some sensitive field name from position `i` on occurs in `key`, ignoring case. */
  predicate SensitiveFrom(key: string, i: nat)
    decreases |SensitiveFields| - i
  {
    i < |SensitiveFields| &&
    (Includes(Lower(key), Lower(SensitiveFields[i])) || SensitiveFrom(key, i + 1))
  }

  /** `key` contains the name at position `j`, ignoring case. */
  predicate Contains(key: string, j: int) {
    0 <= j < |SensitiveFields| && Includes(Lower(key), Lower(SensitiveFields[j]))
  }

  lemma {:induction false} SensitiveFromMeans(key: string, i: nat)
    ensures SensitiveFrom(key, i) <==> exists j | i <= j :: Contains(key, j)
    decreases |SensitiveFields| - i
  {
    if i < |SensitiveFields| {
      SensitiveFromMeans(key, i + 1);
      if Contains(key, i) {
        assert i <= i;
      }
      if exists j | i <= j :: Contains(key, j) {
        var j :| i <= j && Contains(key, j);
        if j > i {
          assert i + 1 <= j;
        }
      }
    }
  }

  /** A key is sensitive exactly when it contains one of the field names, ignoring case. */
  lemma SensitiveMeans(key: string)
    ensures Sensitive(key) <==> exists j :: Contains(key, j)
  {
    SensitiveFromMeans(key, 0);
  }

  /** `maskValue`: strings masked, arrays element by element, objects property by property. */
  function MaskValue(v: Value): Value
    decreases v, 1
  {
    match v
    case Str(s) => Str(MaskString(s))
    case Arr(_) => Arr(MaskItems(v, |v.items|))
    case Obj(_) => Obj(MaskFields(v, |v.fields|))
    case _ => v
  }

  /** `value.map(maskValue)` on the first `n` elements. */
  function MaskItems(a: Value, n: nat): (r: seq<Value>)
    requires a.Arr? && n <= |a.items|
    ensures |r| == n && forall i | 0 <= i < n :: r[i] == MaskValue(a.items[i])
    decreases a, 0, n
  {
    if n == 0 then [] else MaskItems(a, n - 1) + [MaskValue(a.items[n - 1])]
  }

  /** The record `masked` after the loop has visited the first `n` entries of `o`. */
  function MaskFields(o: Value, n: nat): Fields<Value>
    requires o.Obj? && n <= |o.fields|
    decreases o, 0, n
  {
    if n == 0 then []
    else Assign(MaskFields(o, n - 1), o.fields[n - 1].0, MaskEntry(o.fields[n - 1].0, o.fields[n - 1].1))
  }

  /** What a property of a masked object holds. */
  function MaskEntry(key: string, val: Value): Value
    decreases val, 2
  {
    if Sensitive(key) then Str(Redacted) else MaskValue(val)
  }

  /**
   * On an object with distinct keys (every JavaScript object), masking keeps
   * the keys in order; a sensitive key's value is replaced by `[REDACTED]`
   * and every other value is masked recursively.
   */
  lemma {:induction false} MaskObject(o: Value, n: nat)
    requires o.Obj? && n <= |o.fields| && UniqueKeys(o.fields)
    ensures var r := MaskFields(o, n);
      |r| == n && forall i | 0 <= i < n :: r[i] == (o.fields[i].0, MaskEntry(o.fields[i].0, o.fields[i].1))
    decreases n
  {
    if n > 0 {
      MaskObject(o, n - 1);
      var prefix := MaskFields(o, n - 1);
      var key := o.fields[n - 1].0;
      var entry := MaskEntry(key, o.fields[n - 1].1);
      assert key !in Keys(prefix) by {
        forall i | 0 <= i < n - 1 ensures Keys(prefix)[i] != key {
          assert Keys(prefix)[i] == o.fields[i].0;
        }
      }
      assert MaskFields(o, n) == Assign(prefix, key, entry);
      AssignNew(prefix, key, entry);
      var r := MaskFields(o, n);
      assert r == prefix + [(key, entry)];
      forall i | 0 <= i < n
        ensures r[i] == (o.fields[i].0, MaskEntry(o.fields[i].0, o.fields[i].1))
      {
        if i < n - 1 {
          assert r[i] == prefix[i];
        }
      }
    }
  }

  /** Every object inside the value has distinct keys, as JavaScript objects do. */
  predicate WellFormed(v: Value)
    decreases v
  {
    match v
    case Arr(items) => forall i | 0 <= i < |items| :: WellFormed(items[i])
    case Obj(fields) => UniqueKeys(fields) && forall i | 0 <= i < |fields| :: WellFormed(fields[i].1)
    case _ => true
  }

  /** Masking keeps the shape of a value: arrays keep their length, objects their keys. */
  lemma MaskShape(v: Value)
    requires WellFormed(v)
    ensures v.Arr? ==> MaskValue(v).Arr? && |MaskValue(v).items| == |v.items|
    ensures v.Obj? ==> MaskValue(v).Obj? && Keys(MaskValue(v).fields) == Keys(v.fields)
    ensures v.Str? ==> MaskValue(v).Str?
    ensures !v.Str? && !v.Arr? && !v.Obj? ==> MaskValue(v) == v
  {
    if v.Obj? {
      MaskObject(v, |v.fields|);
    }
  }

  /** Masking a well-formed value twice is the same as masking it once. */
  lemma {:induction false} MaskIdempotent(v: Value)
    requires WellFormed(v)
    ensures MaskValue(MaskValue(v)) == MaskValue(v)
    decreases v
  {
    match v
    case Str(s) => MaskStringIdempotent(s);
    case Arr(items) =>
      var once := MaskValue(v);
      var twice := MaskValue(once);
      forall i | 0 <= i < |items| ensures twice.items[i] == once.items[i] {
        MaskIdempotent(items[i]);
      }
    case Obj(fields) =>
      var once := MaskValue(v);
      MaskObject(v, |fields|);
      assert UniqueKeys(once.fields) by {
        forall i, j | 0 <= i < j < |once.fields| ensures once.fields[i].0 != once.fields[j].0 {
          assert once.fields[i].0 == fields[i].0 && once.fields[j].0 == fields[j].0;
        }
      }
      var twice := MaskValue(once);
      MaskObject(once, |once.fields|);
      forall i | 0 <= i < |fields| ensures twice.fields[i] == once.fields[i] {
        if !Sensitive(fields[i].0) {
          MaskIdempotent(fields[i].1);
        }
      }
    case _ =>
  }

  /** `maskValue` itself, recursive, with the array map and the loop that fills `masked`. */
  method Mask(v: Value) returns (r: Value)
    ensures r == MaskValue(v)
    decreases v
  {
    match v {
      case Str(s) =>
        r := Str(MaskString(s));
      case Arr(items) =>
        var out: seq<Value> := [];
        for i := 0 to |items|
          invariant out == MaskItems(v, i)
        {
          var m := Mask(items[i]);
          out := out + [m];
        }
        r := Arr(out);
      case Obj(fields) =>
        var masked: Fields<Value> := [];
        for i := 0 to |fields|
          invariant masked == MaskFields(v, i)
        {
          var (key, val) := fields[i];
          if Sensitive(key) {
            masked := Assign(masked, key, Str(Redacted));
          } else {
            var m := Mask(val);
            masked := Assign(masked, key, m);
          }
        }
        r := Obj(masked);
      case _ =>
        r := v;
    }
  }

  // ------------------------------------------------------------- entries

  /** `LoggerConfig`; an option left out is `None`. */
  datatype LoggerConfig = LoggerConfig(
    service: string, level: Option<Level>, environment: Option<string>,
    version: Option<string>, maskSensitiveData: Option<bool>)

  /** The threshold in force when `LOG_LEVEL` is unset. */
  function Threshold(c: LoggerConfig): Level { c.level.GetOr(Info) }

  /** The environment in force when `NODE_ENV` is unset. */
  function Environment(c: LoggerConfig): string { c.environment.GetOr("development") }

  predicate IsProduction(c: LoggerConfig) { Environment(c) == "production" }

  predicate Masking(c: LoggerConfig) { c.maskSensitiveData.GetOr(true) }

  /** JavaScript truthiness (numbers are never NaN here). */
  predicate Truthy(v: Value) {
    match v
    case Undefined => false
    case Null => false
    case Bool(b) => b
    case Num(n) => n != 0
    case Str(s) => s != ""
    case _ => true
  }

  /** The optional `meta` argument as a property value. */
  function MetaValue(meta: Option<Fields<Value>>): Value {
    match meta
    case None => Undefined
    case Some(fs) => Obj(fs)
  }

  /** The `meta` property of the full entry: the given metadata, masked when masking is on. */
  function EntryMeta(c: LoggerConfig, meta: Option<Fields<Value>>): Value {
    if Masking(c) && meta.Some? then MaskValue(MetaValue(meta)) else MetaValue(meta)
  }

  /**
   * `fullEntry`: defaults for timestamp, level, service and message, the
   * entry spread over them, and then the metadata masked if masking is on.
   */
  function FullEntry(c: LoggerConfig, ts: string, level: Level, message: string,
                     meta: Option<Fields<Value>>): Fields<Value> {
    var defaults := [("timestamp", Str(ts)), ("level", Str(LevelName(level))),
                     ("service", Str(c.service)), ("message", Str(message))];
    var entry := [("level", Str(LevelName(level))), ("message", Str(message)), ("meta", MetaValue(meta))];
    var full := Spread(defaults, entry);
    if Masking(c) && meta.Some? then Assign(full, "meta", MaskValue(MetaValue(meta))) else full
  }

  /** The ` {...}` tail of a development line: present exactly when the entry's meta is set. */
  function MetaSuffix(meta: Option<Value>): string {
    if meta.Some? && Truthy(meta.value) then " " + Serialize(meta.value) else ""
  }

  /** `formatEntry`: one JSON object in production, a readable line otherwise. */
  function FormatEntry(c: LoggerConfig, ts: string, level: Level, message: string,
                       meta: Option<Fields<Value>>): string {
    var full := FullEntry(c, ts, level, message, meta);
    if IsProduction(c) then Serialize(Obj(full))
    else DevLine(ts, level, c.service, message, Get(full, "meta"))
  }

  /** `[timestamp] [LEVEL] [service] message`, then the metadata's JSON if it is set. */
  function DevLine(ts: string, level: Level, service: string, message: string, meta: Option<Value>): string {
    "[" + ts + "] [" + Upper(LevelName(level)) + "] [" + service + "] " + message + MetaSuffix(meta)
  }

  /**
   * The full entry has the properties timestamp, level, service, message and
   * meta, in that order; meta is masked exactly when masking is on and meta
   * was given.
   */
  lemma FullEntryShape(c: LoggerConfig, ts: string, level: Level, message: string, meta: Option<Fields<Value>>)
    ensures var full := FullEntry(c, ts, level, message, meta);
      && Keys(full) == ["timestamp", "level", "service", "message", "meta"]
      && Get(full, "timestamp") == Some(Str(ts))
      && Get(full, "level") == Some(Str(LevelName(level)))
      && Get(full, "service") == Some(Str(c.service))
      && Get(full, "message") == Some(Str(message))
      && Get(full, "meta") == Some(EntryMeta(c, meta))
  {
    var lv := Str(LevelName(level));
    var defaults := [("timestamp", Str(ts)), ("level", lv), ("service", Str(c.service)), ("message", Str(message))];
    var entry := [("level", lv), ("message", Str(message)), ("meta", MetaValue(meta))];
    var spread := defaults + [("meta", MetaValue(meta))];
    SpreadOverDefaults(Str(ts), lv, Str(c.service), Str(message), MetaValue(meta));
    var full := FullEntry(c, ts, level, message, meta);
    var mv := EntryMeta(c, meta);
    var five := [("timestamp", Str(ts)), ("level", lv), ("service", Str(c.service)), ("message", Str(message)),
                 ("meta", mv)];
    assert Spread(defaults, entry) == spread;
    if Masking(c) && meta.Some? {
      EntryNamesDistinct();
      AssignAt(spread, 4, "meta", mv);
      assert spread[4 := ("meta", mv)] == five;
      assert full == Assign(Spread(defaults, entry), "meta", mv);
    } else {
      assert spread == five;
      assert full == Spread(defaults, entry);
    }
    assert full == five;
    EntryKeys(Str(ts), lv, Str(c.service), Str(message), mv);
    EntryReads(Str(ts), lv, Str(c.service), Str(message), mv);
  }

  /** Spreading the entry over the defaults changes no default and adds `meta` last. */
  lemma SpreadOverDefaults(ts: Value, lv: Value, service: Value, message: Value, meta: Value)
    ensures Spread([("timestamp", ts), ("level", lv), ("service", service), ("message", message)],
                   [("level", lv), ("message", message), ("meta", meta)])
         == [("timestamp", ts), ("level", lv), ("service", service), ("message", message), ("meta", meta)]
  {
    var defaults := [("timestamp", ts), ("level", lv), ("service", service), ("message", message)];
    var entry := [("level", lv), ("message", message), ("meta", meta)];
    assert "timestamp" != "level" && "timestamp" != "message" && "level" != "message";
    assert "service" != "message" by { assert "service"[0] != "message"[0]; }
    AssignAt(defaults, 1, "level", lv);
    assert defaults[1 := ("level", lv)] == defaults;
    AssignAt(defaults, 3, "message", message);
    assert defaults[3 := ("message", message)] == defaults;
    assert Keys(defaults) == ["timestamp", "level", "service", "message"];
    assert "meta" !in Keys(defaults);
    AssignNew(defaults, "meta", meta);
    var e1, e2 := entry[1..], entry[1..][1..];
    assert e2[1..] == [];
    calc {
      Spread(defaults, entry);
      Spread(Assign(defaults, "level", lv), e1);
      Spread(defaults, e1);
      Spread(Assign(defaults, "message", message), e2);
      Spread(defaults, e2);
      Spread(Assign(defaults, "meta", meta), e2[1..]);
    }
  }

  /** The property names of a full entry are pairwise different. */
  lemma EntryNamesDistinct()
    ensures "timestamp" != "level" && "timestamp" != "service" && "timestamp" != "message" && "timestamp" != "meta"
    ensures "level" != "service" && "level" != "message" && "level" != "meta"
    ensures "service" != "message" && "service" != "meta" && "message" != "meta"
  {
    assert "service"[0] != "message"[0];
  }

  /** The property names of a full entry, in order. */
  lemma EntryKeys(ts: Value, lv: Value, service: Value, message: Value, meta: Value)
    ensures Keys([("timestamp", ts), ("level", lv), ("service", service), ("message", message), ("meta", meta)])
         == ["timestamp", "level", "service", "message", "meta"]
  {
  }

  /** Reading the properties of a full entry. */
  lemma EntryReads(ts: Value, lv: Value, service: Value, message: Value, meta: Value)
    ensures var full := [("timestamp", ts), ("level", lv), ("service", service), ("message", message), ("meta", meta)];
      && Get(full, "timestamp") == Some(ts) && Get(full, "level") == Some(lv)
      && Get(full, "service") == Some(service) && Get(full, "message") == Some(message)
      && Get(full, "meta") == Some(meta)
  {
    EntryNamesDistinct();
    ReadFive("timestamp", "level", "service", "message", "meta", ts, lv, service, message, meta);
  }

  /** Each property of a five-property object with distinct keys reads back. */
  lemma ReadFive<V>(k0: string, k1: string, k2: string, k3: string, k4: string, v0: V, v1: V, v2: V, v3: V, v4: V)
    requires k0 != k1 && k0 != k2 && k0 != k3 && k0 != k4 && k1 != k2 && k1 != k3 && k1 != k4
    requires k2 != k3 && k2 != k4 && k3 != k4
    ensures var fs := [(k0, v0), (k1, v1), (k2, v2), (k3, v3), (k4, v4)];
      Get(fs, k0) == Some(v0) && Get(fs, k1) == Some(v1) && Get(fs, k2) == Some(v2)
      && Get(fs, k3) == Some(v3) && Get(fs, k4) == Some(v4)
  {
    var fs := [(k0, v0), (k1, v1), (k2, v2), (k3, v3), (k4, v4)];
    var f1 := [(k1, v1), (k2, v2), (k3, v3), (k4, v4)];
    var f2 := [(k2, v2), (k3, v3), (k4, v4)];
    var f3 := [(k3, v3), (k4, v4)];
    var f4 := [(k4, v4)];
    assert fs[1..] == f1 && f1[1..] == f2 && f2[1..] == f3 && f3[1..] == f4;
    assert Get(f4, k4) == Some(v4);
    assert Get(f3, k3) == Some(v3) && Get(f3, k4) == Get(f4, k4);
    assert Get(f2, k2) == Some(v2) && Get(f2, k3) == Get(f3, k3) && Get(f2, k4) == Get(f3, k4);
    assert Get(f1, k1) == Some(v1) && Get(f1, k2) == Get(f2, k2) && Get(f1, k3) == Get(f2, k3)
        && Get(f1, k4) == Get(f2, k4);
    assert Get(fs, k1) == Get(f1, k1) && Get(fs, k2) == Get(f1, k2) && Get(fs, k3) == Get(f1, k3)
        && Get(fs, k4) == Get(f1, k4);
  }

  /** The upper-cased level tags of development lines. */
  lemma LevelTags()
    ensures Upper(LevelName(Debug)) == "DEBUG" && Upper(LevelName(Info)) == "INFO"
    ensures Upper(LevelName(Warn)) == "WARN" && Upper(LevelName(Error)) == "ERROR"
  {
    assert Upper("debug") == "DEBUG";
    assert Upper("info") == "INFO";
    assert Upper("warn") == "WARN";
    assert Upper("error") == "ERROR";
  }

  /** Outside production, the line is the readable form of the entry's fields. */
  lemma FormatDevelopment(c: LoggerConfig, ts: string, level: Level, message: string, meta: Option<Fields<Value>>)
    requires !IsProduction(c)
    ensures FormatEntry(c, ts, level, message, meta) == DevLine(ts, level, c.service, message, Some(EntryMeta(c, meta)))
  {
    FullEntryShape(c, ts, level, message, meta);
  }

  /** The metadata tail is present exactly when metadata was given. */
  lemma MetaTail(c: LoggerConfig, meta: Option<Fields<Value>>)
    ensures meta.None? ==> MetaSuffix(Some(EntryMeta(c, meta))) == ""
    ensures meta.Some? ==> MetaSuffix(Some(EntryMeta(c, meta))) == " " + Serialize(EntryMeta(c, meta))
    ensures meta.Some? ==> EntryMeta(c, meta) == if Masking(c) then MaskValue(Obj(meta.value)) else Obj(meta.value)
  {
    if meta.Some? {
      assert MaskValue(Obj(meta.value)).Obj?;
    }
  }

  /**
   * A development line without metadata is `[ts] [LEVEL] [service] message`
   * and nothing more; with metadata it ends with the JSON of the metadata,
   * masked when masking is on.
   */
  lemma DevelopmentLine(c: LoggerConfig, ts: string, level: Level, message: string, meta: Option<Fields<Value>>)
    requires !IsProduction(c)
    ensures var prefix := "[" + ts + "] [" + Upper(LevelName(level)) + "] [" + c.service + "] " + message;
      && (meta.None? ==> FormatEntry(c, ts, level, message, meta) == prefix)
      && (meta.Some? && Masking(c) ==>
            FormatEntry(c, ts, level, message, meta) == prefix + " " + Serialize(MaskValue(Obj(meta.value))))
      && (meta.Some? && !Masking(c) ==>
            FormatEntry(c, ts, level, message, meta) == prefix + " " + Serialize(Obj(meta.value)))
  {
    FormatDevelopment(c, ts, level, message, meta);
    MetaTail(c, meta);
  }

  /**
   * In development, `security(event)` without metadata writes
   * `[ts] [WARN] [service] [SECURITY] event`.
   */
  lemma SecurityText(c: LoggerConfig, ts: string, event: string)
    requires !IsProduction(c)
    ensures FormatEntry(c, ts, Warn, "[SECURITY] " + event, None)
         == "[" + ts + "] [WARN] [" + c.service + "] [SECURITY] " + event
  {
    var msg := "[SECURITY] " + event;
    assert "[" + ts + "] [" + "WARN" + "] [" + c.service + "] " + msg + ""
        == "[" + ts + "] [WARN] [" + c.service + "] [SECURITY] " + event by {
      assert "[" + ts + "] [" + "WARN" + "] [" + c.service + "] " + ("[SECURITY] " + event) + ""
          == "[" + ts + ("] [" + "WARN" + "] [") + c.service + ("] " + "[SECURITY] ") + event;
      assert "] [" + "WARN" + "] [" == "] [WARN] [" && "] " + "[SECURITY] " == "] [SECURITY] ";
    }
    var line := DevLine(ts, Warn, c.service, msg, Some(EntryMeta(c, None)));
    assert FormatEntry(c, ts, Warn, msg, None) == line by {
      FormatDevelopment(c, ts, Warn, msg, None);
    }
    assert line == "[" + ts + "] [" + "WARN" + "] [" + c.service + "] " + msg + "" by {
      MetaTail(c, None);
      assert Upper("warn") == "WARN";
    }
  }

  // ------------------------------------------------------------- calls

  /** The console method a line goes to. */
  datatype Stream = ConsoleError | ConsoleWarn | ConsoleDebug | ConsoleLog

  datatype Output = Output(stream: Stream, text: string)

  function StreamFor(level: Level): Stream {
    match level
    case Error => ConsoleError
    case Warn => ConsoleWarn
    case Debug => ConsoleDebug
    case Info => ConsoleLog
  }

  /** `log(level, message, meta)`: the line written, if any. */
  function Emit(c: LoggerConfig, ts: string, level: Level, message: string,
                meta: Option<Fields<Value>>): (r: Option<Output>)
    ensures r.None? <==> !ShouldLog(level, Threshold(c))
  {
    if !ShouldLog(level, Threshold(c)) then None
    else Some(Output(StreamFor(level), FormatEntry(c, ts, level, message, meta)))
  }

  /** Each level has its own console method, and distinct levels never share one. */
  lemma StreamsDistinct(a: Level, b: Level)
    ensures StreamFor(a) == StreamFor(b) <==> a == b
  {
  }

  /** The value thrown or passed as `error`: an `Error` instance or any other value. */
  datatype Thrown = ErrorInstance(name: string, message: string, stack: Option<string>) | Other(v: Value)

  /** `String(v)`. */
  function ToText(v: Value): string
    decreases v, 1
  {
    match v
    case Undefined => "undefined"
    case Null => "null"
    case Bool(b) => if b then "true" else "false"
    case Num(n) => NumText(n)
    case Str(s) => s
    case Arr(_) => Join(ItemTexts(v, |v.items|), ",")
    case Obj(_) => "[object Object]"
  }

  /** The texts of the first `n` elements of an array, `null` and `undefined` as empty text. */
  function ItemTexts(a: Value, n: nat): (r: seq<string>)
    requires a.Arr? && n <= |a.items|
    ensures |r| == n
    decreases a, 0, n
  {
    if n == 0 then []
    else
      var x := a.items[n - 1];
      ItemTexts(a, n - 1) + [if x.Undefined? || x.Null? then "" else ToText(x)]
  }

  /** The `error` property the `error` helper adds: the error's name, message and (outside production) stack. */
  function ErrorObject(c: LoggerConfig, name: string, message: string, stack: Option<string>): Fields<Value> {
    var stackValue := match stack case None => Undefined case Some(t) => Str(t);
    Spread([("name", Str(name)), ("message", Str(message))],
           if IsProduction(c) then [] else [("stack", stackValue)])
  }

  /** `errorMeta` in the `error` helper: a copy of `meta` with the error described under `error`. */
  function ErrorMeta(c: LoggerConfig, meta: Option<Fields<Value>>, err: Thrown): Fields<Value> {
    var base := Spread([], meta.GetOr([]));
    match err
    case ErrorInstance(name, message, stack) => Assign(base, "error", Obj(ErrorObject(c, name, message, stack)))
    case Other(v) => if Truthy(v) then Assign(base, "error", Str(ToText(v))) else base
  }

  /**
   * The error helper keeps every other property of `meta`; `error` holds the
   * error's description, is left as in `meta` for a falsy non-error value,
   * and never carries a stack in production.
   */
  lemma ErrorMetaProperties(c: LoggerConfig, meta: Option<Fields<Value>>, err: Thrown, k: string)
    requires meta.Some? ==> UniqueKeys(meta.value)
    ensures var em := ErrorMeta(c, meta, err);
      && (k != "error" ==> Get(em, k) == Get(meta.GetOr([]), k))
      && (err.ErrorInstance? ==> Get(em, "error") == Some(Obj(ErrorObject(c, err.name, err.message, err.stack))))
      && (err.Other? && Truthy(err.v) ==> Get(em, "error") == Some(Str(ToText(err.v))))
      && (err.Other? && !Truthy(err.v) ==> Get(em, "error") == Get(meta.GetOr([]), "error"))
  {
    var base := Spread([], meta.GetOr([]));
    SpreadGet([], meta.GetOr([]), k);
    SpreadGet([], meta.GetOr([]), "error");
    match err
    case ErrorInstance(name, message, stack) =>
      AssignGet(base, "error", Obj(ErrorObject(c, name, message, stack)), k);
      AssignGet(base, "error", Obj(ErrorObject(c, name, message, stack)), "error");
    case Other(v) =>
      if Truthy(v) {
        AssignGet(base, "error", Str(ToText(v)), k);
        AssignGet(base, "error", Str(ToText(v)), "error");
      }
  }

  /** In production the error object is name and message only; elsewhere a stack property follows. */
  lemma ErrorObjectKeys(c: LoggerConfig, name: string, message: string, stack: Option<string>)
    ensures Keys(ErrorObject(c, name, message, stack))
         == if IsProduction(c) then ["name", "message"] else ["name", "message", "stack"]
  {
    var base := [("name", Str(name)), ("message", Str(message))];
    assert Keys(base) == ["name", "message"];
    if !IsProduction(c) {
      var stackValue := match stack case None => Undefined case Some(t) => Str(t);
      assert "stack" != "name" && "stack" != "message";
      AssignNew(base, "stack", stackValue);
      var extra := [("stack", stackValue)];
      assert Spread(base, extra) == Spread(Assign(base, "stack", stackValue), extra[1..]);
      assert ErrorObject(c, name, message, stack) == Spread(base, extra);
    }
  }

  /** The request passed to `http`; `verb` is its `method`. */
  datatype Request = Request(verb: string, path: string, statusCode: int, duration: Milli,
                             meta: Option<Fields<Value>>)

  /** The metadata `http` logs: method, path, status and duration, then the request's own meta over them. */
  function HttpMeta(req: Request): Fields<Value> {
    Spread([("method", Str(req.verb)), ("path", Str(req.path)),
            ("statusCode", Num(Whole(req.statusCode))), ("durationMs", Num(req.duration))],
           req.meta.GetOr([]))
  }

  /** A property of the request's meta wins over the fixed ones, which otherwise describe the request. */
  lemma HttpMetaGet(req: Request, k: string)
    requires req.meta.Some? ==> UniqueKeys(req.meta.value)
    ensures var extra := req.meta.GetOr([]);
      && (k in Keys(extra) ==> Get(HttpMeta(req), k) == Get(extra, k))
      && (k !in Keys(extra) && k == "method" ==> Get(HttpMeta(req), k) == Some(Str(req.verb)))
      && (k !in Keys(extra) && k == "path" ==> Get(HttpMeta(req), k) == Some(Str(req.path)))
      && (k !in Keys(extra) && k == "statusCode" ==> Get(HttpMeta(req), k) == Some(Num(Whole(req.statusCode))))
      && (k !in Keys(extra) && k == "durationMs" ==> Get(HttpMeta(req), k) == Some(Num(req.duration)))
  {
    assert "statusCode" != "method" && "statusCode" != "path";
    assert "durationMs" != "method" && "durationMs" != "path";
    assert "durationMs" != "statusCode" by { assert "durationMs"[0] != "statusCode"[0]; }
    assert "path" != "method";
    var base := [("method", Str(req.verb)), ("path", Str(req.path)),
                 ("statusCode", Num(Whole(req.statusCode))), ("durationMs", Num(req.duration))];
    assert Get(base, "statusCode") == Get(base[1..], "statusCode") == Get(base[2..], "statusCode");
    assert Get(base, "durationMs") == Get(base[1..], "durationMs") == Get(base[2..], "durationMs")
        == Get(base[3..], "durationMs");
    SpreadGet([("method", Str(req.verb)), ("path", Str(req.path)),
               ("statusCode", Num(Whole(req.statusCode))), ("durationMs", Num(req.duration))],
              req.meta.GetOr([]), k);
  }

  /** What the console holds after a call: the line, if one was written. */
  function Written(o: Option<Output>): seq<Output> {
    match o
    case None => []
    case Some(line) => [line]
  }

  /**
   * A security event is written to `console.warn` exactly when warnings are
   * enabled; in development, without metadata, the line reads
   * `[ts] [WARN] [service] [SECURITY] event`.
   */
  lemma SecurityLine(c: LoggerConfig, ts: string, event: string)
    ensures Emit(c, ts, Warn, "[SECURITY] " + event, None).Some? <==> Rank(Threshold(c)) <= 2
    ensures Rank(Threshold(c)) <= 2 && !IsProduction(c) ==>
      Emit(c, ts, Warn, "[SECURITY] " + event, None)
        == Some(Output(ConsoleWarn, "[" + ts + "] [WARN] [" + c.service + "] [SECURITY] " + event))
  {
    if !IsProduction(c) {
      SecurityText(c, ts, event);
    }
  }

  /**
   * `error(message)` with neither an error nor metadata still logs an empty
   * object: in development its line ends with ` {}`.
   */
  lemma BareErrorLine(c: LoggerConfig, ts: string, message: string)
    requires !IsProduction(c)
    ensures FormatEntry(c, ts, Error, message, Some(ErrorMeta(c, None, Other(Undefined))))
         == "[" + ts + "] [ERROR] [" + c.service + "] " + message + " {}"
  {
    BareErrorMeta(c);
    FormatDevelopment(c, ts, Error, message, Some([]));
    BareErrorText(ts, c.service, message);
  }

  /** With neither an error nor metadata, the logged metadata is the empty object, printed as ` {}`. */
  lemma BareErrorMeta(c: LoggerConfig)
    ensures ErrorMeta(c, None, Other(Undefined)) == []
    ensures EntryMeta(c, Some([])) == Obj([]) && MetaSuffix(Some(Obj([]))) == " {}"
  {
    assert MaskValue(Obj([])) == Obj(MaskFields(Obj([]), 0)) == Obj([]);
    assert Serialize(Obj([])) == "{" + SerializeFields(Obj([]), 0) + "}" == "{}";
  }

  lemma BareErrorText(ts: string, service: string, message: string)
    ensures DevLine(ts, Error, service, message, Some(Obj([])))
         == "[" + ts + "] [ERROR] [" + service + "] " + message + " {}"
  {
    var tail := service + "] " + message + " {}";
    assert DevLine(ts, Error, service, message, Some(Obj([])))
        == "[" + ts + "] [" + "ERROR" + "] [" + tail by {
      assert Upper("error") == "ERROR";
      assert MetaSuffix(Some(Obj([]))) == " {}" by {
        assert Serialize(Obj([])) == "{" + SerializeFields(Obj([]), 0) + "}" == "{}";
      }
    }
    assert "[" + ts + "] [" + "ERROR" + "] [" + tail == "[" + ts + ("] [" + "ERROR" + "] [") + tail;
    assert "] [" + "ERROR" + "] [" == "] [ERROR] [";
  }

  /** The object returned by `createLogger(config)`, writing to the console. */
  class Logger {
    const config: LoggerConfig
    /** Everything written to the console so far, in order. */
    var console: seq<Output>

    constructor (config: LoggerConfig)
      ensures this.config == config && console == []
    {
      this.config := config;
      console := [];
    }

    /** `log(level, message, meta)`; `debug`, `info` and `warn` are this at their level. */
    method Log(ts: string, level: Level, message: string, meta: Option<Fields<Value>>)
      modifies this
      ensures console == old(console) + Written(Emit(config, ts, level, message, meta))
    {
      if !ShouldLog(level, Threshold(config)) {
        return;
      }
      var entry := FormatEntry(config, ts, level, message, meta);
      console := console + [Output(StreamFor(level), entry)];
    }

    /** `error(message, error?, meta?)`. */
    method Error(ts: string, message: string, err: Thrown, meta: Option<Fields<Value>>)
      modifies this
      ensures console == old(console) + Written(Emit(config, ts, Level.Error, message, Some(ErrorMeta(config, meta, err))))
    {
      var errorMeta := Spread([], meta.GetOr([]));
      match err {
        case ErrorInstance(name, msg, stack) =>
          errorMeta := Assign(errorMeta, "error", Obj(ErrorObject(config, name, msg, stack)));
        case Other(v) =>
          if Truthy(v) {
            errorMeta := Assign(errorMeta, "error", Str(ToText(v)));
          }
      }
      Log(ts, Level.Error, message, Some(errorMeta));
    }

    /** `http(req)`: an info line `HTTP Request` with the request's metadata. */
    method Http(ts: string, req: Request)
      modifies this
      ensures console == old(console) + Written(Emit(config, ts, Info, "HTTP Request", Some(HttpMeta(req))))
    {
      Log(ts, Info, "HTTP Request", Some(HttpMeta(req)));
    }

    /** `security(event, meta?)`: a warning tagged `[SECURITY]`. */
    method Security(ts: string, event: string, meta: Option<Fields<Value>>)
      modifies this
      ensures console == old(console) + Written(Emit(config, ts, Warn, "[SECURITY] " + event, meta))
    {
      Log(ts, Warn, "[SECURITY] " + event, meta);
    }

    /** `audit(action, meta?)`: an info line tagged `[AUDIT]`. */
    method Audit(ts: string, action: string, meta: Option<Fields<Value>>)
      modifies this
      ensures console == old(console) + Written(Emit(config, ts, Info, "[AUDIT] " + action, meta))
    {
      Log(ts, Info, "[AUDIT] " + action, meta);
    }
  }
}
