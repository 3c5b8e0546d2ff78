/**
 * `createAlertManager`: deduplication by fingerprint within a window, a
 * per-minute rate limit, fan-out to channels, and `resolve`.
 *
 * Clock readings are parameters: `now` before the channels are awaited and
 * `sentAt` after they answered. What the network does for the channel at
 * position `i` during one call is `fetch(i)`. Alert ids and ISO timestamps
 * are not modelled.
 */
module Alerting {
  import opened Wrappers
  import opened Text
  import opened Json

  datatype Severity = Info | Warning | Critical

  function SeverityName(s: Severity): string {
    match s
    case Info => "info"
    case Warning => "warning"
    case Critical => "critical"
  }

  datatype ChannelKind = Slack | Discord | Webhook | Email

  /** `AlertChannel` (its free-form `config` is never read). */
  datatype Channel = Channel(name: string, kind: ChannelKind, url: Option<string>, severities: seq<Severity>)

  /** What the `fetch` to a channel does: a response with its `ok` flag, or an exception. */
  datatype Transport = Responded(ok: bool) | Failed

  /** An `Alert`, without its random id and its timestamps. */
  datatype AlertRecord = AlertRecord(
    service: string, severity: Severity, title: string, message: string,
    labels: Option<Labels>, resolved: bool)

  // ------------------------------------------------------------ formatting

  /** The Slack attachment colour. */
  function ColorHex(s: Severity): string {
    match s
    case Info => "#2196F3"
    case Warning => "#FF9800"
    case Critical => "#F44336"
  }

  /** The Discord embed colour. */
  function ColorInt(s: Severity): nat {
    match s
    case Info => 0x2196F3
    case Warning => 0xFF9800
    case Critical => 0xF44336
  }

  function UpperHexDigit(d: nat): (c: char)
    requires d < 16
  {
    if d < 10 then ('0' as int + d) as char else ('A' as int + d - 10) as char
  }

  /** Six upper-case hexadecimal digits. */
  function Hex6(n: nat): (s: string)
    requires n < 0x1000000
    ensures |s| == 6
  {
    [UpperHexDigit(n / 0x100000), UpperHexDigit(n / 0x10000 % 16), UpperHexDigit(n / 0x1000 % 16),
     UpperHexDigit(n / 0x100 % 16), UpperHexDigit(n / 0x10 % 16), UpperHexDigit(n % 16)]
  }

  /** `[${severity.toUpperCase()}] ${title}`, the title of both message formats. */
  function Headline(s: Severity, title: string): string {
    "[" + Upper(SeverityName(s)) + "] " + title
  }

  /** Slack and Discord show the same colour for each severity. */
  lemma ColorTablesAgree(s: Severity)
    ensures ColorInt(s) < 0x1000000
    ensures ColorHex(s) == "#" + Hex6(ColorInt(s))
  {
  }

  /** `toUpperCase` of one severity name. */
  lemma UpperName(s: Severity)
    ensures Upper(SeverityName(s)) == match s
      case Info => "INFO"
      case Warning => "WARNING"
      case Critical => "CRITICAL"
  {
    var n := SeverityName(s);
    var u := Upper(n);
    var want := match s case Info => "INFO" case Warning => "WARNING" case Critical => "CRITICAL";
    assert |u| == |want|;
    forall i | 0 <= i < |u| ensures u[i] == want[i] {
      assert u[i] == UpperChar(n[i]);
    }
  }

  /** The headline is the upper-cased severity in brackets, then the title. */
  lemma HeadlineText(s: Severity, title: string)
    ensures Headline(s, title) == match s
      case Info => "[INFO] " + title
      case Warning => "[WARNING] " + title
      case Critical => "[CRITICAL] " + title
  {
    UpperName(s);
  }


  // ----------------------------------------------------------- fingerprint

  /** `${service}:${severity}:${title}:${JSON.stringify(labels || {})}`. */
  function Fingerprint(service: string, s: Severity, title: string, labels: Option<Labels>): string {
    service + ":" + SeverityName(s) + ":" + title + ":" + Stringify(labels.GetOr([]))
  }

  /** No labels and an empty label object give the same fingerprint. */
  lemma AbsentLabelsAreEmpty(service: string, s: Severity, title: string)
    ensures Fingerprint(service, s, title, None) == Fingerprint(service, s, title, Some([]))
    ensures Fingerprint(service, s, title, None) == service + ":" + SeverityName(s) + ":" + title + ":{}"
  {
  }

  /** Within one service, alerts of different severities never share a fingerprint. */
  lemma FingerprintSeverity(service: string, a: Severity, ta: string, la: Option<Labels>,
                            b: Severity, tb: string, lb: Option<Labels>)
    requires Fingerprint(service, a, ta, la) == Fingerprint(service, b, tb, lb)
    ensures a == b
  {
    var i := |service| + 1;
    assert Fingerprint(service, a, ta, la)[i] == SeverityName(a)[0];
    assert Fingerprint(service, b, tb, lb)[i] == SeverityName(b)[0];
  }

  // ---------------------------------------------------------- one channel

  /** `sendToChannel(channel, alert)` when its `fetch` does `t`. */
  function SendToChannel(ch: Channel, s: Severity, t: Transport): bool {
    if s !in ch.severities then false
    else if ch.url.None? || ch.url.value == "" then false
    else if ch.kind == Email then true
    else t == Responded(true)
  }

  /**
   * A channel accepts an alert exactly when it takes that severity, has a
   * URL, and is an email channel or answers with an ok response.
   */
  lemma SendToChannelAccepts(ch: Channel, s: Severity, t: Transport)
    ensures SendToChannel(ch, s, t) <==>
      s in ch.severities && ch.url.Some? && ch.url.value != "" &&
      (ch.kind == Email || t == Responded(true))
  {
  }

  /** The results of `Promise.all(channels.map(...))`. */
  function Dispatch(channels: seq<Channel>, s: Severity, fetch: int -> Transport): (r: seq<bool>)
    ensures |r| == |channels|
    ensures forall i | 0 <= i < |channels| :: r[i] == SendToChannel(channels[i], s, fetch(i))
  {
    seq(|channels|, i requires 0 <= i < |channels| => SendToChannel(channels[i], s, fetch(i)))
  }

  /** `results.some(r => r)`. */
  predicate Delivered(channels: seq<Channel>, s: Severity, fetch: int -> Transport) {
    true in Dispatch(channels, s, fetch)
  }

  // --------------------------------------------------- the manager's state

  /** The settings fixed at creation. */
  datatype Config = Config(service: string, channels: seq<Channel>, window: int, rateLimit: int)

  /** `recentAlerts` and `alertCounts`. */
  datatype AlertState = AlertState(recent: map<string, int>, count: int, resetAt: int)

  /** `shouldDeduplicate(fp)`: a non-zero entry younger than the window. */
  predicate Deduplicates(recent: map<string, int>, fp: string, now: int, window: int) {
    fp in recent && recent[fp] != 0 && now - recent[fp] < window
  }

  /** The window after the reset step of `checkRateLimit`. */
  function Refreshed(st: AlertState, now: int): AlertState {
    if now >= st.resetAt then st.(count := 0, resetAt := now + 60000) else st
  }

  /**
   * `alert(...)`: the new state and the returned value (`None` for `null`).
   * `now` is the clock read by the deduplication and rate-limit checks before
   * the channels are awaited; `sentAt` is the clock read after they answered,
   * which is what a delivered alert records.
   */
  function AlertTransition(cfg: Config, st: AlertState, now: int, sentAt: int, a: AlertRecord,
                           fetch: int -> Transport)
    : (AlertState, Option<AlertRecord>)
  {
    var fp := Fingerprint(cfg.service, a.severity, a.title, a.labels);
    if Deduplicates(st.recent, fp, now, cfg.window) then (st, None)
    else
      var st1 := Refreshed(st, now);
      if st1.count >= cfg.rateLimit then (st1, None)
      else if Delivered(cfg.channels, a.severity, fetch) then
        (st1.(recent := st1.recent[fp := sentAt], count := st1.count + 1), Some(a))
      else (st1, None)
  }

  /** `resolve(title, ...)`: forget the `info` fingerprint of `title` and `labels`. */
  function ResolveTransition(cfg: Config, st: AlertState, title: string, labels: Option<Labels>): AlertState {
    st.(recent := st.recent - {Fingerprint(cfg.service, Info, title, labels)})
  }

  /** The alert object `resolve` builds and returns. */
  function Resolution(cfg: Config, title: string, message: string, labels: Option<Labels>): AlertRecord {
    AlertRecord(cfg.service, Info, "[RESOLVED] " + title, message, labels, true)
  }

  /** The count never exceeds the limit (nor drops below 0). */
  predicate Bounded(cfg: Config, st: AlertState) {
    0 <= st.count <= if cfg.rateLimit > 0 then cfg.rateLimit else 0
  }

  // ------------------------------------------------------------- lemmas

  /**
   * What `alert` decides: it returns the alert exactly when the fingerprint is
   * not deduplicated, the (refreshed) count is under the limit and some
   * channel accepted it; only then are the fingerprint and the count committed.
   */
  lemma AlertOutcome(cfg: Config, st: AlertState, now: int, sentAt: int, a: AlertRecord, fetch: int -> Transport)
    ensures var fp := Fingerprint(cfg.service, a.severity, a.title, a.labels);
      var (st', r) := AlertTransition(cfg, st, now, sentAt, a, fetch);
      && (r.Some? <==>
            !Deduplicates(st.recent, fp, now, cfg.window)
            && Refreshed(st, now).count < cfg.rateLimit
            && exists i | 0 <= i < |cfg.channels| :: SendToChannel(cfg.channels[i], a.severity, fetch(i)))
      && (r.Some? ==> r.value == a && st'.recent == st.recent[fp := sentAt]
                      && st'.count == Refreshed(st, now).count + 1)
      && (r.None? ==> st'.recent == st.recent)
      && (Deduplicates(st.recent, fp, now, cfg.window) ==> st' == st)
  {
    var d := Dispatch(cfg.channels, a.severity, fetch);
    if true in d {
      var i :| 0 <= i < |d| && d[i];
    }
  }

  /** A suppressed or undelivered alert never raises the count. */
  lemma AlertKeepsBound(cfg: Config, st: AlertState, now: int, sentAt: int, a: AlertRecord,
                        fetch: int -> Transport)
    requires Bounded(cfg, st)
    ensures Bounded(cfg, AlertTransition(cfg, st, now, sentAt, a, fetch).0)
  {
  }

  lemma ResolveKeepsBound(cfg: Config, st: AlertState, title: string, labels: Option<Labels>)
    requires Bounded(cfg, st)
    ensures Bounded(cfg, ResolveTransition(cfg, st, title, labels))
  {
  }

  /**
   * After `resolve(title, ..., labels)` an `info` alert with that title and
   * those labels is not deduplicated; every other entry is kept, in
   * particular the entry of a `warning` or `critical` alert with the same title.
   */
  lemma ResolveClearsInfoOnly(cfg: Config, st: AlertState, title: string, labels: Option<Labels>,
                              s: Severity, now: int)
    ensures !Deduplicates(ResolveTransition(cfg, st, title, labels).recent,
                          Fingerprint(cfg.service, Info, title, labels), now, cfg.window)
    ensures s != Info ==>
      Deduplicates(ResolveTransition(cfg, st, title, labels).recent,
                   Fingerprint(cfg.service, s, title, labels), now, cfg.window)
      == Deduplicates(st.recent, Fingerprint(cfg.service, s, title, labels), now, cfg.window)
    ensures ResolveTransition(cfg, st, title, labels).count == st.count
  {
    if s != Info && Fingerprint(cfg.service, s, title, labels) == Fingerprint(cfg.service, Info, title, labels) {
      FingerprintSeverity(cfg.service, s, title, labels, Info, title, labels);
    }
  }

  /** A channel that takes every severity, needs no network, and always accepts. */
  function MailAll(): Channel {
    Channel("mail", Email, Some("ops@example.com"), [Info, Warning, Critical])
  }

  /**
   * Deduplication: a second identical alert inside the window is dropped.
   * The window counts from when the first alert was sent (its channels took
   * 2 s to answer), not from when it was checked: 300.5 s after the check
   * the alert is still dropped, 300 s after the send it goes out again.
   */
  lemma DedupScenario(fetch: int -> Transport)
    ensures var cfg := Config("api", [MailAll()], 300000, 10);
      var a := AlertRecord("api", Critical, "X", "msg", None, false);
      var s0 := AlertState(map[], 0, 60000);
      var (s1, r1) := AlertTransition(cfg, s0, 1000, 3000, a, fetch);
      var (s2, r2) := AlertTransition(cfg, s1, 2000, 2000, a, fetch);
      var (s3, r3) := AlertTransition(cfg, s2, 301500, 301500, a, fetch);
      var (s4, r4) := AlertTransition(cfg, s3, 303000, 303000, a, fetch);
      r1 == Some(a) && r2.None? && r3.None? && r4 == Some(a)
  {
    var cfg := Config("api", [MailAll()], 300000, 10);
    assert Dispatch(cfg.channels, Critical, fetch)[0];
  }

  /**
   * Rate limit 2: a third distinct alert within the minute is dropped, and one
   * after the minute has rolled over goes out.
   */
  lemma RateLimitScenario(fetch: int -> Transport)
    ensures var cfg := Config("api", [MailAll()], 300000, 2);
      var s0 := AlertState(map[], 0, 60000);
      var a, b, c := AlertRecord("api", Warning, "A", "m", None, false),
                     AlertRecord("api", Warning, "B", "m", None, false),
                     AlertRecord("api", Warning, "C", "m", None, false);
      var (s1, r1) := AlertTransition(cfg, s0, 1000, 1000, a, fetch);
      var (s2, r2) := AlertTransition(cfg, s1, 2000, 2000, b, fetch);
      var (s3, r3) := AlertTransition(cfg, s2, 3000, 3000, c, fetch);
      var (s4, r4) := AlertTransition(cfg, s3, 61000, 61000, c, fetch);
      r1.Some? && r2.Some? && r3.None? && r4.Some?
  {
    var cfg := Config("api", [MailAll()], 300000, 2);
    assert Dispatch(cfg.channels, Warning, fetch)[0];
    assert Fingerprint("api", Warning, "A", None) != Fingerprint("api", Warning, "B", None) by {
      assert Fingerprint("api", Warning, "A", None)[12] == 'A';
      assert Fingerprint("api", Warning, "B", None)[12] == 'B';
    }
    assert Fingerprint("api", Warning, "C", None) != Fingerprint("api", Warning, "B", None) by {
      assert Fingerprint("api", Warning, "C", None)[12] == 'C';
      assert Fingerprint("api", Warning, "B", None)[12] == 'B';
    }
    assert Fingerprint("api", Warning, "C", None) != Fingerprint("api", Warning, "A", None) by {
      assert Fingerprint("api", Warning, "C", None)[12] == 'C';
      assert Fingerprint("api", Warning, "A", None)[12] == 'A';
    }
  }

  /**
   * `alert`, `resolve`, `alert` with the same title: an `info` alert goes out
   * again at once, a `critical` one stays deduplicated because `resolve`
   * clears the `info` fingerprint only.
   */
  lemma ResolveScenario(fetch: int -> Transport)
    ensures var cfg := Config("api", [MailAll()], 300000, 10);
      var s0 := AlertState(map[], 0, 60000);
      var info, crit := AlertRecord("api", Info, "X", "m", None, false),
                        AlertRecord("api", Critical, "X", "m", None, false);
      var (i1, _) := AlertTransition(cfg, s0, 1000, 1000, info, fetch);
      var (_, ri) := AlertTransition(cfg, ResolveTransition(cfg, i1, "X", None), 2000, 2000, info, fetch);
      var (c1, _) := AlertTransition(cfg, s0, 1000, 1000, crit, fetch);
      var (_, rc) := AlertTransition(cfg, ResolveTransition(cfg, c1, "X", None), 2000, 2000, crit, fetch);
      ri == Some(info) && rc.None?
  {
    var cfg := Config("api", [MailAll()], 300000, 10);
    assert Dispatch(cfg.channels, Info, fetch)[0];
    assert Dispatch(cfg.channels, Critical, fetch)[0];
    assert Fingerprint("api", Critical, "X", None) != Fingerprint("api", Info, "X", None) by {
      assert Fingerprint("api", Critical, "X", None)[4] == 'c';
      assert Fingerprint("api", Info, "X", None)[4] == 'i';
    }
  }

  // ------------------------------------------------------------- the object

  /** The manager returned by `createAlertManager(config)`. */
  class AlertManager {
    const service: string
    const channels: seq<Channel>
    const window: int
    const rateLimit: int
    var recent: map<string, int>
    var count: int
    var resetAt: int

    function Cfg(): Config {
      Config(service, channels, window, rateLimit)
    }

    function State(): AlertState
      reads this
    {
      AlertState(recent, count, resetAt)
    }

    ghost predicate Valid()
      reads this
    {
      Bounded(Cfg(), State())
    }

    /** Defaults: a 5 minute window and 10 alerts a minute; the first minute ends 60 s after creation. */
    constructor (createdAt: int, service: string, channels: seq<Channel>,
                 window: int := 300000, rateLimit: int := 10)
      ensures Cfg() == Config(service, channels, window, rateLimit)
      ensures State() == AlertState(map[], 0, createdAt + 60000)
      ensures Valid()
    {
      this.service := service;
      this.channels := channels;
      this.window := window;
      this.rateLimit := rateLimit;
      recent := map[];
      count := 0;
      resetAt := createdAt + 60000;
    }

    /** `checkRateLimit()`: start a new minute when due, then compare. */
    method CheckRateLimit(now: int) returns (allowed: bool)
      modifies this
      ensures State() == Refreshed(old(State()), now)
      ensures allowed <==> count < rateLimit
    {
      if now >= resetAt {
        count := 0;
        resetAt := now + 60000;
      }
      allowed := count < rateLimit;
    }

    /** `alert(severity, title, message, labels?)`. */
    method Alert(now: int, sentAt: int, severity: Severity, title: string, message: string,
                 labels: Option<Labels>, fetch: int -> Transport) returns (r: Option<AlertRecord>)
      requires Valid()
      modifies this
      ensures Valid()
      ensures (State(), r) == AlertTransition(Cfg(), old(State()), now, sentAt,
                                              AlertRecord(service, severity, title, message, labels, false), fetch)
    {
      var alert := AlertRecord(service, severity, title, message, labels, false);
      AlertKeepsBound(Cfg(), State(), now, sentAt, alert, fetch);
      var fingerprint := Fingerprint(service, severity, title, labels);
      if Deduplicates(recent, fingerprint, now, window) {
        return None;
      }
      var allowed := CheckRateLimit(now);
      if !allowed {
        return None;
      }
      var results := Dispatch(channels, severity, fetch);
      if true in results {
        recent := recent[fingerprint := sentAt];
        count := count + 1;
        r := Some(alert);
      } else {
        r := None;
      }
    }

    /** `resolve(title, message, labels?)`: always returns the resolution alert. */
    method Resolve(title: string, message: string, labels: Option<Labels>) returns (r: AlertRecord)
      requires Valid()
      modifies this
      ensures Valid()
      ensures State() == ResolveTransition(Cfg(), old(State()), title, labels)
      ensures r == Resolution(Cfg(), title, message, labels)
    {
      r := Resolution(Cfg(), title, message, labels);
      var fingerprint := Fingerprint(service, Info, title, labels);
      recent := recent - {fingerprint};
    }
  }
}
