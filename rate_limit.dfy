/**
 * Per-user rate limiting of the chat endpoints (backend/api/rate_limit.py).
 *
 * The limiter keeps one usage record per user with three request counters
 * (minute, hour, day windows), two token counters (day, month) and the time
 * at which each window next resets. A check resets the expired windows,
 * charges the request, stores the record and only then compares the counters
 * with the user's limits, so a rejected call is still charged.
 *
 * Time is an integer number of microseconds (Python `datetime` resolution).
 * The calendar month boundaries are computed by the caller and passed in.
 */
module RateLimit {
  import opened Common

  const Minute: int := 60_000_000
  const Hour: int := 3_600_000_000
  const Day: int := 86_400_000_000

  /** The five limits in force for one user. */
  datatype Limits = Limits(
    requestsPerMinute: int,
    requestsPerHour: int,
    requestsPerDay: int,
    tokensPerDay: int,
    tokensPerMonth: int)

  /** The stored `defaultLimits` document: any field may be missing. */
  datatype PartialLimits = PartialLimits(
    requestsPerMinute: Option<int>,
    requestsPerHour: Option<int>,
    requestsPerDay: Option<int>,
    tokensPerDay: Option<int>,
    tokensPerMonth: Option<int>)

  datatype UserException = UserException(username: string, limits: Limits)

  /** The `settings` sub-document; a missing key is `None`. */
  datatype Settings = Settings(
    enabled: Option<bool>,
    defaultLimits: Option<PartialLimits>,
    roleLimits: Option<map<string, Limits>>,
    userExceptions: Option<seq<UserException>>)

  /** The stored configuration document (`{"type": "rate_limit", "settings": …}`). */
  datatype ConfigDoc = ConfigDoc(settings: Option<Settings>)

  /** The user document fields the limiter reads. */
  datatype UserDoc = UserDoc(username: Option<string>, role: Option<string>)

  /** Outcome of the user lookup, which is a database call. */
  datatype UserLookup = Found(user: UserDoc) | NotFound | LookupFailed(error: string)

  /**
   * The moment of the call and the two calendar instants derived from it:
   * `month_start_plus_32` is `now.replace(day=1, 00:00) + 32 days`, which a new
   * record uses as its month reset, and `next_month_start` is the first
   * instant of the next month, which a month reset stores.
   */
  datatype Clock = Clock(now: int, monthStartPlus32: int, nextMonthStart: int)

  /** What a real clock guarantees: both month instants lie in the future. */
  predicate SaneClock(c: Clock)
  {
    c.monthStartPlus32 > c.now && c.nextMonthStart > c.now
  }

  datatype Usage = Usage(
    requestsPerMinute: int,
    requestsPerHour: int,
    requestsPerDay: int,
    tokensToday: int,
    tokensThisMonth: int,
    minuteReset: int,
    hourReset: int,
    dayReset: int,
    monthReset: int)

  datatype UsageRecord = UsageRecord(username: Option<string>, usage: Usage, lastUpdated: int)

  /**
   * MongoDB compares an ObjectId and a string as different values, so the
   * key a record is stored under depends on the form of the user id.
   */
  datatype RecordKey = ObjectIdKey(hex: string) | StringKey(id: string)

  predicate IsHexDigit(c: char)
  {
    '0' <= c <= '9' || 'a' <= c <= 'f' || 'A' <= c <= 'F'
  }

  /** `ObjectId.is_valid` on a string: exactly 24 hexadecimal digits. */
  predicate IsObjectIdText(s: string)
  {
    |s| == 24 && forall i :: 0 <= i < |s| ==> IsHexDigit(s[i])
  }

  /** The key check_rate_limit uses (`user_id_obj` when the id converts, else the string). */
  function StoreKey(userId: string): (k: RecordKey)
    ensures k.ObjectIdKey? <==> IsObjectIdText(userId)
    ensures k.StringKey? ==> k.id == userId
  {
    if IsObjectIdText(userId) then ObjectIdKey(Lower(userId)) else StringKey(userId)
  }

  datatype Verdict = Allowed | Rejected(message: string) | Raised(error: string)

  const UnknownUserMessage: string := "Người dùng không tồn tại"
  const LookupErrorPrefix: string := "Lỗi khi kiểm tra giới hạn tốc độ: "

  function LimitMessage(what: string, limit: int): string
  {
    "Vượt quá giới hạn " + what + " (" + IntToString(limit) + ")"
  }

  const PerMinute: string := "yêu cầu mỗi phút"
  const PerHour: string := "yêu cầu mỗi giờ"
  const PerDay: string := "yêu cầu mỗi ngày"
  const TokensDaily: string := "token mỗi ngày"
  const TokensMonthly: string := "token mỗi tháng"

  /** `not config.get("settings", {}).get("enabled", True)`. */
  predicate Disabled(config: ConfigDoc)
  {
    config.settings.Some? && config.settings.value.enabled == Some(false)
  }

  /** The first user exception whose username equals the user's username. */
  function FirstException(exceptions: seq<UserException>, username: Option<string>): (r: Option<Limits>)
    ensures r.None? <==> forall i :: 0 <= i < |exceptions| ==> username != Some(exceptions[i].username)
    ensures r.Some? ==> exists i :: (0 <= i < |exceptions| && username == Some(exceptions[i].username)
      && r.value == exceptions[i].limits
      && forall j :: 0 <= j < i ==> username != Some(exceptions[j].username))
  {
    if exceptions == [] then None
    else if username == Some(exceptions[0].username) then Some(exceptions[0].limits)
    else
      var r := FirstException(exceptions[1..], username);
      assert r.Some? ==> exists i :: (1 <= i < |exceptions| && username == Some(exceptions[i].username)
        && r.value == exceptions[i].limits
        && forall j :: 1 <= j < i ==> username != Some(exceptions[j].username))
      by {
        if r.Some? {
          var i :| 0 <= i < |exceptions[1..]| && username == Some(exceptions[1..][i].username)
            && r.value == exceptions[1..][i].limits
            && forall j :: 0 <= j < i ==> username != Some(exceptions[1..][j].username);
          assert forall j :: 1 <= j < i + 1 ==> exceptions[j] == exceptions[1..][j - 1];
        }
      }
      r
  }

  /** The default limits with the per-field fallbacks 10/100/500/50000/500000. */
  function DefaultLimits(d: Option<PartialLimits>): (l: Limits)
    ensures d.None? ==> l == Limits(10, 100, 500, 50000, 500000)
    ensures d.Some? ==>
      && (d.value.requestsPerMinute.Some? ==> l.requestsPerMinute == d.value.requestsPerMinute.value)
      && (d.value.requestsPerMinute.None? ==> l.requestsPerMinute == 10)
      && (d.value.requestsPerHour.Some? ==> l.requestsPerHour == d.value.requestsPerHour.value)
      && (d.value.requestsPerHour.None? ==> l.requestsPerHour == 100)
      && (d.value.requestsPerDay.Some? ==> l.requestsPerDay == d.value.requestsPerDay.value)
      && (d.value.requestsPerDay.None? ==> l.requestsPerDay == 500)
      && (d.value.tokensPerDay.Some? ==> l.tokensPerDay == d.value.tokensPerDay.value)
      && (d.value.tokensPerDay.None? ==> l.tokensPerDay == 50000)
      && (d.value.tokensPerMonth.Some? ==> l.tokensPerMonth == d.value.tokensPerMonth.value)
      && (d.value.tokensPerMonth.None? ==> l.tokensPerMonth == 500000)
  {
    var p := if d.Some? then d.value else PartialLimits(None, None, None, None, None);
    Limits(
      if p.requestsPerMinute.Some? then p.requestsPerMinute.value else 10,
      if p.requestsPerHour.Some? then p.requestsPerHour.value else 100,
      if p.requestsPerDay.Some? then p.requestsPerDay.value else 500,
      if p.tokensPerDay.Some? then p.tokensPerDay.value else 50000,
      if p.tokensPerMonth.Some? then p.tokensPerMonth.value else 500000)
  }

  /** `user.get("role", "user")`. */
  function RoleOf(user: UserDoc): string
  {
    if user.role.Some? then user.role.value else "user"
  }

  /**
   * The limits resolution shared by check_rate_limit and get_rate_limit_stats:
   * a matching user exception, else the role's limits, else the defaults.
   */
  function ResolveLimits(s: Settings, user: UserDoc): Limits
  {
    var exceptions := if s.userExceptions.Some? then s.userExceptions.value else [];
    var roles := if s.roleLimits.Some? then s.roleLimits.value else map[];
    var fromException := FirstException(exceptions, user.username);
    if fromException.Some? then fromException.value
    else if RoleOf(user) in roles then roles[RoleOf(user)]
    else DefaultLimits(s.defaultLimits)
  }

  /** A user exception wins over role limits, which win over the defaults. */
  lemma ResolveLimitsPriority(s: Settings, user: UserDoc, i: nat)
    requires s.userExceptions.Some? && i < |s.userExceptions.value|
    requires user.username == Some(s.userExceptions.value[i].username)
    requires forall j :: 0 <= j < i ==> user.username != Some(s.userExceptions.value[j].username)
    ensures ResolveLimits(s, user) == s.userExceptions.value[i].limits
  {
    var ex := s.userExceptions.value;
    var r := FirstException(ex, user.username);
    var k :| 0 <= k < |ex| && user.username == Some(ex[k].username) && r.value == ex[k].limits
      && forall j :: 0 <= j < k ==> user.username != Some(ex[j].username);
    assert k == i;
  }

  /** Without a matching exception the role's limits apply, and without those the defaults. */
  lemma ResolveLimitsFallback(s: Settings, user: UserDoc)
    requires s.userExceptions.None? || forall i :: 0 <= i < |s.userExceptions.value| ==>
      user.username != Some(s.userExceptions.value[i].username)
    ensures s.roleLimits.Some? && RoleOf(user) in s.roleLimits.value ==>
      ResolveLimits(s, user) == s.roleLimits.value[RoleOf(user)]
    ensures (s.roleLimits.None? || RoleOf(user) !in s.roleLimits.value) ==>
      ResolveLimits(s, user) == DefaultLimits(s.defaultLimits)
    ensures (s.roleLimits.None? || RoleOf(user) !in s.roleLimits.value) && s.defaultLimits.None? ==>
      ResolveLimits(s, user) == Limits(10, 100, 500, 50000, 500000)
  {
  }

  /** A new record: zero counters and each window ending one period from now. */
  function FreshUsage(c: Clock): (u: Usage)
    ensures u.requestsPerMinute == 0 && u.requestsPerHour == 0 && u.requestsPerDay == 0
    ensures u.tokensToday == 0 && u.tokensThisMonth == 0
    ensures SaneClock(c) ==> u.minuteReset > c.now && u.hourReset > c.now && u.dayReset > c.now && u.monthReset > c.now
  {
    Usage(0, 0, 0, 0, 0, c.now + Minute, c.now + Hour, c.now + Day, c.monthStartPlus32)
  }

  /** The lazy resets: every expired window restarts at zero, in the order minute, hour, day, month. */
  function Refresh(u: Usage, c: Clock): Usage
  {
    var u1 := if c.now >= u.minuteReset then u.(requestsPerMinute := 0, minuteReset := c.now + Minute) else u;
    var u2 := if c.now >= u1.hourReset then u1.(requestsPerHour := 0, hourReset := c.now + Hour) else u1;
    var u3 := if c.now >= u2.dayReset
      then u2.(requestsPerDay := 0, tokensToday := 0, dayReset := c.now + Day) else u2;
    if c.now >= u3.monthReset then u3.(tokensThisMonth := 0, monthReset := c.nextMonthStart) else u3
  }

  /** After a refresh every window is current, and a window that had not expired is untouched. */
  lemma RefreshMakesWindowsCurrent(u: Usage, c: Clock)
    requires SaneClock(c)
    ensures var r := Refresh(u, c);
      r.minuteReset > c.now && r.hourReset > c.now && r.dayReset > c.now && r.monthReset > c.now
    ensures var r := Refresh(u, c);
      (c.now < u.minuteReset ==> r.requestsPerMinute == u.requestsPerMinute && r.minuteReset == u.minuteReset)
      && (c.now >= u.minuteReset ==> r.requestsPerMinute == 0 && r.minuteReset == c.now + Minute)
      && (c.now < u.hourReset ==> r.requestsPerHour == u.requestsPerHour && r.hourReset == u.hourReset)
      && (c.now >= u.hourReset ==> r.requestsPerHour == 0 && r.hourReset == c.now + Hour)
      && (c.now < u.dayReset ==>
            r.requestsPerDay == u.requestsPerDay && r.tokensToday == u.tokensToday && r.dayReset == u.dayReset)
      && (c.now >= u.dayReset ==> r.requestsPerDay == 0 && r.tokensToday == 0 && r.dayReset == c.now + Day)
      && (c.now < u.monthReset ==> r.tokensThisMonth == u.tokensThisMonth && r.monthReset == u.monthReset)
      && (c.now >= u.monthReset ==> r.tokensThisMonth == 0 && r.monthReset == c.nextMonthStart)
  {
  }

  /** Refreshing twice at the same moment is refreshing once. */
  lemma RefreshIdempotent(u: Usage, c: Clock)
    requires SaneClock(c)
    ensures Refresh(Refresh(u, c), c) == Refresh(u, c)
  {
    RefreshMakesWindowsCurrent(u, c);
  }

  /** One request charge (`count_as_request`) and the tokens, which are always added. */
  function Charge(u: Usage, tokens: int, countAsRequest: bool): (r: Usage)
    ensures r.tokensToday == u.tokensToday + tokens && r.tokensThisMonth == u.tokensThisMonth + tokens
    ensures var d := if countAsRequest then 1 else 0;
      r.requestsPerMinute == u.requestsPerMinute + d && r.requestsPerHour == u.requestsPerHour + d
      && r.requestsPerDay == u.requestsPerDay + d
    ensures r.minuteReset == u.minuteReset && r.hourReset == u.hourReset
      && r.dayReset == u.dayReset && r.monthReset == u.monthReset
  {
    var d := if countAsRequest then 1 else 0;
    u.(requestsPerMinute := u.requestsPerMinute + d,
       requestsPerHour := u.requestsPerHour + d,
       requestsPerDay := u.requestsPerDay + d,
       tokensToday := u.tokensToday + tokens,
       tokensThisMonth := u.tokensThisMonth + tokens)
  }

  /** The five comparisons, each strict, in the order the source makes them. */
  function Judge(u: Usage, l: Limits): Verdict
  {
    if u.requestsPerMinute > l.requestsPerMinute then Rejected(LimitMessage(PerMinute, l.requestsPerMinute))
    else if u.requestsPerHour > l.requestsPerHour then Rejected(LimitMessage(PerHour, l.requestsPerHour))
    else if u.requestsPerDay > l.requestsPerDay then Rejected(LimitMessage(PerDay, l.requestsPerDay))
    else if u.tokensToday > l.tokensPerDay then Rejected(LimitMessage(TokensDaily, l.tokensPerDay))
    else if u.tokensThisMonth > l.tokensPerMonth then Rejected(LimitMessage(TokensMonthly, l.tokensPerMonth))
    else Allowed
  }

  predicate WithinLimits(u: Usage, l: Limits)
  {
    u.requestsPerMinute <= l.requestsPerMinute && u.requestsPerHour <= l.requestsPerHour
    && u.requestsPerDay <= l.requestsPerDay && u.tokensToday <= l.tokensPerDay
    && u.tokensThisMonth <= l.tokensPerMonth
  }

  /**
   * A call is allowed exactly when no counter exceeds its limit (reaching the
   * limit is allowed), and a rejection names the first limit exceeded.
   */
  lemma JudgeStrict(u: Usage, l: Limits)
    ensures Judge(u, l) == Allowed <==> WithinLimits(u, l)
    ensures Judge(u, l) != Allowed ==> Judge(u, l).Rejected?
    ensures u.requestsPerMinute > l.requestsPerMinute ==>
      Judge(u, l) == Rejected(LimitMessage(PerMinute, l.requestsPerMinute))
    ensures u.requestsPerMinute <= l.requestsPerMinute && u.requestsPerHour > l.requestsPerHour ==>
      Judge(u, l) == Rejected(LimitMessage(PerHour, l.requestsPerHour))
    ensures (u.requestsPerMinute <= l.requestsPerMinute && u.requestsPerHour <= l.requestsPerHour
             && u.requestsPerDay > l.requestsPerDay) ==>
      Judge(u, l) == Rejected(LimitMessage(PerDay, l.requestsPerDay))
    ensures (u.requestsPerMinute <= l.requestsPerMinute && u.requestsPerHour <= l.requestsPerHour
             && u.requestsPerDay <= l.requestsPerDay && u.tokensToday > l.tokensPerDay) ==>
      Judge(u, l) == Rejected(LimitMessage(TokensDaily, l.tokensPerDay))
    ensures (u.requestsPerMinute <= l.requestsPerMinute && u.requestsPerHour <= l.requestsPerHour
             && u.requestsPerDay <= l.requestsPerDay && u.tokensToday <= l.tokensPerDay
             && u.tokensThisMonth > l.tokensPerMonth) ==>
      Judge(u, l) == Rejected(LimitMessage(TokensMonthly, l.tokensPerMonth))
  {
  }

  /** The record a check stores: the existing one or a new one, refreshed and charged. */
  function ChargedRecord(old_: Option<UsageRecord>, username: Option<string>, c: Clock, tokens: int, countAsRequest: bool): UsageRecord
  {
    var base := if old_.Some? then old_.value else UsageRecord(username, FreshUsage(c), c.now);
    base.(usage := Charge(Refresh(base.usage, c), tokens, countAsRequest), lastUpdated := c.now)
  }

  const MissingSettings: string := "KeyError: 'settings'"

  datatype CheckResult = CheckResult(verdict: Verdict, records: map<RecordKey, UsageRecord>)

  /** What one check_rate_limit call returns and leaves in the `rate_limits` collection. */
  function Check(config: Option<ConfigDoc>, records: map<RecordKey, UsageRecord>, userId: string,
                 lookup: UserLookup, c: Clock, tokens: int, countAsRequest: bool): CheckResult
  {
    if config.None? || Disabled(config.value) then CheckResult(Allowed, records)
    else
      match lookup
      case NotFound => CheckResult(Rejected(UnknownUserMessage), records)
      case LookupFailed(e) => CheckResult(Rejected(LookupErrorPrefix + e), records)
      case Found(user) =>
        if config.value.settings.None? then CheckResult(Raised(MissingSettings), records)
        else
          var key := StoreKey(userId);
          var stored := ChargedRecord(if key in records then Some(records[key]) else None,
                                      user.username, c, tokens, countAsRequest);
          CheckResult(Judge(stored.usage, ResolveLimits(config.value.settings.value, user)), records[key := stored])
  }

  /**
   * Without a configuration, with the limiter disabled, or for a user that
   * cannot be found, the call is decided without touching any counter.
   */
  lemma CheckWithoutCounting(config: Option<ConfigDoc>, records: map<RecordKey, UsageRecord>, userId: string,
                             lookup: UserLookup, c: Clock, tokens: int, countAsRequest: bool)
    requires config.None? || Disabled(config.value) || lookup.NotFound? || lookup.LookupFailed?
    ensures var r := Check(config, records, userId, lookup, c, tokens, countAsRequest);
      r.records == records
      && (config.None? || Disabled(config.value) ==> r.verdict == Allowed)
      && (config.Some? && !Disabled(config.value) && lookup.NotFound? ==> r.verdict == Rejected("Người dùng không tồn tại"))
      && (config.Some? && !Disabled(config.value) && lookup.LookupFailed? ==>
            r.verdict == Rejected("Lỗi khi kiểm tra giới hạn tốc độ: " + lookup.error))
  {
  }

  /**
   * An active check stores the charged record under the user's key, leaves
   * every other user's record alone, and judges the counters it stored: a
   * rejected call has been charged all the same.
   */
  lemma CheckChargesThenJudges(config: Option<ConfigDoc>, records: map<RecordKey, UsageRecord>, userId: string,
                               user: UserDoc, c: Clock, tokens: int, countAsRequest: bool)
    requires config.Some? && !Disabled(config.value) && config.value.settings.Some?
    ensures var r := Check(config, records, userId, Found(user), c, tokens, countAsRequest);
      var key := StoreKey(userId);
      var before := if key in records then records[key].usage else FreshUsage(c);
      var after := Refresh(before, c);
      var d := if countAsRequest then 1 else 0;
      key in r.records
      && (forall k :: k in records && k != key ==> k in r.records && r.records[k] == records[k])
      && r.records.Keys == records.Keys + {key}
      && r.records[key].usage.requestsPerMinute == after.requestsPerMinute + d
      && r.records[key].usage.requestsPerHour == after.requestsPerHour + d
      && r.records[key].usage.requestsPerDay == after.requestsPerDay + d
      && r.records[key].usage.tokensToday == after.tokensToday + tokens
      && r.records[key].usage.tokensThisMonth == after.tokensThisMonth + tokens
      && (r.verdict == Allowed <==> WithinLimits(r.records[key].usage, ResolveLimits(config.value.settings.value, user)))
      && (r.verdict != Allowed ==> r.verdict.Rejected?)
  {
    var key := StoreKey(userId);
    var stored := ChargedRecord(if key in records then Some(records[key]) else None, user.username, c, tokens, countAsRequest);
    JudgeStrict(stored.usage, ResolveLimits(config.value.settings.value, user));
  }

  /** A user seen for the first time is charged from zero: the stored counters are just this call's charge. */
  lemma CheckFirstSeenUser(config: Option<ConfigDoc>, records: map<RecordKey, UsageRecord>, userId: string,
                           user: UserDoc, c: Clock, tokens: int, countAsRequest: bool)
    requires config.Some? && !Disabled(config.value) && config.value.settings.Some?
    requires StoreKey(userId) !in records && SaneClock(c)
    ensures var u := Check(config, records, userId, Found(user), c, tokens, countAsRequest).records[StoreKey(userId)].usage;
      var d := if countAsRequest then 1 else 0;
      u.requestsPerMinute == d && u.requestsPerHour == d && u.requestsPerDay == d
      && u.tokensToday == tokens && u.tokensThisMonth == tokens
      && u.minuteReset == c.now + Minute && u.hourReset == c.now + Hour && u.dayReset == c.now + Day
  {
  }

  class RateLimiter {
    /** The `settings` collection's rate-limit document, if any. */
    var config: Option<ConfigDoc>
    /** The `rate_limits` collection, keyed by the stored `user_id`. */
    var records: map<RecordKey, UsageRecord>

    constructor (config: Option<ConfigDoc>, records: map<RecordKey, UsageRecord>)
      ensures this.config == config && this.records == records
    {
      this.config := config;
      this.records := records;
    }

    /** The user-exception scan: a `for` loop that stops at the first match. */
    static method FindUserException(exceptions: seq<UserException>, username: Option<string>) returns (found: Option<Limits>)
      ensures found == FirstException(exceptions, username)
    {
      found := None;
      var i := 0;
      while i < |exceptions|
        invariant 0 <= i <= |exceptions|
        invariant forall j :: 0 <= j < i ==> username != Some(exceptions[j].username)
      {
        if Some(exceptions[i].username) == username {
          found := Some(exceptions[i].limits);
          FirstExceptionAt(exceptions, username, i);
          return;
        }
        i := i + 1;
      }
    }

    static lemma FirstExceptionAt(exceptions: seq<UserException>, username: Option<string>, i: nat)
      requires i < |exceptions| && username == Some(exceptions[i].username)
      requires forall j :: 0 <= j < i ==> username != Some(exceptions[j].username)
      ensures FirstException(exceptions, username) == Some(exceptions[i].limits)
    {
      var r := FirstException(exceptions, username);
      var k :| 0 <= k < |exceptions| && username == Some(exceptions[k].username) && r.value == exceptions[k].limits
        && forall j :: 0 <= j < k ==> username != Some(exceptions[j].username);
      assert k == i;
    }

    /**
     * check_rate_limit: returns the verdict, and when the limiter is active
     * and the user exists, stores the refreshed and charged record first.
     */
    method CheckRateLimit(userId: string, lookup: UserLookup, c: Clock, tokenCount: int, countAsRequest: bool)
      returns (v: Verdict)
      modifies this`records
      ensures config == old(config)
      ensures CheckResult(v, records) == Check(config, old(records), userId, lookup, c, tokenCount, countAsRequest)
    {
      if config.None? || Disabled(config.value) {
        return Allowed;
      }
      var user: UserDoc;
      match lookup {
        case NotFound => return Rejected(UnknownUserMessage);
        case LookupFailed(e) => return Rejected(LookupErrorPrefix + e);
        case Found(u) => user := u;
      }
      if config.value.settings.None? {
        // `config["settings"]` on a document without that key.
        return Raised(MissingSettings);
      }
      var settings := config.value.settings.value;
      var exceptions := if settings.userExceptions.Some? then settings.userExceptions.value else [];
      var limits: Limits;
      var fromException := FindUserException(exceptions, user.username);
      if fromException.Some? {
        limits := fromException.value;
      } else {
        var roles := if settings.roleLimits.Some? then settings.roleLimits.value else map[];
        limits := if RoleOf(user) in roles then roles[RoleOf(user)] else DefaultLimits(settings.defaultLimits);
      }
      var key := StoreKey(userId);
      var stats: UsageRecord;
      if key in records {
        stats := records[key];
      } else {
        stats := UsageRecord(user.username, FreshUsage(c), c.now);
      }
      stats := stats.(usage := Refresh(stats.usage, c));
      stats := stats.(usage := Charge(stats.usage, tokenCount, countAsRequest), lastUpdated := c.now);
      records := records[key := stats];
      v := Judge(stats.usage, limits);
    }

    /** The key get_rate_limit_stats queries with: the id string as given. */
    static function StatsKey(userId: string): RecordKey
    {
      StringKey(userId)
    }

    /** Same, as evidently intended: the key check_rate_limit stores under. */
    static function StatsKeyCorrected(userId: string): RecordKey
    {
      StoreKey(userId)
    }

    function StatsAt(key: RecordKey, user: UserDoc, c: Clock): Result<StatsReport>
      reads this
    {
      StatsReportFor(config, records, key, user, c)
    }

    /**
     * get_rate_limit_stats as written: the record is looked up by the id
     * string; without a configuration the limits read "not set"; otherwise
     * they are the limits check_rate_limit enforces for the same user.
     */
    function Stats(userId: string, user: UserDoc, c: Clock): (r: Result<StatsReport>)
      reads this
      ensures r.Ok? ==> r.value.usage == (if StringKey(userId) in records then records[StringKey(userId)].usage else FreshUsage(c))
      ensures config.None? ==> r.Ok? && r.value.limits == NotConfigured
      ensures config.Some? && config.value.settings.None? ==> r.Err?
      ensures config.Some? && config.value.settings.Some? ==>
        r.Ok? && r.value.limits == Configured(ResolveLimits(config.value.settings.value, user),
                                              config.value.settings.value.enabled != Some(false))
    {
      StatsAt(StatsKey(userId), user, c)
    }

    /** get_rate_limit_stats with the record looked up under the key check_rate_limit stores it by. */
    function StatsCorrected(userId: string, user: UserDoc, c: Clock): (r: Result<StatsReport>)
      reads this
      ensures r.Ok? ==> r.value.usage == (if StoreKey(userId) in records then records[StoreKey(userId)].usage else FreshUsage(c))
    {
      StatsAt(StatsKeyCorrected(userId), user, c)
    }

  }

  /**
   * The report get_rate_limit_stats builds when it looks the record up under
   * `key`: the stored usage (or a fresh record when none is found), and the
   * resolved limits with the `enabled` flag when a configuration exists.
   */
  function StatsReportFor(config: Option<ConfigDoc>, records: map<RecordKey, UsageRecord>,
                          key: RecordKey, user: UserDoc, c: Clock): Result<StatsReport>
  {
    var usage := if key in records then records[key].usage else FreshUsage(c);
    if config.None? then Ok(StatsReport(usage, NotConfigured))
    else if config.value.settings.None? then Err(MissingSettings)
    else
      var s := config.value.settings.value;
      Ok(StatsReport(usage, Configured(ResolveLimits(s, user), s.enabled != Some(false))))
  }

  datatype Result<T> = Ok(value: T) | Err(error: string)

  /** `"limits"` is the text "Chưa thiết lập giới hạn" when no configuration is stored. */
  datatype LimitsView = NotConfigured | Configured(limits: Limits, enabled: bool)

  datatype StatsReport = StatsReport(usage: Usage, limits: LimitsView)

  /**
   * As written, get_rate_limit_stats never sees the record check_rate_limit
   * stores for a user whose id is an ObjectId text: the two keys differ, so
   * after any number of charged calls the report shows a fresh record.
   */
  lemma StatsMissesStoredRecord(config: Option<ConfigDoc>, records: map<RecordKey, UsageRecord>,
                                 userId: string, user: UserDoc, c: Clock, tokens: int)
    requires IsObjectIdText(userId) && SaneClock(c)
    requires config.Some? && !Disabled(config.value) && config.value.settings.Some?
    requires StringKey(userId) !in records && StoreKey(userId) !in records
    ensures var after := Check(config, records, userId, Found(user), c, tokens, true).records;
      after[StoreKey(userId)].usage.requestsPerMinute == 1
      && StatsReportFor(config, after, RateLimiter.StatsKey(userId), user, c).Ok?
      && StatsReportFor(config, after, RateLimiter.StatsKey(userId), user, c).value.usage.requestsPerMinute == 0
  {
    CheckFirstSeenUser(config, records, userId, user, c, tokens, true);
  }

  /** With the corrected key, the report shows exactly the counters the last check stored. */
  lemma StatsCorrectedSeesStoredRecord(config: Option<ConfigDoc>, records: map<RecordKey, UsageRecord>,
                                        userId: string, user: UserDoc, c: Clock, tokens: int, countAsRequest: bool)
    requires config.Some? && !Disabled(config.value) && config.value.settings.Some?
    ensures var after := Check(config, records, userId, Found(user), c, tokens, countAsRequest).records;
      StatsReportFor(config, after, RateLimiter.StatsKeyCorrected(userId), user, c).Ok?
      && StatsReportFor(config, after, RateLimiter.StatsKeyCorrected(userId), user, c).value.usage
         == after[StoreKey(userId)].usage
  {
  }

  /** Example: a concrete id showing the mismatch, 24 hexadecimal digits. */
  lemma StatsKeyMismatchExample()
    ensures var id := "65a1b2c3d4e5f60718293a4b";
      IsObjectIdText(id) && RateLimiter.StatsKey(id) != StoreKey(id)
  {
    var id := "65a1b2c3d4e5f60718293a4b";
    assert |id| == 24;
  }

  /** One entry of `mostActiveUsers` / `mostTokenUsers`. */
  datatype UsageSummary = UsageSummary(
    totalRequestsToday: int,
    totalTokensToday: int,
    totalTokensThisMonth: int,
    activeUsersCount: nat,
    mostActiveUsers: seq<UsageRecord>,
    mostTokenUsers: seq<UsageRecord>)

  /** The two columns the summary ranks users by. */
  datatype Column = RequestsToday | TokensThisMonth

  function KeyOf(col: Column, r: UsageRecord): int
  {
    match col
    case RequestsToday => r.usage.requestsPerDay
    case TokensThisMonth => r.usage.tokensThisMonth
  }

  function SumRequests(rs: seq<UsageRecord>): int
  {
    if rs == [] then 0 else rs[0].usage.requestsPerDay + SumRequests(rs[1..])
  }

  function SumTokensToday(rs: seq<UsageRecord>): int
  {
    if rs == [] then 0 else rs[0].usage.tokensToday + SumTokensToday(rs[1..])
  }

  function SumTokensMonth(rs: seq<UsageRecord>): int
  {
    if rs == [] then 0 else rs[0].usage.tokensThisMonth + SumTokensMonth(rs[1..])
  }

  predicate SortedDesc(s: seq<UsageRecord>, col: Column)
  {
    forall i, j :: 0 <= i < j < |s| ==> KeyOf(col, s[i]) >= KeyOf(col, s[j])
  }

  /**
   * Insert `x` into a list sorted by non-increasing key, before the first
   * element whose key is not greater: an equal element that came later in
   * the input stays behind it, as in the stable `sorted(..., reverse=True)`.
   */
  function InsertDesc(x: UsageRecord, s: seq<UsageRecord>, col: Column): (r: seq<UsageRecord>)
    ensures multiset(r) == multiset(s) + multiset{x}
    ensures |r| == |s| + 1
  {
    if s == [] || KeyOf(col, s[0]) <= KeyOf(col, x) then [x] + s
    else
      assert s == [s[0]] + s[1..];
      [s[0]] + InsertDesc(x, s[1..], col)
  }

  predicate AllAtMost(s: seq<UsageRecord>, col: Column, bound: int)
  {
    forall j :: 0 <= j < |s| ==> KeyOf(col, s[j]) <= bound
  }

  lemma {:induction false} InsertDescBounded(x: UsageRecord, s: seq<UsageRecord>, col: Column, bound: int)
    requires AllAtMost(s, col, bound) && KeyOf(col, x) <= bound
    ensures AllAtMost(InsertDesc(x, s, col), col, bound)
  {
    if s != [] && KeyOf(col, s[0]) > KeyOf(col, x) {
      InsertDescBounded(x, s[1..], col, bound);
      var r := InsertDesc(x, s, col);
      assert r == [s[0]] + InsertDesc(x, s[1..], col);
      forall j | 0 < j < |r| ensures KeyOf(col, r[j]) <= bound {
        assert r[j] == InsertDesc(x, s[1..], col)[j - 1];
      }
    }
  }

  lemma SortedDescCons(h: UsageRecord, t: seq<UsageRecord>, col: Column)
    requires SortedDesc(t, col) && AllAtMost(t, col, KeyOf(col, h))
    ensures SortedDesc([h] + t, col)
  {
    var r := [h] + t;
    forall i, j | 0 <= i < j < |r| ensures KeyOf(col, r[i]) >= KeyOf(col, r[j]) {
      assert r[j] == t[j - 1];
      if i > 0 { assert r[i] == t[i - 1]; }
    }
  }

  lemma {:induction false} InsertDescSorted(x: UsageRecord, s: seq<UsageRecord>, col: Column)
    requires SortedDesc(s, col)
    ensures SortedDesc(InsertDesc(x, s, col), col)
  {
    if s == [] || KeyOf(col, s[0]) <= KeyOf(col, x) {
      assert AllAtMost(s, col, KeyOf(col, x)) by {
        forall j | 0 <= j < |s| ensures KeyOf(col, s[j]) <= KeyOf(col, x) {
          if j > 0 { assert KeyOf(col, s[0]) >= KeyOf(col, s[j]); }
        }
      }
      SortedDescCons(x, s, col);
    } else {
      var t := s[1..];
      assert SortedDesc(t, col);
      InsertDescSorted(x, t, col);
      assert AllAtMost(t, col, KeyOf(col, s[0])) by {
        forall j | 0 <= j < |t| ensures KeyOf(col, t[j]) <= KeyOf(col, s[0]) {
          assert t[j] == s[j + 1];
        }
      }
      InsertDescBounded(x, t, col, KeyOf(col, s[0]));
      SortedDescCons(s[0], InsertDesc(x, t, col), col);
    }
  }

  /** `sorted(records, key=…, reverse=True)`. */
  function SortDesc(s: seq<UsageRecord>, col: Column): (r: seq<UsageRecord>)
    ensures multiset(r) == multiset(s)
    ensures |r| == |s|
  {
    if s == [] then []
    else
      assert s == [s[0]] + s[1..];
      InsertDesc(s[0], SortDesc(s[1..], col), col)
  }

  lemma {:induction false} SortDescSorted(s: seq<UsageRecord>, col: Column)
    ensures SortedDesc(SortDesc(s, col), col)
  {
    if s != [] {
      SortDescSorted(s[1..], col);
      InsertDescSorted(s[0], SortDesc(s[1..], col), col);
    }
  }

  /** get_rate_limit_usage_summary over the records in collection order. */
  function Summary(rs: seq<UsageRecord>): UsageSummary
  {
    UsageSummary(
      SumRequests(rs),
      SumTokensToday(rs),
      SumTokensMonth(rs),
      |rs|,
      Take(SortDesc(rs, RequestsToday), 5),
      Take(SortDesc(rs, TokensThisMonth), 5))
  }

  /**
   * The top lists hold at most five records, drawn from the input, in
   * non-increasing order, and no record left out ranks above one kept.
   */
  lemma SummaryTopLists(rs: seq<UsageRecord>, col: Column)
    ensures var s := Summary(rs);
      var top := if col == RequestsToday then s.mostActiveUsers else s.mostTokenUsers;
      s.activeUsersCount == |rs|
      && |top| == (if |rs| < 5 then |rs| else 5)
      && SortedDesc(top, col)
      && multiset(top) <= multiset(rs)
      && forall i, j :: 0 <= i < |top| && |top| <= j < |rs| ==> KeyOf(col, top[i]) >= KeyOf(col, SortDesc(rs, col)[j])
  {
    var top := if col == RequestsToday then Summary(rs).mostActiveUsers else Summary(rs).mostTokenUsers;
    assert top == Take(SortDesc(rs, col), 5);
    TopFive(rs, col);
  }

  /** The first five of the records sorted on `col`. */
  lemma TopFive(rs: seq<UsageRecord>, col: Column)
    ensures var sorted := SortDesc(rs, col);
      var top := Take(sorted, 5);
      && |top| == (if |rs| < 5 then |rs| else 5)
      && SortedDesc(top, col)
      && multiset(top) <= multiset(rs)
      && forall i, j :: 0 <= i < |top| && |top| <= j < |rs| ==> KeyOf(col, top[i]) >= KeyOf(col, sorted[j])
  {
    var sorted := SortDesc(rs, col);
    SortDescSorted(rs, col);
    TakeSubMultiset(sorted, 5);
  }

  lemma TakeSubMultiset(s: seq<UsageRecord>, k: nat)
    ensures multiset(Take(s, k)) <= multiset(s)
  {
    if k < |s| {
      assert s == s[..k] + s[k..];
    }
  }

  /** Adding a record to the collection adds its counter to the total, wherever it lands. */
  lemma {:induction false} SumRequestsAppend(rs: seq<UsageRecord>, x: UsageRecord)
    ensures SumRequests(rs + [x]) == SumRequests(rs) + x.usage.requestsPerDay
  {
    if rs == [] {
      assert rs + [x] == [x];
    } else {
      assert (rs + [x])[1..] == rs[1..] + [x];
      SumRequestsAppend(rs[1..], x);
    }
  }
}
