/** The entitlement store of src/subscription/subscription_manager.py: a map
    from user-id string to a subscription record, a fixed two-row limit
    table, lazy expiry on read and a per-day article counter.

    The JSON file is the map itself (saving is a no-op); the clock is two
    integer parameters, `now` in seconds and `today` as a day number. Each
    operation of the manager is first given as a function from the old map
    to the new one (and to its answer), with the properties proved about
    those functions; the class SubscriptionManager then performs the same
    updates in place and is proved against them. */
module Subscription {
  import opened Wrappers
  import opened Seqs

  const SecondsPerDay := 86400
  /** `timedelta(days=30 * months)`. */
  const DaysPerMonth := 30
  /** `datetime.fromisoformat("2000-01-01")` in seconds, the expiry assumed
      when a record has none. */
  const DefaultExpiry := 946684800

  datatype Tier = Free | Premium

  /** A limit-table entry that is either the string "all" or an allow-list. */
  datatype Allow = All | Only(names: seq<string>)

  /** One row of the `LIMITS` table. */
  datatype TierLimits = TierLimits(
    dailyArticles: int,
    sources: Allow,
    aiSummaries: bool,
    searchResults: int,
    categories: Allow)

  /** The `LIMITS` table. */
  function Limits(t: Tier): TierLimits
  {
    match t
    case Free => TierLimits(10, Only(["bbc", "guardian"]), false, 3, Only(["general", "world"]))
    case Premium => TierLimits(100, All, true, 10, All)
  }

  /** The source list returned to a tier whose sources are "all". */
  const PremiumSources: seq<string> :=
    ["bbc", "guardian", "nytimes", "techcrunch", "wired", "arstechnica", "reuters", "aljazeera"]

  /** A stored record. Every key of the JSON object is optional: records
      written by an upgrade have no counters, records created by a usage
      query have no expiry. */
  datatype Record = Record(
    tier: Option<string>,
    expiresAt: Option<int>,
    upgradedAt: Option<int>,
    months: Option<int>,
    dailyCount: Option<int>,
    lastReset: Option<int>)

  type Users = map<string, Record>

  /** What the subscriptions file holds when the manager starts. */
  datatype StoredFile = Absent | Malformed | Json(users: Users)

  /** `_load_subscriptions`: a missing or undecodable file is an empty store. */
  function Load(f: StoredFile): Users
  {
    match f
    case Json(users) => users
    case _ => map[]
  }

  // ---------------------------------------------------------------- tier

  function ExpiryOf(r: Record): int
  {
    r.expiresAt.GetOr(DefaultExpiry)
  }

  /** The record says premium and its expiry is still in the future. */
  predicate PremiumActive(r: Record, now: int)
  {
    r.tier == Some("premium") && now < ExpiryOf(r)
  }

  /** The answer of `get_user_tier`. */
  function TierOf(m: Users, u: string, now: int): Tier
  {
    if u in m && PremiumActive(m[u], now) then Premium else Free
  }

  /** The store after `get_user_tier`: an expired premium record is
      downgraded to "free"; nothing else changes and no record is created. */
  function CheckTier(m: Users, u: string, now: int): (m': Users)
    ensures m'.Keys == m.Keys
    ensures forall v :: v in m && v != u ==> m'[v] == m[v]
    ensures u in m ==> m'[u] == m[u] || (m[u].tier == Some("premium") && m'[u] == m[u].(tier := Some("free")))
    ensures TierOf(m', u, now) == TierOf(m, u, now)
  {
    if u in m && m[u].tier == Some("premium") && !(now < ExpiryOf(m[u]))
    then m[u := m[u].(tier := Some("free"))]
    else m
  }

  /** An unknown user is free, and asking creates no record. */
  lemma UnknownUserIsFree(m: Users, u: string, now: int)
    requires u !in m
    ensures TierOf(m, u, now) == Free
    ensures CheckTier(m, u, now) == m
  {
  }

  /** Premium exactly when the stored tier is "premium" and now precedes the
      expiry; a record without an expiry counts as expired since 2000-01-01. */
  lemma PremiumIffActive(m: Users, u: string, now: int)
    ensures TierOf(m, u, now) == Premium <==>
      u in m && m[u].tier == Some("premium") && now < m[u].expiresAt.GetOr(DefaultExpiry)
    ensures u in m && m[u].expiresAt.None? && now >= DefaultExpiry ==> TierOf(m, u, now) == Free
  {
  }

  /** An expired premium record loses only its tier, and asking again gives
      the same answer without further change. */
  lemma ExpiredDowngrade(m: Users, u: string, now: int)
    requires u in m && m[u].tier == Some("premium") && now >= ExpiryOf(m[u])
    ensures TierOf(m, u, now) == Free
    ensures CheckTier(m, u, now) == m[u := m[u].(tier := Some("free"))]
    ensures CheckTier(CheckTier(m, u, now), u, now) == CheckTier(m, u, now)
    ensures TierOf(CheckTier(m, u, now), u, now) == Free
  {
  }

  /** Asking for the tier twice is the same as asking once. */
  lemma CheckTierIdempotent(m: Users, u: string, now: int)
    ensures CheckTier(CheckTier(m, u, now), u, now) == CheckTier(m, u, now)
  {
  }

  // ------------------------------------------------------------- upgrade

  /** The record `upgrade_to_premium` writes: tier, expiry, audit fields, and
      no counters. */
  function UpgradedRecord(now: int, months: int): Record
  {
    Record(Some("premium"), Some(now + DaysPerMonth * months * SecondsPerDay), Some(now), Some(months), None, None)
  }

  /** The store after `upgrade_to_premium`: the user's whole record is
      replaced, everyone else is untouched. */
  function Upgrade(m: Users, u: string, months: int, now: int): (m': Users)
    ensures m'.Keys == m.Keys + {u}
    ensures m'[u] == UpgradedRecord(now, months)
    ensures forall v :: v in m && v != u ==> m'[v] == m[v]
  {
    m[u := UpgradedRecord(now, months)]
  }

  /** An upgrade of `months` months makes the user premium from now until
      30 * months days later, and free from then on. */
  lemma UpgradeGrantsPremium(m: Users, u: string, months: int, now: int, later: int)
    requires now <= later
    ensures later < now + DaysPerMonth * months * SecondsPerDay ==>
      TierOf(Upgrade(m, u, months, now), u, later) == Premium
    ensures later >= now + DaysPerMonth * months * SecondsPerDay ==>
      TierOf(Upgrade(m, u, months, now), u, later) == Free
  {
  }

  /** Upgrading is not cumulative: the new record does not depend on what
      the user had before (prior expiry and counters are discarded). */
  lemma UpgradeNotCumulative(m1: Users, m2: Users, u: string, months: int, now: int)
    ensures Upgrade(m1, u, months, now)[u] == Upgrade(m2, u, months, now)[u]
    ensures Upgrade(m1, u, months, now)[u].dailyCount.None?
    ensures Upgrade(m1, u, months, now)[u].lastReset.None?
  {
  }

  // ---------------------------------------------------------------- usage

  /** The record `get_user_stats` creates for an unknown user. */
  function FreshRecord(today: int): Record
  {
    Record(Some("free"), None, None, None, Some(0), Some(today))
  }

  /** The day-change check as written at subscription_manager.py:103-107:
      a missing `last_reset` is read as today and is not stored. */
  function ResetDayAsWritten(r: Record, today: int): Record
  {
    if r.lastReset.Some? && r.lastReset.value != today
    then r.(dailyCount := Some(0), lastReset := Some(today))
    else r
  }

  /** The day-change check the model uses: as written, except that a record
      without `last_reset` is stamped with today (its count kept), so that
      the next day's check sees a date to compare. */
  function ResetDay(r: Record, today: int): (r': Record)
    ensures r'.lastReset == Some(today)
    ensures r.lastReset == Some(today) ==> r' == r
    ensures r'.dailyCount == if r.lastReset.Some? && r.lastReset.value != today then Some(0) else r.dailyCount
    ensures r'.(dailyCount := r.dailyCount, lastReset := r.lastReset) == r
  {
    if r.lastReset.None? then r.(lastReset := Some(today)) else ResetDayAsWritten(r, today)
  }

  /** The store after `get_user_stats`: the user's record is created if
      missing, then brought to today. */
  function Stats(m: Users, u: string, today: int): (m': Users)
    ensures m'.Keys == m.Keys + {u}
    ensures u !in m ==> m'[u] == FreshRecord(today)
    ensures u in m ==> m'[u] == ResetDay(m[u], today)
    ensures forall v :: v in m && v != u ==> m'[v] == m[v]
    ensures m'[u].lastReset == Some(today)
  {
    m[u := ResetDay(if u in m then m[u] else FreshRecord(today), today)]
  }

  /** The count `get_user_stats` reports: today's count, a missing one being 0. */
  function CountToday(m: Users, u: string, today: int): int
  {
    Stats(m, u, today)[u].dailyCount.GetOr(0)
  }

  /** Usage queries never change anyone's tier. */
  lemma StatsKeepsTier(m: Users, u: string, today: int, v: string, now: int)
    ensures TierOf(Stats(m, u, today), v, now) == TierOf(m, v, now)
  {
  }

  /** Re-checking the tier, or asking for the stats again the same day,
      leaves today's count as it was. */
  lemma CountTodayStable(m: Users, u: string, now: int, today: int)
    ensures CountToday(CheckTier(m, u, now), u, today) == CountToday(m, u, today)
    ensures CountToday(Stats(m, u, today), u, today) == CountToday(m, u, today)
  {
  }

  /** One more article counted. */
  function Bump(r: Record): Record
  {
    r.(dailyCount := Some(r.dailyCount.GetOr(0) + 1))
  }

  /** The store after `increment_usage`. */
  function Increment(m: Users, u: string, today: int): Users
  {
    var m1 := Stats(m, u, today);
    m1[u := Bump(m1[u])]
  }

  /** One increment adds one to today's count, creating the record if
      needed, and touches no other user. */
  lemma IncrementEffect(m: Users, u: string, today: int)
    ensures Increment(m, u, today).Keys == m.Keys + {u}
    ensures Increment(m, u, today)[u].dailyCount == Some(CountToday(m, u, today) + 1)
    ensures Increment(m, u, today)[u].lastReset == Some(today)
    ensures forall v :: v in m && v != u ==> Increment(m, u, today)[v] == m[v]
  {
  }

  /** The store after `n` calls of `increment_usage` on the same day. */
  function IncrementN(m: Users, u: string, today: int, n: nat): Users
  {
    Iterate((x: Users) => Increment(x, u, today), m, n)
  }

  /** One more increment after `n`. */
  lemma IncrementNNext(m: Users, u: string, today: int, n: nat)
    ensures IncrementN(m, u, today, n + 1) == Increment(IncrementN(m, u, today, n), u, today)
    ensures IncrementN(m, u, today, 0) == m
  {
  }

  /** The last of `n >= 1` increments. */
  lemma IncrementNLast(m: Users, u: string, today: int, n: nat)
    requires n > 0
    ensures IncrementN(m, u, today, n) == Increment(IncrementN(m, u, today, n - 1), u, today)
  {
  }

  /** Increments in two runs are increments in one. */
  lemma IncrementNAdd(m: Users, u: string, today: int, a: nat, b: nat)
    ensures IncrementN(IncrementN(m, u, today, a), u, today, b) == IncrementN(m, u, today, a + b)
  {
    IterateAdd((x: Users) => Increment(x, u, today), m, a, b);
  }

  /** `after` is `m` with `n` more articles counted for `u` on `today`. */
  ghost predicate CountedOn(m: Users, after: Users, u: string, today: int, n: nat)
  {
    after == IncrementN(m, u, today, n)
  }

  /** `b` more increments on a store that had `a` of them. */
  lemma IncrementNMore(m: Users, mid: Users, after: Users, u: string, today: int, a: nat, b: nat, n: nat)
    requires CountedOn(m, mid, u, today, a)
    requires after == IncrementN(mid, u, today, b)
    requires n == a + b
    ensures CountedOn(m, after, u, today, n)
  {
    IncrementNAdd(m, u, today, a, b);
  }

  /** `n >= 1` increments on one day add `n` to the count the first one saw,
      leave the record stamped with today, and create it if it was missing. */
  lemma {:induction false} IncrementNCount(m: Users, u: string, today: int, n: nat)
    ensures n > 0 ==> u in IncrementN(m, u, today, n)
    ensures n > 0 ==> IncrementN(m, u, today, n)[u].dailyCount == Some(CountToday(m, u, today) + n)
    ensures n > 0 ==> IncrementN(m, u, today, n)[u].lastReset == Some(today)
    ensures n > 0 ==> IncrementN(m, u, today, n).Keys == m.Keys + {u}
    decreases n
  {
    if n > 0 {
      var prev := IncrementN(m, u, today, n - 1);
      IncrementNLast(m, u, today, n);
      IncrementEffect(prev, u, today);
      if n > 1 {
        IncrementNCount(m, u, today, n - 1);
        assert Stats(prev, u, today)[u] == prev[u];
      } else {
        IncrementNNext(m, u, today, 0);
      }
    }
  }

  /** Increments for `u` leave every other user's record as it was. */
  lemma {:induction false} IncrementNOthers(m: Users, u: string, today: int, n: nat)
    ensures forall v :: v in m && v != u ==> v in IncrementN(m, u, today, n) && IncrementN(m, u, today, n)[v] == m[v]
    decreases n
  {
    if n > 0 {
      var prev := IncrementN(m, u, today, n - 1);
      IncrementNLast(m, u, today, n);
      IncrementEffect(prev, u, today);
      IncrementNOthers(m, u, today, n - 1);
    } else {
      IncrementNNext(m, u, today, 0);
    }
  }

  /** A user with no record who reads `n >= 1` articles in a day has count `n`. */
  lemma FreshUserCounts(m: Users, u: string, today: int, n: nat)
    requires u !in m && n > 0
    ensures IncrementN(m, u, today, n)[u].dailyCount == Some(n)
  {
    IncrementNCount(m, u, today, n);
  }

  /** One increment changes no tier. */
  lemma IncrementKeepsTier(m: Users, u: string, today: int, v: string, now: int)
    ensures TierOf(Increment(m, u, today), v, now) == TierOf(m, v, now)
  {
    StatsKeepsTier(m, u, today, v, now);
  }

  /** Increments never change a tier. */
  lemma {:induction false} IncrementNKeepsTier(m: Users, u: string, today: int, n: nat, v: string, now: int)
    ensures TierOf(IncrementN(m, u, today, n), v, now) == TierOf(m, v, now)
    decreases n
  {
    if n > 0 {
      IncrementNLast(m, u, today, n);
      IncrementNKeepsTier(m, u, today, n - 1, v, now);
      IncrementKeepsTier(IncrementN(m, u, today, n - 1), u, today, v, now);
    } else {
      IncrementNNext(m, u, today, 0);
    }
  }

  // ------------------------------------------------ the daily reset, over days

  /** The record after one article on each of `days`, as written. */
  function BumpDaysAsWritten(r: Record, days: seq<int>): Record
    decreases |days|
  {
    if days == [] then r
    else Bump(ResetDayAsWritten(BumpDaysAsWritten(r, days[..|days| - 1]), days[|days| - 1]))
  }

  /** The record after one article on each of `days`, with the day stamp. */
  function BumpDays(r: Record, days: seq<int>): Record
    decreases |days|
  {
    if days == [] then r
    else Bump(ResetDay(BumpDays(r, days[..|days| - 1]), days[|days| - 1]))
  }

  /** How many of the last entries of `days` equal the last one. */
  function TrailingRun(days: seq<int>): nat
    decreases |days|
  {
    if |days| <= 1 then |days|
    else if days[|days| - 2] == days[|days| - 1] then TrailingRun(days[..|days| - 1]) + 1
    else 1
  }

  /** As written, an upgraded user's counter is never reset: it counts every
      article since the upgrade, whatever the days. */
  lemma {:induction false} UpgradedCountNeverResetsAsWritten(now: int, months: int, days: seq<int>)
    ensures BumpDaysAsWritten(UpgradedRecord(now, months), days).lastReset.None?
    ensures days != [] ==> BumpDaysAsWritten(UpgradedRecord(now, months), days).dailyCount == Some(|days|)
    decreases |days|
  {
    if days != [] {
      UpgradedCountNeverResetsAsWritten(now, months, days[..|days| - 1]);
    }
  }

  /** So, as written, 100 articles on any days lock a premium user out of the
      daily limit on every later day. */
  lemma PremiumLockedOutAsWritten(now: int, months: int, days: seq<int>, later: int)
    requires |days| >= Limits(Premium).dailyArticles
    ensures !(ResetDayAsWritten(BumpDaysAsWritten(UpgradedRecord(now, months), days), later).dailyCount.GetOr(0)
              < Limits(Premium).dailyArticles)
  {
    UpgradedCountNeverResetsAsWritten(now, months, days);
  }

  /** Where the two day checks part on a store: after an upgrade, one
      article read on day `d1` is still counted on another day `d2` by the
      check as written, and is not counted by the corrected check. */
  lemma UpgradedCountCarriesOverAsWritten(m: Users, u: string, months: int, now: int, d1: int, d2: int)
    requires d1 != d2
    ensures ResetDayAsWritten(Bump(ResetDayAsWritten(Upgrade(m, u, months, now)[u], d1)), d2).dailyCount == Some(1)
    ensures CountToday(Increment(Upgrade(m, u, months, now), u, d1), u, d2) == 0
  {
  }

  /** With the day stamp, an upgraded user's counter holds exactly the
      articles read on the current day (the last run of equal days). */
  lemma {:induction false} CountIsTodaysRun(now: int, months: int, days: seq<int>)
    requires days != []
    ensures BumpDays(UpgradedRecord(now, months), days).lastReset == Some(days[|days| - 1])
    ensures BumpDays(UpgradedRecord(now, months), days).dailyCount == Some(TrailingRun(days))
    decreases |days|
  {
    if |days| > 1 {
      var init := days[..|days| - 1];
      CountIsTodaysRun(now, months, init);
      assert init[|init| - 1] == days[|days| - 2];
    }
  }

  /** On a day other than the stored one the daily limit is open again. */
  lemma NewDayReopensLimit(m: Users, u: string, today: int)
    requires u in m && m[u].lastReset.Some? && m[u].lastReset.value != today
    ensures CountToday(m, u, today) == 0
  {
  }

  // ------------------------------------------------------------- features

  /** The answer of `can_access_feature`: a flag, or for "search_results"
      the number the table holds. */
  datatype Access = Flag(allowed: bool) | Count(limit: int)

  /** Whether an allow-list admits `value`; `None in list` is false. */
  predicate Admits(a: Allow, value: Option<string>)
  {
    a.All? || (value.Some? && value.value in a.names)
  }

  /** The feature decision for a tier, given today's count. */
  function Decide(t: Tier, feature: string, value: Option<string>, count: int): (a: Access)
    ensures feature == "source" ==> a == Flag(t == Premium || value == Some("bbc") || value == Some("guardian"))
    ensures feature == "category" ==> a == Flag(t == Premium || value == Some("general") || value == Some("world"))
    ensures feature == "ai_summaries" ==> a == Flag(t == Premium)
    ensures feature == "daily_limit" ==> a == Flag(count < if t == Free then 10 else 100)
    ensures feature == "search_results" ==> a == Count(if t == Free then 3 else 10)
    ensures feature !in {"source", "category", "ai_summaries", "daily_limit", "search_results"} ==> a == Flag(false)
  {
    var lim := Limits(t);
    if feature == "source" then Flag(Admits(lim.sources, value))
    else if feature == "ai_summaries" then Flag(lim.aiSummaries)
    else if feature == "category" then Flag(Admits(lim.categories, value))
    else if feature == "daily_limit" then Flag(count < lim.dailyArticles)
    else if feature == "search_results" then Count(lim.searchResults)
    else Flag(false)
  }

  /** The store after `can_access_feature`: the tier check, then for
      "daily_limit" the usage query. */
  function FeatureState(m: Users, u: string, feature: string, now: int, today: int): Users
  {
    var m1 := CheckTier(m, u, now);
    if feature == "daily_limit" then Stats(m1, u, today) else m1
  }

  /** The answer of `can_access_feature`. */
  function FeatureAnswer(m: Users, u: string, feature: string, value: Option<string>, now: int, today: int): Access
  {
    Decide(TierOf(m, u, now), feature, value, CountToday(CheckTier(m, u, now), u, today))
  }

  /** The tier check does not touch counters, so the daily limit is decided
      on the count the store holds for today. */
  lemma DailyLimitUsesTodaysCount(m: Users, u: string, now: int, today: int)
    ensures FeatureAnswer(m, u, "daily_limit", None, now, today) ==
      Flag(CountToday(m, u, today) < Limits(TierOf(m, u, now)).dailyArticles)
  {
  }

  /** A source is allowed to a premium user, and to a free one only if it is
      bbc or guardian. */
  lemma SourceAnswer(m: Users, u: string, source: string, now: int, today: int)
    ensures FeatureAnswer(m, u, "source", Some(source), now, today) ==
      Flag(TierOf(m, u, now) == Premium || source == "bbc" || source == "guardian")
  {
  }

  /** An untouched user may not read techcrunch, and may once upgraded. */
  lemma UpgradeUnlocksSources(m: Users, u: string, now: int, today: int)
    requires u !in m
    ensures FeatureAnswer(m, u, "source", Some("techcrunch"), now, today) == Flag(false)
    ensures FeatureAnswer(Upgrade(m, u, 1, now), u, "source", Some("techcrunch"), now, today) == Flag(true)
  {
  }

  // --------------------------------------------------------------- limits

  /** `limits["expires_at"]`: the stored string, or "N/A". */
  datatype Stamp = At(seconds: int) | NotAvailable

  /** The dictionary `get_limits` returns: the tier's row plus usage, tier
      and, for premium only, the expiry. */
  datatype LimitsView = LimitsView(limits: TierLimits, currentUsage: int, tier: Tier, expiresAt: Option<Stamp>)

  /** The store after `get_limits`. */
  function LimitsState(m: Users, u: string, now: int, today: int): Users
  {
    Stats(CheckTier(m, u, now), u, today)
  }

  /** The answer of `get_limits`. */
  function LimitsSnapshot(m: Users, u: string, now: int, today: int): (v: LimitsView)
    ensures v.tier == TierOf(m, u, now) && v.limits == Limits(v.tier)
    ensures v.currentUsage == CountToday(m, u, today)
    ensures v.expiresAt.Some? <==> v.tier == Premium
    ensures v.tier == Premium ==>
      v.expiresAt == Some(if m[u].expiresAt.Some? then At(m[u].expiresAt.value) else NotAvailable)
  {
    var t := TierOf(m, u, now);
    var s := LimitsState(m, u, now, today);
    var r := s[u];
    LimitsView(Limits(t), r.dailyCount.GetOr(0), t,
      if t == Premium then Some(if r.expiresAt.Some? then At(r.expiresAt.value) else NotAvailable) else None)
  }

  /** A user with no record is free with no usage; once upgraded for a
      month, premium with no usage and an expiry thirty days out. */
  lemma FreshAndUpgradedLimits(m: Users, u: string, now: int, today: int)
    requires u !in m
    ensures LimitsSnapshot(m, u, now, today).tier == Free
    ensures LimitsSnapshot(m, u, now, today).currentUsage == 0
    ensures LimitsSnapshot(Upgrade(m, u, 1, now), u, now, today) ==
      LimitsView(Limits(Premium), 0, Premium, Some(At(now + 30 * SecondsPerDay)))
  {
  }

  /** `get_available_sources` for a tier. */
  function AvailableSources(t: Tier): (s: seq<string>)
    ensures t == Premium ==> s == PremiumSources
    ensures t == Free ==> s == ["bbc", "guardian"]
  {
    if Limits(t).sources.All? then PremiumSources else Limits(t).sources.names
  }

  /** `get_available_categories` for a tier. */
  function AvailableCategories(t: Tier): (c: Allow)
    ensures t == Premium <==> c == All
    ensures t == Free ==> c == Only(["general", "world"])
  {
    Limits(t).categories
  }

  /** The source list handed out agrees with the "source" feature check. */
  lemma AvailableSourcesAgreeWithCheck(t: Tier, s: string)
    ensures s in AvailableSources(t) ==> Decide(t, "source", Some(s), 0) == Flag(true)
    ensures t == Free ==> (s in AvailableSources(t) <==> Decide(t, "source", Some(s), 0) == Flag(true))
  {
  }

  /** The store after the admin tool's revoke: tier "free", expiry kept. */
  function Revoked(m: Users, u: string): (m': Users)
    ensures m'.Keys == m.Keys
    ensures u in m ==> m'[u] == m[u].(tier := Some("free"))
    ensures forall v :: v in m && v != u ==> m'[v] == m[v]
  {
    if u in m then m[u := m[u].(tier := Some("free"))] else m
  }

  /** A revoked user is free at any time; the stored expiry is untouched. */
  lemma RevokedIsFree(m: Users, u: string, now: int)
    requires u in m
    ensures TierOf(Revoked(m, u), u, now) == Free
    ensures Revoked(m, u)[u].expiresAt == m[u].expiresAt
  {
  }

  // ------------------------------------------------------------ the class

  class SubscriptionManager {
    var subscriptions: Users

    /** `__init__`: the store is whatever the file decodes to. */
    constructor (file: StoredFile)
      ensures subscriptions == Load(file)
      ensures !file.Json? ==> subscriptions == map[]
    {
      match file
      case Json(users) => subscriptions := users;
      case _ => subscriptions := map[];
    }

    method GetUserTier(u: string, now: int) returns (t: Tier)
      modifies this
      ensures t == TierOf(old(subscriptions), u, now)
      ensures subscriptions == CheckTier(old(subscriptions), u, now)
    {
      if u !in subscriptions {
        return Free;
      }
      var r := subscriptions[u];
      if r.tier == Some("premium") {
        if now < r.expiresAt.GetOr(DefaultExpiry) {
          return Premium;
        }
        subscriptions := subscriptions[u := r.(tier := Some("free"))];
      }
      return Free;
    }

    method UpgradeToPremium(u: string, months: int, now: int) returns (ok: bool)
      modifies this
      ensures ok
      ensures subscriptions == Upgrade(old(subscriptions), u, months, now)
    {
      var expiresAt := now + DaysPerMonth * months * SecondsPerDay;
      subscriptions := subscriptions[u := Record(Some("premium"), Some(expiresAt), Some(now), Some(months), None, None)];
      return true;
    }

    method GetUserStats(u: string, today: int) returns (r: Record)
      modifies this
      ensures subscriptions == Stats(old(subscriptions), u, today)
      ensures u in subscriptions && r == subscriptions[u]
    {
      if u !in subscriptions {
        subscriptions := subscriptions[u := Record(Some("free"), None, None, None, Some(0), Some(today))];
      }
      r := subscriptions[u];
      if r.lastReset.None? {
        r := r.(lastReset := Some(today));
        subscriptions := subscriptions[u := r];
      } else if r.lastReset.value != today {
        r := r.(dailyCount := Some(0), lastReset := Some(today));
        subscriptions := subscriptions[u := r];
      }
    }

    method IncrementUsage(u: string, today: int)
      modifies this
      ensures subscriptions == Increment(old(subscriptions), u, today)
    {
      var stats := GetUserStats(u, today);
      stats := stats.(dailyCount := Some(stats.dailyCount.GetOr(0) + 1));
      subscriptions := subscriptions[u := stats];
    }

    method CanAccessFeature(u: string, feature: string, value: Option<string>, now: int, today: int)
      returns (a: Access)
      modifies this
      ensures a == FeatureAnswer(old(subscriptions), u, feature, value, now, today)
      ensures subscriptions == FeatureState(old(subscriptions), u, feature, now, today)
    {
      var tier := GetUserTier(u, now);
      var limits := Limits(tier);
      if feature == "source" {
        if limits.sources.All? {
          return Flag(true);
        }
        return Flag(value.Some? && value.value in limits.sources.names);
      } else if feature == "ai_summaries" {
        return Flag(limits.aiSummaries);
      } else if feature == "category" {
        if limits.categories.All? {
          return Flag(true);
        }
        return Flag(value.Some? && value.value in limits.categories.names);
      } else if feature == "daily_limit" {
        var stats := GetUserStats(u, today);
        return Flag(stats.dailyCount.GetOr(0) < limits.dailyArticles);
      } else if feature == "search_results" {
        return Count(limits.searchResults);
      }
      return Flag(false);
    }

    method GetLimits(u: string, now: int, today: int) returns (v: LimitsView)
      modifies this
      ensures v == LimitsSnapshot(old(subscriptions), u, now, today)
      ensures subscriptions == LimitsState(old(subscriptions), u, now, today)
    {
      var tier := GetUserTier(u, now);
      var stats := GetUserStats(u, today);
      var expiresAt: Option<Stamp> := None;
      if tier == Premium {
        var r := subscriptions[u];
        expiresAt := Some(if r.expiresAt.Some? then At(r.expiresAt.value) else NotAvailable);
      }
      v := LimitsView(Limits(tier), stats.dailyCount.GetOr(0), tier, expiresAt);
    }

    method GetAvailableSources(u: string, now: int) returns (s: seq<string>)
      modifies this
      ensures s == AvailableSources(TierOf(old(subscriptions), u, now))
      ensures subscriptions == CheckTier(old(subscriptions), u, now)
    {
      var tier := GetUserTier(u, now);
      if Limits(tier).sources.All? {
        return PremiumSources;
      }
      return Limits(tier).sources.names;
    }

    method GetAvailableCategories(u: string, now: int) returns (c: Allow)
      modifies this
      ensures c == AvailableCategories(TierOf(old(subscriptions), u, now))
      ensures subscriptions == CheckTier(old(subscriptions), u, now)
    {
      var tier := GetUserTier(u, now);
      return Limits(tier).categories;
    }
  }

  /** The admin tool's "revoke premium": only a known user is changed. */
  method RevokePremium(m: SubscriptionManager, u: string) returns (found: bool)
    modifies m
    ensures found == (u in old(m.subscriptions))
    ensures m.subscriptions == Revoked(old(m.subscriptions), u)
  {
    found := u in m.subscriptions;
    if found {
      m.subscriptions := m.subscriptions[u := m.subscriptions[u].(tier := Some("free"))];
    }
  }
}
