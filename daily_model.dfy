/**
 * The records of the daily usage-statistics document and the value-level
 * meaning of each operation on them. The imperative operations in module
 * `Daily` are proved equal to these functions; the properties of the
 * operations are proved about the functions in module `DailyLemmas`.
 */
module DailyModel {
  import opened Wrappers
  import opened KeyMask

  /** Every daily record carries one bucket per hour of the day. */
  const HoursPerDay: nat := 24

  /** Rotation keeps at most this many daily records. */
  const RetentionDays: nat := 30

  datatype RequestStats = RequestStats(total: int, success: int, failed: int)

  datatype TokenStats = TokenStats(total: int, prompt: int, completion: int)

  datatype ModelStats = ModelStats(requests: int, tokens: int)

  datatype HourlyStats = HourlyStats(hour: int, requests: int, tokens: int)

  datatype KeyUsage = KeyUsage(requests: int, tokens: int)

  /** One calendar day of counters, identified by its `YYYY-MM-DD` date. */
  datatype DailyStats = DailyStats(
    date: string,
    requests: RequestStats,
    tokens: TokenStats,
    models: map<string, ModelStats>,
    hourly: seq<HourlyStats>)

  /** Masked key -> date -> counters. */
  type KeysUsage = map<string, map<string, KeyUsage>>

  // ---------------------------------------------------------------------------
  // Invariants of a record and of the retained list

  /** 24 buckets, bucket `i` labelled with hour `i`. */
  predicate HourlyWellFormed(h: seq<HourlyStats>)
  {
    |h| == HoursPerDay && forall i :: 0 <= i < |h| ==> h[i].hour == i
  }

  /** The success/failure split and the prompt/completion split add up. */
  predicate Balanced(d: DailyStats)
  {
    && d.requests.success + d.requests.failed == d.requests.total
    && d.tokens.prompt + d.tokens.completion == d.tokens.total
  }

  predicate WellFormed(d: DailyStats)
  {
    Balanced(d) && HourlyWellFormed(d.hourly)
  }

  /** At most one record per date. */
  predicate DatesUnique(s: seq<DailyStats>)
  {
    forall i, j :: 0 <= i < j < |s| ==> s[i].date != s[j].date
  }

  predicate StoreInvariant(s: seq<DailyStats>)
  {
    DatesUnique(s) && forall i :: 0 <= i < |s| ==> WellFormed(s[i])
  }

  // ---------------------------------------------------------------------------
  // Fresh records

  /** The 24 zeroed hourly buckets every new record starts with. */
  function ZeroHourly(): (h: seq<HourlyStats>)
    ensures HourlyWellFormed(h)
    ensures forall i :: 0 <= i < |h| ==> h[i].requests == 0 && h[i].tokens == 0
  {
    seq(HoursPerDay, i => HourlyStats(i, 0, 0))
  }

  /** The record created for a day that has no record yet. */
  function EmptyDay(date: string): DailyStats
  {
    DailyStats(date, RequestStats(0, 0, 0), TokenStats(0, 0, 0), map[], ZeroHourly())
  }

  // ---------------------------------------------------------------------------
  // Lookup

  /** The index of the first record dated `date`, if there is one. */
  function FindDate(s: seq<DailyStats>, date: string): (r: Option<nat>)
    ensures r.Some? ==> r.value < |s| && s[r.value].date == date
    ensures r.Some? ==> forall j :: 0 <= j < r.value ==> s[j].date != date
    ensures r.None? <==> forall j :: 0 <= j < |s| ==> s[j].date != date
  {
    if |s| == 0 then None
    else if s[0].date == date then Some(0)
    else match FindDate(s[1..], date)
      case None => None
      case Some(k) => Some(k + 1)
  }

  /** The first record dated `date`, if any ("first matching date wins"). */
  function Lookup(s: seq<DailyStats>, date: string): Option<DailyStats>
  {
    match FindDate(s, date)
    case None => None
    case Some(k) => Some(s[k])
  }

  /** The reader's date argument: the empty string stands for today. */
  function EffectiveDate(date: string, today: string): string
  {
    if date == "" then today else date
  }

  /** All retained records by date; a later record overwrites an earlier one. */
  function ByDate(s: seq<DailyStats>): (m: map<string, DailyStats>)
    ensures m.Keys == set i | 0 <= i < |s| :: s[i].date
  {
    if |s| == 0 then map[]
    else
      var init := s[..|s| - 1];
      var m0 := ByDate(init);
      assert forall i :: 0 <= i < |init| ==> init[i] == s[i];
      m0[s[|s| - 1].date := s[|s| - 1]]
  }

  /** The credential usage stored for a masked key and a date. */
  function LookupKeyUsage(ku: KeysUsage, maskedKey: string, date: string): Option<KeyUsage>
  {
    if maskedKey in ku && date in ku[maskedKey] then Some(ku[maskedKey][date]) else None
  }

  // ---------------------------------------------------------------------------
  // Day rotation

  /** The last `n` elements, in their order. */
  function KeepLast(s: seq<DailyStats>, n: nat): seq<DailyStats>
  {
    if |s| > n then s[|s| - n..] else s
  }

  /**
   * Rotation to `today`: nothing changes when a record for today exists;
   * otherwise a fresh record is appended and only the last 30 are kept.
   */
  function RotateToday(s: seq<DailyStats>, today: string): seq<DailyStats>
  {
    if FindDate(s, today).Some? then s else KeepLast(s + [EmptyDay(today)], RetentionDays)
  }

  // ---------------------------------------------------------------------------
  // Folding one observation into the store

  /** The record for today that an observation updates exists or will be created. */
  predicate HourAvailable(s: seq<DailyStats>, today: string, hour: int)
  {
    match FindDate(s, today)
    case None => true
    case Some(k) => 0 <= hour < |s[k].hourly|
  }

  /** Today's index once today's record is guaranteed to exist. */
  function TodaySlot(s: seq<DailyStats>, today: string): nat
  {
    match FindDate(s, today)
    case None => |s|
    case Some(k) => k
  }

  /** The list with a zeroed record for today appended when none exists (no cap). */
  function WithToday(s: seq<DailyStats>, today: string): (r: seq<DailyStats>)
    ensures FindDate(r, today) == Some(TodaySlot(s, today))
  {
    if FindDate(s, today).Some? then s
    else
      var r := s + [EmptyDay(today)];
      assert r[|s|].date == today;
      r
  }

  /** One observation applied to a single record. */
  function Observe(d: DailyStats, model: string, hour: int,
                   requestCount: int, promptTokens: int, completionTokens: int,
                   isSuccess: bool): DailyStats
    requires 0 <= hour < |d.hourly|
  {
    var totalTokens := promptTokens + completionTokens;
    var requests :=
      if isSuccess then d.requests.(total := d.requests.total + requestCount,
                                    success := d.requests.success + requestCount)
      else d.requests.(total := d.requests.total + requestCount,
                       failed := d.requests.failed + requestCount);
    var tokens := TokenStats(d.tokens.total + totalTokens,
                             d.tokens.prompt + promptTokens,
                             d.tokens.completion + completionTokens);
    var models :=
      if model == "" then d.models
      else
        var m := if model in d.models then d.models[model] else ModelStats(0, 0);
        d.models[model := ModelStats(m.requests + requestCount, m.tokens + totalTokens)];
    var h := d.hourly[hour];
    var hourly := d.hourly[hour := h.(requests := h.requests + requestCount,
                                      tokens := h.tokens + totalTokens)];
    DailyStats(d.date, requests, tokens, models, hourly)
  }

  /** The record list after one observation for `today` at `hour`. */
  function AddToStats(s: seq<DailyStats>, today: string, hour: int, model: string,
                      requestCount: int, promptTokens: int, completionTokens: int,
                      isSuccess: bool): seq<DailyStats>
    requires 0 <= hour < HoursPerDay
    requires HourAvailable(s, today, hour)
  {
    var w := WithToday(s, today);
    var k := TodaySlot(s, today);
    w[k := Observe(w[k], model, hour, requestCount, promptTokens, completionTokens, isSuccess)]
  }

  /** The credential index after one observation under an already masked key. */
  function AddMaskedKeyUsage(ku: KeysUsage, maskedKey: string, today: string,
                             requestCount: int, totalTokens: int): KeysUsage
  {
    var byDate := if maskedKey in ku then ku[maskedKey] else map[];
    var u := if today in byDate then byDate[today] else KeyUsage(0, 0);
    ku[maskedKey := byDate[today := KeyUsage(u.requests + requestCount, u.tokens + totalTokens)]]
  }

  /** The credential index after one observation; an empty key is not recorded. */
  function AddKeyUsage(ku: KeysUsage, apiKey: string, today: string,
                       requestCount: int, totalTokens: int): KeysUsage
  {
    if apiKey == "" then ku
    else AddMaskedKeyUsage(ku, MaskAPIKey(apiKey), today, requestCount, totalTokens)
  }
}
