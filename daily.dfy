/**
 * The in-memory daily statistics store: the document object, the
 * package-level pointer to it, and the operations that change or read it.
 * The wall clock is injected: `today` is the current `YYYY-MM-DD` date,
 * `currentHour` the current hour of the day and `now` the RFC 3339 time
 * stamp. Persistence is not modelled.
 *
 * Each step of the source (building a record, bumping today's record,
 * bumping the credential index) is a method here that follows the code's
 * statements. Its `ensures` equates it with the value-level function of
 * `DailyModel` of the same step, and the properties of the step are proved
 * about that function in `DailyLemmas`.
 */
module Daily {
  import opened Wrappers
  import opened KeyMask
  import opened DailyModel
  import DailyLemmas

  const Version: string := "1.0"
  const Description: string := "每日API请求统计数据"

  /** The stored document (Go's `DailyData`). */
  class DailyData {
    var version: string
    var description: string
    var lastUpdated: string
    var dailyStats: seq<DailyStats>
    var keysUsage: KeysUsage

    constructor (version: string, description: string, lastUpdated: string,
                 dailyStats: seq<DailyStats>, keysUsage: KeysUsage)
      ensures this.version == version && this.description == description
      ensures this.lastUpdated == lastUpdated
      ensures this.dailyStats == dailyStats && this.keysUsage == keysUsage
    {
      this.version := version;
      this.description := description;
      this.lastUpdated := lastUpdated;
      this.dailyStats := dailyStats;
      this.keysUsage := keysUsage;
    }

    /** The document as first created on `today` at time `now`. */
    ghost predicate IsDefault(today: string, now: string)
      reads this
    {
      && version == Version && description == Description && lastUpdated == now
      && dailyStats == [EmptyDay(today)] && keysUsage == map[]
    }
  }

  /** Fills the 24 hourly buckets of a new record. */
  method NewHourlyStats() returns (h: seq<HourlyStats>)
    ensures |h| == HoursPerDay
    ensures forall i :: 0 <= i < |h| ==> h[i] == HourlyStats(i, 0, 0)
  {
    var buckets := new HourlyStats[HoursPerDay];
    for i := 0 to HoursPerDay
      invariant forall j :: 0 <= j < i ==> buckets[j] == HourlyStats(j, 0, 0)
    {
      buckets[i] := HourlyStats(i, 0, 0);
    }
    h := buckets[..];
  }

  /** A zeroed record for `today`. */
  method NewDailyStats(today: string) returns (d: DailyStats)
    ensures d == EmptyDay(today)
  {
    var hourly := NewHourlyStats();
    d := DailyStats(today, RequestStats(0, 0, 0), TokenStats(0, 0, 0), map[], hourly);
  }

  /** The early-exit search for the first record dated `date`. */
  method IndexOfDate(s: seq<DailyStats>, date: string) returns (k: Option<nat>)
    ensures k == FindDate(s, date)
  {
    var i := 0;
    while i < |s|
      invariant 0 <= i <= |s|
      invariant forall j :: 0 <= j < i ==> s[j].date != date
    {
      if s[i].date == date {
        return Some(i);
      }
      i := i + 1;
    }
    return None;
  }

  /**
   * The in-place bump of today's record: request totals and the
   * success/failure split, token totals, the model bucket (skipped for an
   * empty model) and the current hour's bucket.
   */
  method BumpDailyStats(d: DailyStats, model: string, currentHour: int, requestCount: int,
                        promptTokens: int, completionTokens: int, isSuccess: bool)
    returns (todayStats: DailyStats)
    requires 0 <= currentHour < |d.hourly|
    ensures todayStats == Observe(d, model, currentHour, requestCount, promptTokens,
                                  completionTokens, isSuccess)
  {
    todayStats := d;
    todayStats := todayStats.(requests := todayStats.requests.(total := todayStats.requests.total + requestCount));
    if isSuccess {
      todayStats := todayStats.(requests := todayStats.requests.(success := todayStats.requests.success + requestCount));
    } else {
      todayStats := todayStats.(requests := todayStats.requests.(failed := todayStats.requests.failed + requestCount));
    }

    var totalTokens := promptTokens + completionTokens;
    todayStats := todayStats.(tokens := TokenStats(todayStats.tokens.total + totalTokens,
                                                   todayStats.tokens.prompt + promptTokens,
                                                   todayStats.tokens.completion + completionTokens));

    if model != "" {
      var models := todayStats.models;
      if model !in models {
        models := models[model := ModelStats(0, 0)];
      }
      var modelStats := models[model];
      models := models[model := ModelStats(modelStats.requests + requestCount,
                                           modelStats.tokens + totalTokens)];
      todayStats := todayStats.(models := models);
    }

    var bucket := todayStats.hourly[currentHour];
    todayStats := todayStats.(hourly := todayStats.hourly[currentHour :=
      bucket.(requests := bucket.requests + requestCount, tokens := bucket.tokens + totalTokens)]);
  }

  /**
   * The update of the credential index: for a non-empty key, its masked
   * bucket for today is created at zero if missing and then increased.
   */
  method BumpKeyUsage(ku: KeysUsage, apiKey: string, today: string, requestCount: int,
                      totalTokens: int) returns (keysUsage: KeysUsage)
    ensures keysUsage == AddKeyUsage(ku, apiKey, today, requestCount, totalTokens)
  {
    keysUsage := ku;
    if apiKey != "" {
      keysUsage := BumpMaskedKeyUsage(keysUsage, MaskAPIKey(apiKey), today, requestCount, totalTokens);
    }
  }

  /** The nested-map update under a masked key (the inner map is stored back as a value). */
  method BumpMaskedKeyUsage(ku: KeysUsage, maskedKey: string, today: string, requestCount: int,
                            totalTokens: int) returns (keysUsage: KeysUsage)
    ensures keysUsage == AddMaskedKeyUsage(ku, maskedKey, today, requestCount, totalTokens)
  {
    var byDate: map<string, KeyUsage> := map[];
    if maskedKey in ku {
      byDate := ku[maskedKey];
    }
    ghost var initial := byDate;
    if today !in byDate {
      byDate := byDate[today := KeyUsage(0, 0)];
    }
    var keyUsage := byDate[today];
    var updated := KeyUsage(keyUsage.requests + requestCount, keyUsage.tokens + totalTokens);
    assert byDate[today := updated] == initial[today := updated];
    byDate := byDate[today := updated];
    keysUsage := ku[maskedKey := byDate];
  }

  /** `createDefaultDailyData`: one zeroed record for today and no credential usage. */
  method CreateDefaultDailyData(today: string, now: string) returns (d: DailyData)
    ensures fresh(d) && d.IsDefault(today, now)
  {
    var record := NewDailyStats(today);
    d := new DailyData(Version, Description, now, [record], map[]);
  }

  /** The package-level state: a pointer to the document, nil until initialised. */
  class DailyStore {
    var dailyData: DailyData?

    constructor ()
      ensures dailyData == null
    {
      dailyData := null;
    }

    /**
     * `ensureTodayDataExists`: a nil store becomes the default document;
     * otherwise today's record is appended if missing and the list cut to
     * its last 30 records.
     */
    method EnsureTodayDataExists(today: string, now: string)
      modifies this, dailyData
      ensures dailyData != null
      ensures old(dailyData) == null ==> fresh(dailyData) && dailyData.IsDefault(today, now)
      ensures old(dailyData) != null ==>
        && dailyData == old(dailyData)
        && dailyData.dailyStats == RotateToday(old(dailyData.dailyStats), today)
        && dailyData.keysUsage == old(dailyData.keysUsage)
        && dailyData.version == old(dailyData.version)
        && dailyData.description == old(dailyData.description)
        && dailyData.lastUpdated == old(dailyData.lastUpdated)
      ensures old(dailyData) == null ==> StoreInvariant(dailyData.dailyStats)
      ensures old(dailyData) != null && StoreInvariant(old(dailyData.dailyStats)) ==>
        StoreInvariant(dailyData.dailyStats)
    {
      if dailyData == null {
        DailyLemmas.EmptyDayShape(today);
        dailyData := CreateDefaultDailyData(today, now);
        return;
      }
      if StoreInvariant(dailyData.dailyStats) {
        DailyLemmas.RotatePreservesInvariant(dailyData.dailyStats, today);
      }
      var found := IndexOfDate(dailyData.dailyStats, today);
      if found.Some? {
        return;
      }
      var record := NewDailyStats(today);
      dailyData.dailyStats := dailyData.dailyStats + [record];
      if |dailyData.dailyStats| > RetentionDays {
        dailyData.dailyStats := dailyData.dailyStats[|dailyData.dailyStats| - RetentionDays..];
      }
    }

    /**
     * `AddDailyRequestStat`: folds one observation into today's record
     * (appended first, without the 30-record cut, if missing), its model
     * and hour buckets, and the masked-key bucket for today.
     */
    method AddDailyRequestStat(apiKey: string, model: string, requestCount: int,
                               promptTokens: int, completionTokens: int, isSuccess: bool,
                               today: string, currentHour: int)
      requires dailyData != null
      requires 0 <= currentHour < HoursPerDay
      requires HourAvailable(dailyData.dailyStats, today, currentHour)
      modifies dailyData
      ensures dailyData.dailyStats ==
        AddToStats(old(dailyData.dailyStats), today, currentHour, model,
                   requestCount, promptTokens, completionTokens, isSuccess)
      ensures dailyData.keysUsage ==
        AddKeyUsage(old(dailyData.keysUsage), apiKey, today, requestCount,
                    promptTokens + completionTokens)
      ensures StoreInvariant(old(dailyData.dailyStats)) ==> StoreInvariant(dailyData.dailyStats)
      ensures dailyData.version == old(dailyData.version)
      ensures dailyData.description == old(dailyData.description)
      ensures dailyData.lastUpdated == old(dailyData.lastUpdated)
    {
      ghost var before := dailyData.dailyStats;
      var found := IndexOfDate(dailyData.dailyStats, today);
      var todayIndex: nat;
      if found.None? {
        var record := NewDailyStats(today);
        dailyData.dailyStats := dailyData.dailyStats + [record];
        todayIndex := |dailyData.dailyStats| - 1;
      } else {
        todayIndex := found.value;
      }
      assert dailyData.dailyStats == WithToday(before, today);
      assert todayIndex == TodaySlot(before, today);
      var todayStats := BumpDailyStats(dailyData.dailyStats[todayIndex], model, currentHour,
                                       requestCount, promptTokens, completionTokens, isSuccess);
      var keysUsage := BumpKeyUsage(dailyData.keysUsage, apiKey, today, requestCount,
                                    promptTokens + completionTokens);
      dailyData.keysUsage := keysUsage;
      dailyData.dailyStats := dailyData.dailyStats[todayIndex := todayStats];
      if StoreInvariant(before) {
        DailyLemmas.AddPreservesInvariant(before, today, currentHour, model, requestCount,
                                          promptTokens, completionTokens, isSuccess);
      }
    }

    /**
     * `GetDailyStats`: the first record for `date` (empty means today);
     * absent when the store is nil or has no such record.
     */
    method GetDailyStats(date: string, today: string) returns (r: Option<DailyStats>)
      ensures dailyData == null ==> r == None
      ensures dailyData != null ==> r == Lookup(dailyData.dailyStats, EffectiveDate(date, today))
    {
      if dailyData == null {
        return None;
      }
      var key := if date == "" then today else date;
      var found := IndexOfDate(dailyData.dailyStats, key);
      if found.Some? {
        r := Some(dailyData.dailyStats[found.value]);
      } else {
        r := None;
      }
    }

    /**
     * `GetKeyUsageStats`: the usage stored under the masked key for `date`
     * (empty means today), absent if either map level lacks the entry.
     */
    method GetKeyUsageStats(apiKey: string, date: string, today: string) returns (r: Option<KeyUsage>)
      ensures dailyData == null ==> r == None
      ensures dailyData != null ==>
        r == LookupKeyUsage(dailyData.keysUsage, MaskAPIKey(apiKey), EffectiveDate(date, today))
    {
      if dailyData == null {
        return None;
      }
      var key := if date == "" then today else date;
      var maskedKey := MaskAPIKey(apiKey);
      if maskedKey in dailyData.keysUsage {
        var keyData := dailyData.keysUsage[maskedKey];
        if key in keyData {
          return Some(keyData[key]);
        }
      }
      return None;
    }

    /** `GetAllDailyStats`: every retained record by date, later records winning. */
    method GetAllDailyStats() returns (r: Option<map<string, DailyStats>>)
      ensures dailyData == null ==> r == None
      ensures dailyData != null ==> r == Some(ByDate(dailyData.dailyStats))
    {
      if dailyData == null {
        return None;
      }
      var s := dailyData.dailyStats;
      var result: map<string, DailyStats> := map[];
      for i := 0 to |s|
        invariant result == ByDate(s[..i])
      {
        assert s[..i + 1][..i] == s[..i];
        result := result[s[i].date := s[i]];
      }
      assert s[..|s|] == s;
      return Some(result);
    }
  }
}
