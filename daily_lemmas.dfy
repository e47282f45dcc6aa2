/**
 * Properties of the daily statistics model: the shape of fresh records,
 * the rotation policy, what one observation does to the records and to the
 * credential index, and how the readers relate to each other.
 */
module DailyLemmas {
  import opened Wrappers
  import opened KeyMask
  import opened DailyModel

  // ---------------------------------------------------------------------------
  // Fresh records

  /** A fresh record is all zeros, has no models and 24 labelled buckets. */
  lemma EmptyDayShape(today: string)
    ensures var d := EmptyDay(today);
      && d.date == today
      && d.requests == RequestStats(0, 0, 0) && d.tokens == TokenStats(0, 0, 0)
      && d.models == map[]
      && |d.hourly| == HoursPerDay
      && (forall i :: 0 <= i < |d.hourly| ==> d.hourly[i] == HourlyStats(i, 0, 0))
    ensures WellFormed(EmptyDay(today))
    ensures StoreInvariant([EmptyDay(today)])
  {
  }

  // ---------------------------------------------------------------------------
  // Rotation

  /** What rotation does in each of its two cases. */
  lemma RotateTodayCases(s: seq<DailyStats>, today: string)
    ensures FindDate(s, today).Some? ==> RotateToday(s, today) == s
    ensures FindDate(s, today).None? ==>
      var r := RotateToday(s, today);
      && |r| == (if |s| + 1 > RetentionDays then RetentionDays else |s| + 1)
      && r == (s + [EmptyDay(today)])[|s| + 1 - |r|..]
      && r[|r| - 1] == EmptyDay(today)
    ensures FindDate(RotateToday(s, today), today).Some?
  {
    var r := RotateToday(s, today);
    if FindDate(s, today).None? {
      assert r[|r| - 1] == EmptyDay(today);
    }
  }

  /** A second rotation on the same day changes nothing. */
  lemma RotateTodayIdempotent(s: seq<DailyStats>, today: string)
    ensures RotateToday(RotateToday(s, today), today) == RotateToday(s, today)
  {
    RotateTodayCases(s, today);
  }

  /** Rotation never takes a list of at most 30 records above 30. */
  lemma RotateTodayBounded(s: seq<DailyStats>, today: string)
    requires |s| <= RetentionDays
    ensures |RotateToday(s, today)| <= RetentionDays
  {
    RotateTodayCases(s, today);
  }

  /** Keeping the last records of a list with unique dates keeps them unique. */
  lemma SuffixKeepsInvariant(s: seq<DailyStats>, a: nat)
    requires a <= |s|
    requires StoreInvariant(s)
    ensures StoreInvariant(s[a..])
  {
    var t := s[a..];
    forall i, j | 0 <= i < j < |t| ensures t[i].date != t[j].date {
      assert t[i] == s[a + i] && t[j] == s[a + j];
    }
    forall i | 0 <= i < |t| ensures WellFormed(t[i]) {
      assert t[i] == s[a + i];
    }
  }

  /** Rotation keeps one well-formed record per date. */
  lemma RotatePreservesInvariant(s: seq<DailyStats>, today: string)
    requires StoreInvariant(s)
    ensures StoreInvariant(RotateToday(s, today))
  {
    if FindDate(s, today).None? {
      var w := s + [EmptyDay(today)];
      EmptyDayShape(today);
      assert StoreInvariant(w) by {
        forall i, j | 0 <= i < j < |w| ensures w[i].date != w[j].date {
          if j == |s| {
            assert w[i] == s[i];
          } else {
            assert w[i] == s[i] && w[j] == s[j];
          }
        }
        forall i | 0 <= i < |w| ensures WellFormed(w[i]) {
          if i < |s| {
            assert w[i] == s[i];
          }
        }
      }
      SuffixKeepsInvariant(w, |w| - |KeepLast(w, RetentionDays)|);
    }
  }

  /** Fresh zeroed records for consecutive days, in order. */
  function EmptyDays(days: seq<string>): (r: seq<DailyStats>)
    ensures |r| == |days|
    ensures forall i :: 0 <= i < |days| ==> r[i] == EmptyDay(days[i])
  {
    seq(|days|, i requires 0 <= i < |days| => EmptyDay(days[i]))
  }

  /** One rotation per day of `days`, in order (a sequence of `ensureTodayDataExists` calls). */
  function RotateAll(s: seq<DailyStats>, days: seq<string>): seq<DailyStats>
    decreases |days|
  {
    if |days| == 0 then s else RotateAll(RotateToday(s, days[0]), days[1..])
  }

  /** The days are pairwise distinct and none of them is already retained. */
  predicate FreshDays(s: seq<DailyStats>, days: seq<string>)
  {
    && (forall i, j :: 0 <= i < j < |days| ==> days[i] != days[j])
    && (forall i, j :: 0 <= i < |days| && 0 <= j < |s| ==> s[j].date != days[i])
  }

  /** Cutting before appending and cutting after appending agree. */
  lemma KeepLastAppend(x: seq<DailyStats>, y: seq<DailyStats>, n: nat)
    ensures KeepLast(KeepLast(x, n) + y, n) == KeepLast(x + y, n)
  {
    var a := if |x| > n then |x| - n else 0;
    assert KeepLast(x, n) == x[a..];
    assert x[a..] + y == (x + y)[a..];
  }

  /** After rotating to the first fresh day, the remaining days are still fresh. */
  lemma FreshDaysAfterRotate(s: seq<DailyStats>, days: seq<string>)
    requires |days| > 0
    requires FreshDays(s, days)
    ensures FindDate(s, days[0]).None?
    ensures RotateToday(s, days[0]) == KeepLast(s + [EmptyDay(days[0])], RetentionDays)
    ensures FreshDays(RotateToday(s, days[0]), days[1..])
  {
    var d0 := days[0];
    var rest := days[1..];
    assert FindDate(s, d0).None?;
    var w := s + [EmptyDay(d0)];
    var s1 := RotateToday(s, d0);
    var a := |w| - |s1|;
    assert s1 == w[a..];
    forall i, j | 0 <= i < |rest| && 0 <= j < |s1| ensures s1[j].date != rest[i] {
      assert s1[j] == w[a + j];
      assert rest[i] == days[i + 1];
      if a + j < |s| {
        assert w[a + j] == s[a + j];
      }
    }
    forall i, j | 0 <= i < j < |rest| ensures rest[i] != rest[j] {
      assert rest[i] == days[i + 1] && rest[j] == days[j + 1];
    }
  }

  /** Appending the first day's record and then the rest is appending all of them. */
  lemma EmptyDaysCons(s: seq<DailyStats>, days: seq<string>)
    requires |days| > 0
    ensures s + [EmptyDay(days[0])] + EmptyDays(days[1..]) == s + EmptyDays(days)
  {
    assert EmptyDays(days) == [EmptyDay(days[0])] + EmptyDays(days[1..]);
  }

  /**
   * Rotating through new, distinct days is appending all of them and keeping
   * the last 30. This holds from a list of any length once at least one day
   * passes (the first rotation cuts an overfull list); with no day at all the
   * list is untouched, so it then needs at most 30 records.
   */
  lemma {:induction false} RotateFreshDays(s: seq<DailyStats>, days: seq<string>)
    requires |s| <= RetentionDays || |days| > 0
    requires FreshDays(s, days)
    ensures RotateAll(s, days) == KeepLast(s + EmptyDays(days), RetentionDays)
    decreases |days|
  {
    if |days| == 0 {
      assert s + EmptyDays(days) == s;
    } else {
      var w := s + [EmptyDay(days[0])];
      var s1 := RotateToday(s, days[0]);
      var rest := days[1..];
      FreshDaysAfterRotate(s, days);
      assert |s1| <= RetentionDays;
      EmptyDaysCons(s, days);
      calc {
        RotateAll(s, days);
        RotateAll(s1, rest);
        { RotateFreshDays(s1, rest); }
        KeepLast(s1 + EmptyDays(rest), RetentionDays);
        { KeepLastAppend(w, EmptyDays(rest), RetentionDays); }
        KeepLast(w + EmptyDays(rest), RetentionDays);
        KeepLast(s + EmptyDays(days), RetentionDays);
      }
    }
  }

  /**
   * After at least 30 rollovers to new days, exactly the 30 most recent
   * fresh records remain, oldest first; no earlier record survives. This
   * includes a list that already held more than 30 records.
   */
  lemma ManyRollovers(s: seq<DailyStats>, days: seq<string>)
    requires FreshDays(s, days)
    requires |days| >= RetentionDays
    ensures RotateAll(s, days) == EmptyDays(days[|days| - RetentionDays..])
    ensures |RotateAll(s, days)| == RetentionDays
  {
    RotateFreshDays(s, days);
    var all := s + EmptyDays(days);
    var tail := EmptyDays(days[|days| - RetentionDays..]);
    assert all[|all| - RetentionDays..] == tail;
  }

  // ---------------------------------------------------------------------------
  // One observation on one record

  /** Request and token totals move by the observed amounts. */
  lemma ObserveCounters(d: DailyStats, model: string, hour: int, requestCount: int,
                        promptTokens: int, completionTokens: int, isSuccess: bool)
    requires 0 <= hour < |d.hourly|
    ensures var r := Observe(d, model, hour, requestCount, promptTokens, completionTokens, isSuccess);
      && r.date == d.date
      && r.requests.total == d.requests.total + requestCount
      && (isSuccess ==> r.requests.success == d.requests.success + requestCount
                        && r.requests.failed == d.requests.failed)
      && (!isSuccess ==> r.requests.failed == d.requests.failed + requestCount
                         && r.requests.success == d.requests.success)
      && r.tokens.prompt == d.tokens.prompt + promptTokens
      && r.tokens.completion == d.tokens.completion + completionTokens
      && r.tokens.total == d.tokens.total + promptTokens + completionTokens
  {
  }

  /** Only the named model's bucket and the current hour's bucket move. */
  lemma ObserveBuckets(d: DailyStats, model: string, hour: int, requestCount: int,
                       promptTokens: int, completionTokens: int, isSuccess: bool)
    requires 0 <= hour < |d.hourly|
    ensures var r := Observe(d, model, hour, requestCount, promptTokens, completionTokens, isSuccess);
      var tokens := promptTokens + completionTokens;
      && (model == "" ==> r.models == d.models)
      && (model != "" ==>
            var prev := if model in d.models then d.models[model] else ModelStats(0, 0);
            && r.models.Keys == d.models.Keys + {model}
            && r.models[model] == ModelStats(prev.requests + requestCount, prev.tokens + tokens)
            && forall m :: m in d.models && m != model ==> r.models[m] == d.models[m])
      && |r.hourly| == |d.hourly|
      && r.hourly[hour] == HourlyStats(d.hourly[hour].hour, d.hourly[hour].requests + requestCount,
                                       d.hourly[hour].tokens + tokens)
      && forall i :: 0 <= i < |d.hourly| && i != hour ==> r.hourly[i] == d.hourly[i]
  {
  }

  /** The two additive invariants and the hourly shape survive an observation. */
  lemma ObservePreservesWellFormed(d: DailyStats, model: string, hour: int, requestCount: int,
                                   promptTokens: int, completionTokens: int, isSuccess: bool)
    requires 0 <= hour < |d.hourly|
    ensures Balanced(d) ==>
      Balanced(Observe(d, model, hour, requestCount, promptTokens, completionTokens, isSuccess))
    ensures WellFormed(d) ==>
      WellFormed(Observe(d, model, hour, requestCount, promptTokens, completionTokens, isSuccess))
  {
  }

  /** With non-negative inputs no counter of the record decreases. */
  lemma ObserveMonotone(d: DailyStats, model: string, hour: int, requestCount: int,
                        promptTokens: int, completionTokens: int, isSuccess: bool)
    requires 0 <= hour < |d.hourly|
    requires requestCount >= 0 && promptTokens >= 0 && completionTokens >= 0
    ensures var r := Observe(d, model, hour, requestCount, promptTokens, completionTokens, isSuccess);
      && r.requests.total >= d.requests.total && r.requests.success >= d.requests.success
      && r.requests.failed >= d.requests.failed && r.tokens.total >= d.tokens.total
      && r.tokens.prompt >= d.tokens.prompt && r.tokens.completion >= d.tokens.completion
      && (forall m :: m in d.models ==>
            m in r.models && r.models[m].requests >= d.models[m].requests
            && r.models[m].tokens >= d.models[m].tokens)
      && (forall i :: 0 <= i < |d.hourly| ==>
            r.hourly[i].requests >= d.hourly[i].requests && r.hourly[i].tokens >= d.hourly[i].tokens)
  {
  }

  // ---------------------------------------------------------------------------
  // One observation on the record list

  /**
   * Only the first record for today changes; if there is none, exactly one
   * zeroed record is appended first (and nothing is cut).
   */
  lemma AddToStatsFrame(s: seq<DailyStats>, today: string, hour: int, model: string,
                        requestCount: int, promptTokens: int, completionTokens: int, isSuccess: bool)
    requires 0 <= hour < HoursPerDay
    requires HourAvailable(s, today, hour)
    ensures var r := AddToStats(s, today, hour, model, requestCount, promptTokens, completionTokens, isSuccess);
      var k := TodaySlot(s, today);
      var base := Lookup(s, today).GetOr(EmptyDay(today));
      && |r| == (if FindDate(s, today).None? then |s| + 1 else |s|)
      && (FindDate(s, today).None? ==> k == |s|)
      && (FindDate(s, today).Some? ==> k < |s| && s[k] == base)
      && 0 <= hour < |base.hourly|
      && r[k] == Observe(base, model, hour, requestCount, promptTokens, completionTokens, isSuccess)
      && forall i :: 0 <= i < |s| && i != k ==> r[i] == s[i]
  {
  }

  /** A list of at most 30 records can grow past 30 when a new day is observed. */
  lemma AddCanExceedRetention(s: seq<DailyStats>, today: string, hour: int, model: string,
                              requestCount: int, promptTokens: int, completionTokens: int, isSuccess: bool)
    requires 0 <= hour < HoursPerDay
    requires |s| == RetentionDays
    requires forall i :: 0 <= i < |s| ==> s[i].date != today
    ensures |AddToStats(s, today, hour, model, requestCount, promptTokens, completionTokens, isSuccess)|
            == RetentionDays + 1
  {
    assert FindDate(s, today).None?;
  }

  /** Two lists whose dates agree up to `|s|`, with no `date` after that, find `date` alike. */
  lemma FindDateSameDates(s: seq<DailyStats>, r: seq<DailyStats>, date: string)
    requires |s| <= |r|
    requires forall i :: 0 <= i < |s| ==> r[i].date == s[i].date
    requires forall i :: |s| <= i < |r| ==> r[i].date != date
    ensures FindDate(r, date) == FindDate(s, date)
  {
    var fs := FindDate(s, date);
    var fr := FindDate(r, date);
    if fs.Some? {
      var a := fs.value;
      assert r[a].date == date;
      assert fr.Some?;
    } else {
      forall j | 0 <= j < |r| ensures r[j].date != date {
        if j < |s| {
          assert r[j].date == s[j].date;
        }
      }
    }
  }

  /** Reading today after an observation gives the observed record. */
  lemma AddThenLookupToday(s: seq<DailyStats>, today: string, hour: int, model: string,
                           requestCount: int, promptTokens: int, completionTokens: int, isSuccess: bool)
    requires 0 <= hour < HoursPerDay
    requires HourAvailable(s, today, hour)
    ensures var base := Lookup(s, today).GetOr(EmptyDay(today));
      && 0 <= hour < |base.hourly|
      && Lookup(AddToStats(s, today, hour, model, requestCount, promptTokens, completionTokens, isSuccess), today)
         == Some(Observe(base, model, hour, requestCount, promptTokens, completionTokens, isSuccess))
  {
    var w := WithToday(s, today);
    var k := TodaySlot(s, today);
    var r := AddToStats(s, today, hour, model, requestCount, promptTokens, completionTokens, isSuccess);
    FindDateSameDates(w, r, today);
  }

  /** Reading any other date is not affected by an observation. */
  lemma AddThenLookupOther(s: seq<DailyStats>, today: string, hour: int, model: string,
                           requestCount: int, promptTokens: int, completionTokens: int, isSuccess: bool,
                           date: string)
    requires 0 <= hour < HoursPerDay
    requires HourAvailable(s, today, hour)
    requires date != today
    ensures Lookup(AddToStats(s, today, hour, model, requestCount, promptTokens, completionTokens, isSuccess), date)
            == Lookup(s, date)
  {
    var r := AddToStats(s, today, hour, model, requestCount, promptTokens, completionTokens, isSuccess);
    var k := TodaySlot(s, today);
    AddToStatsFrame(s, today, hour, model, requestCount, promptTokens, completionTokens, isSuccess);
    FindDateSameDates(s, r, date);
  }

  /** A store with one well-formed record per date stays so after an observation. */
  lemma AddPreservesInvariant(s: seq<DailyStats>, today: string, hour: int, model: string,
                              requestCount: int, promptTokens: int, completionTokens: int, isSuccess: bool)
    requires 0 <= hour < HoursPerDay
    requires HourAvailable(s, today, hour)
    requires StoreInvariant(s)
    ensures StoreInvariant(AddToStats(s, today, hour, model, requestCount, promptTokens, completionTokens, isSuccess))
  {
    var r := AddToStats(s, today, hour, model, requestCount, promptTokens, completionTokens, isSuccess);
    var k := TodaySlot(s, today);
    var w := WithToday(s, today);
    EmptyDayShape(today);
    assert StoreInvariant(w) by {
      if FindDate(s, today).None? {
        forall i, j | 0 <= i < j < |w| ensures w[i].date != w[j].date {
          if j == |s| {
            assert w[i] == s[i];
          } else {
            assert w[i] == s[i] && w[j] == s[j];
          }
        }
        forall i | 0 <= i < |w| ensures WellFormed(w[i]) {
          if i < |s| {
            assert w[i] == s[i];
          }
        }
      }
    }
    ObservePreservesWellFormed(w[k], model, hour, requestCount, promptTokens, completionTokens, isSuccess);
    assert r[k].date == w[k].date;
    forall i, j | 0 <= i < j < |r| ensures r[i].date != r[j].date {
      assert r[i].date == w[i].date && r[j].date == w[j].date;
    }
  }

  /** A store with the invariant always has the hour that an observation updates. */
  lemma InvariantGivesHour(s: seq<DailyStats>, today: string, hour: int)
    requires StoreInvariant(s)
    requires 0 <= hour < HoursPerDay
    ensures HourAvailable(s, today, hour)
  {
  }

  // ---------------------------------------------------------------------------
  // Credential usage

  /** Under a masked key, exactly the entry for today moves; every other entry is kept. */
  lemma AddMaskedKeyUsageEffect(ku: KeysUsage, maskedKey: string, today: string,
                                requestCount: int, totalTokens: int)
    ensures var r := AddMaskedKeyUsage(ku, maskedKey, today, requestCount, totalTokens);
      var prev := LookupKeyUsage(ku, maskedKey, today).GetOr(KeyUsage(0, 0));
      && r.Keys == ku.Keys + {maskedKey}
      && LookupKeyUsage(r, maskedKey, today) == Some(KeyUsage(prev.requests + requestCount, prev.tokens + totalTokens))
      && forall k, d :: (k != maskedKey || d != today) ==> LookupKeyUsage(r, k, d) == LookupKeyUsage(ku, k, d)
  {
  }

  /**
   * A non-empty key moves exactly its masked bucket for today; every other
   * (key, date) entry is kept. An empty key changes nothing.
   */
  lemma AddKeyUsageEffect(ku: KeysUsage, apiKey: string, today: string,
                          requestCount: int, totalTokens: int)
    ensures apiKey == "" ==> AddKeyUsage(ku, apiKey, today, requestCount, totalTokens) == ku
    ensures apiKey != "" ==>
      var r := AddKeyUsage(ku, apiKey, today, requestCount, totalTokens);
      var maskedKey := MaskAPIKey(apiKey);
      var prev := LookupKeyUsage(ku, maskedKey, today).GetOr(KeyUsage(0, 0));
      && r.Keys == ku.Keys + {maskedKey}
      && LookupKeyUsage(r, maskedKey, today) == Some(KeyUsage(prev.requests + requestCount, prev.tokens + totalTokens))
      && forall k, d :: (k != maskedKey || d != today) ==> LookupKeyUsage(r, k, d) == LookupKeyUsage(ku, k, d)
  {
    if apiKey != "" {
      AddMaskedKeyUsageEffect(ku, MaskAPIKey(apiKey), today, requestCount, totalTokens);
    }
  }

  // ---------------------------------------------------------------------------
  // Readers

  /** A record that no later record shares a date with is the one kept by date. */
  lemma {:induction false} ByDateLastWins(s: seq<DailyStats>, i: nat)
    requires i < |s|
    requires forall j :: i < j < |s| ==> s[j].date != s[i].date
    ensures s[i].date in ByDate(s) && ByDate(s)[s[i].date] == s[i]
  {
    if i < |s| - 1 {
      var init := s[..|s| - 1];
      assert init[i] == s[i];
      forall j | i < j < |init| ensures init[j].date != init[i].date {
        assert init[j] == s[j];
      }
      ByDateLastWins(init, i);
    }
  }

  /** The map holds at most one entry per record, exactly one when dates are unique. */
  lemma {:induction false} ByDateSize(s: seq<DailyStats>)
    ensures |ByDate(s)| <= |s|
    ensures DatesUnique(s) ==> |ByDate(s)| == |s|
  {
    if |s| > 0 {
      var init := s[..|s| - 1];
      var last := s[|s| - 1];
      ByDateSize(init);
      var m0 := ByDate(init);
      assert ByDate(s) == m0[last.date := last];
      MapUpdateSize(m0, last.date, last);
      if DatesUnique(s) {
        forall a, b | 0 <= a < b < |init| ensures init[a].date != init[b].date {
          assert init[a] == s[a] && init[b] == s[b];
        }
        forall i | 0 <= i < |init| ensures init[i].date != last.date {
          assert init[i] == s[i];
        }
      }
    }
  }

  /** Updating a map grows it by one exactly when the key is new. */
  lemma MapUpdateSize(m: map<string, DailyStats>, k: string, v: DailyStats)
    ensures |m[k := v]| == if k in m then |m| else |m| + 1
  {
    if k in m {
      assert m[k := v].Keys == m.Keys;
    } else {
      assert m[k := v].Keys == m.Keys + {k};
    }
  }

  /**
   * When dates are unique, the map of all records and the single-date
   * reader agree on every date.
   */
  lemma ByDateAgreesWithLookup(s: seq<DailyStats>, date: string)
    requires DatesUnique(s)
    ensures date in ByDate(s) <==> Lookup(s, date).Some?
    ensures date in ByDate(s) ==> ByDate(s)[date] == Lookup(s, date).value
  {
    var f := FindDate(s, date);
    if f.Some? {
      ByDateLastWins(s, f.value);
    }
  }

  /** A date that was never recorded reads as absent. */
  lemma LookupAbsent(s: seq<DailyStats>, date: string)
    ensures Lookup(s, date) == None <==> forall i :: 0 <= i < |s| ==> s[i].date != date
  {
  }

  // ---------------------------------------------------------------------------
  // A worked example

  /**
   * On a fresh store for day `d`: a successful call with 3 requests and
   * 100 + 50 tokens, then a failed one with 1 request and 10 + 5 tokens,
   * both for key "sk-ABCDEFGH" and model "gpt-x".
   */
  lemma TwoObservationsExample(d: string, hour: int)
    requires 0 <= hour < HoursPerDay
    ensures var s0 := [EmptyDay(d)];
      var s1 := AddToStats(s0, d, hour, "gpt-x", 3, 100, 50, true);
      var s2 := AddToStats(s1, d, hour, "gpt-x", 1, 10, 5, false);
      && |s2| == 1
      && s2[0].requests == RequestStats(4, 3, 1)
      && s2[0].tokens == TokenStats(165, 110, 55)
      && s2[0].models == map["gpt-x" := ModelStats(4, 165)]
      && s2[0].hourly[hour] == HourlyStats(hour, 4, 165)
    ensures var k0: KeysUsage := map[];
      var k1 := AddKeyUsage(k0, "sk-ABCDEFGH", d, 3, 150);
      var k2 := AddKeyUsage(k1, "sk-ABCDEFGH", d, 1, 15);
      && k2 == map["sk-ABC******" := map[d := KeyUsage(4, 165)]]
  {
    var s0 := [EmptyDay(d)];
    assert FindDate(s0, d) == Some(0);
    var s1 := AddToStats(s0, d, hour, "gpt-x", 3, 100, 50, true);
    assert |s1| == 1 && s1[0].date == d;
    assert FindDate(s1, d) == Some(0);
    assert MaskAPIKey("sk-ABCDEFGH") == "sk-ABC******";
    var k1 := AddKeyUsage(map[], "sk-ABCDEFGH", d, 3, 150);
    assert k1 == map["sk-ABC******" := map[d := KeyUsage(3, 150)]];
    var k2 := AddKeyUsage(k1, "sk-ABCDEFGH", d, 1, 15);
    assert k1["sk-ABC******"][d := KeyUsage(4, 165)] == map[d := KeyUsage(4, 165)];
    assert k2 == k1["sk-ABC******" := map[d := KeyUsage(4, 165)]];
  }
}
