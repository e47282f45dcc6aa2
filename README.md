# Daily usage statistics store, in Dafny

This project models the in-memory usage-statistics aggregator of
`internal/config/daily.go`. It keeps one record per calendar day. Each record
holds request counters (total, success, failed), token counters (total,
prompt, completion), a per-model bucket map and 24 hourly buckets. The store
also keeps a per-credential index: masked API key, then date, then
`{requests, tokens}`. Credentials are stored only in masked form: keys of at
most six characters become `******`; longer keys keep their first six
characters followed by `******`.

The wall clock is injected and persistence is not modelled. `today` stands
for the `YYYY-MM-DD` date, `currentHour` for the hour of the day and `now`
for the RFC 3339 stamp written into `LastUpdated`. With those supplied, every
operation is deterministic.

Layout:

- `wrappers.dfy` (`Wrappers`): `Option`, the "absent" result of the readers.
- `key_mask.dfy` (`KeyMask`): `maskAPIKey` and its properties.
- `daily_model.dfy` (`DailyModel`): the record datatypes and the invariants.
  It also defines a value-level function for each operation: first-match
  lookup `FindDate`, rotation `RotateToday`, the observation fold
  `Observe`/`AddToStats`/`AddKeyUsage` and the by-date map `ByDate`.
- `daily_lemmas.dfy` (`DailyLemmas`): the properties proved about those
  functions.
- `daily.dfy` (`Daily`): the imperative model. Class `DailyData` is the
  document Go's `*DailyData` points to. Class `DailyStore` holds the
  package-level `dailyData` pointer, which is nil until initialised. Their
  methods use the source's loops and in-place updates, and each is proved
  equal to the matching value-level function.

Rotation and recording treat the 30-record limit differently. Only
`ensureTodayDataExists` cuts the list to 30 (daily.go:243-245).
`AddDailyRequestStat` appends today's record with no cut (daily.go:281-295).
So a process that only records usage can keep more than 30 records;
`DailyLemmas.AddCanExceedRetention` shows 30 growing to 31. The next rotation
to a new day brings the list back to 30 (`DailyLemmas.RotateFreshDays`,
`DailyLemmas.ManyRollovers`).

## Model

| member | source | states |
|---|---|---|
| `KeyMask.MaskShape` | internal/config/daily.go:439-444 | The result of `MaskAPIKey` is 6 characters for keys of length at most 6 and 12 otherwise. It always ends in the six-character mask, and a long key's first six characters are kept. |
| `KeyMask.MaskIdempotent` | internal/config/daily.go:439-444 | Masking an already masked key returns it unchanged. |
| `KeyMask.MaskCollision` | internal/config/daily.go:439-444 | Two keys share a masked bucket exactly when both are short, or both are long with the same six-character prefix. |
| `DailyModel.EmptyDay` | internal/config/daily.go:171-193 | The record each of the three creation sites builds: the date, zero counters, an empty model map and the zeroed hourly buckets. Its shape is proved in `EmptyDayShape`. |
| `DailyModel.KeepLast` | internal/config/daily.go:243-245 | The cut `DailyStats[len-30:]` when the list is longer than 30, and the list itself otherwise. |
| `DailyModel.RotateToday` | internal/config/daily.go:206-245 | The record list after `ensureTodayDataExists` on a non-nil store: unchanged if a record for today exists, else today's zeroed record appended and the list cut by `KeepLast`. Its properties are proved in `RotateTodayCases` and the lemmas after it. |
| `DailyModel.Observe` | internal/config/daily.go:301-332 | One observation applied to today's record: the request and token counters, the model bucket and the current hour's bucket. Its effects are proved field by field in `ObserveCounters` and `ObserveBuckets`. |
| `DailyModel.AddToStats` | internal/config/daily.go:261-332 | The record list after `AddDailyRequestStat`: today's record is found, or appended with no cut, and then observed at its index. Its frame is proved in `AddToStatsFrame`. |
| `DailyModel.AddMaskedKeyUsage` | internal/config/daily.go:338-352 | The credential index after one observation under a masked key, with the inner map and the entry created at zero if missing. Its effect is proved in `AddMaskedKeyUsageEffect`. |
| `DailyModel.AddKeyUsage` | internal/config/daily.go:335-353 | The credential index after one observation: an empty key changes nothing, and any other key is masked first. Its effect is proved in `AddKeyUsageEffect`. |
| `DailyModel.Lookup` | internal/config/daily.go:381-389 | The first record with the given date, or absent. Absence is characterised in `LookupAbsent`. |
| `DailyModel.EffectiveDate` | internal/config/daily.go:376-378 | The readers' date argument, with the empty string standing for today. The same rule appears at daily.go:402-404. |
| `DailyModel.LookupKeyUsage` | internal/config/daily.go:409-417 | The entry at the masked key and the date, or absent when either level of the map lacks it. |
| `DailyModel.ZeroHourly` | internal/config/daily.go:162-169 | The initial hourly array has 24 buckets; bucket `i` has hour `i` and zero counters. |
| `DailyModel.FindDate` | internal/config/daily.go:261-267 | Returns the index of the first record with the given date, or none exactly when no record has that date. |
| `DailyModel.WithToday` | internal/config/daily.go:269-299 | After the append-if-missing step, the first record dated today sits at the found index, or at the old length when a record was appended. |
| `DailyModel.ByDate` | internal/config/daily.go:430-434 | The keys of the by-date map are exactly the dates of the retained records. |
| `Daily.NewHourlyStats` | internal/config/daily.go:162-169 | The fill loop yields 24 buckets with `Hour == i` and zero counters. |
| `Daily.NewDailyStats` | internal/config/daily.go:176-190 | The record built for a new day is the zeroed record for that date. |
| `Daily.IndexOfDate` | internal/config/daily.go:261-267 | The early-exit search returns the first index whose date matches, or none. |
| `Daily.BumpDailyStats` | internal/config/daily.go:301-332 | The in-place updates of today's record equal one observation (`Observe`). |
| `Daily.BumpKeyUsage` | internal/config/daily.go:335-353 | An empty key leaves the index unchanged. Otherwise the key is masked and its bucket updated: the result equals `AddKeyUsage`. |
| `Daily.BumpMaskedKeyUsage` | internal/config/daily.go:338-352 | The nested-map updates under a masked key (create the inner map and the entry at zero if missing, then increase) equal `AddMaskedKeyUsage`. |
| `Daily.CreateDefaultDailyData` | internal/config/daily.go:158-194 | A fresh document: version "1.0", the fixed description, `LastUpdated == now`, exactly one zeroed record dated today and empty credential usage. |
| `Daily.DailyData.constructor` | internal/config/daily.go:61-67 | The document holds exactly the five given fields. |
| `Daily.DailyStore.constructor` | internal/config/daily.go:69-73 | Before initialisation the package pointer is nil. |
| `Daily.DailyStore.EnsureTodayDataExists` | internal/config/daily.go:197-246 | A nil store becomes the default document. Otherwise the record list becomes `RotateToday` of the old list, and every other field of the document is unchanged. The new default document satisfies the one-per-date, well-formed invariant, and rotation keeps that invariant when the old list had it. |
| `Daily.DailyStore.AddDailyRequestStat` | internal/config/daily.go:249-356 | The record list becomes `AddToStats`, the credential index becomes `AddKeyUsage` and the other fields are unchanged. The one-per-date, well-formed invariant is preserved. Requires an initialised store and an hour the store has. |
| `Daily.DailyStore.GetDailyStats` | internal/config/daily.go:367-390 | A nil store gives absent. Otherwise the result is the first record for the date, with an empty date meaning today, or absent when no record is dated so. |
| `Daily.DailyStore.GetKeyUsageStats` | internal/config/daily.go:393-418 | A nil store gives absent. Otherwise the result is the entry at the masked key and the date (empty meaning today), or absent when either map level lacks it. |
| `Daily.DailyStore.GetAllDailyStats` | internal/config/daily.go:421-436 | A nil store gives absent. Otherwise the loop builds exactly `ByDate` of the records. |
| `DailyLemmas.EmptyDayShape` | internal/config/daily.go:171-193 | A new record has all counters at 0, no models, and 24 buckets with `Hour == i` and zero counters. It is well-formed, and a one-record list satisfies the store invariant. |
| `DailyLemmas.RotateTodayCases` | internal/config/daily.go:208-245 | If today exists, the list is unchanged. Otherwise today's zeroed record is appended and only the last `min(n+1, 30)` records are kept, in order, with today's record last. Afterwards a record for today exists. |
| `DailyLemmas.RotateTodayIdempotent` | internal/config/daily.go:208-213 | A second rotation on the same day changes nothing. |
| `DailyLemmas.RotateTodayBounded` | internal/config/daily.go:242-245 | A list of at most 30 records stays at most 30. |
| `DailyLemmas.RotatePreservesInvariant` | internal/config/daily.go:208-245 | Rotation keeps dates unique and every record well-formed. |
| `DailyLemmas.RotateFreshDays` | internal/config/daily.go:226-245 | Rotating through distinct new days appends all of them and keeps the last 30. This holds from a list of any length when at least one day passes, so it also covers an overfull list. |
| `DailyLemmas.ManyRollovers` | internal/config/daily.go:242-245 | After at least 30 rollovers to new days, exactly the 30 newest records remain, oldest first, and no earlier record survives. This includes a list that already held more than 30 records. |
| `DailyLemmas.ObserveCounters` | internal/config/daily.go:302-313 | `Total` grows by `requestCount`, and so does exactly one of `Success`/`Failed`, chosen by `isSuccess`. Prompt and completion grow by their counts and the token total by their sum. |
| `DailyLemmas.ObserveBuckets` | internal/config/daily.go:316-332 | A non-empty model's entry is created at zero if absent and grows by `(requestCount, tokens)`; other models are untouched, and an empty model leaves `Models` unchanged. Only `Hourly[currentHour]` changes, by the same pair. |
| `DailyLemmas.ObservePreservesWellFormed` | internal/config/daily.go:302-332 | `Success + Failed == Total`, `Prompt + Completion == Total` and the 24-hour shape survive an observation. |
| `DailyLemmas.ObserveMonotone` | internal/config/daily.go:302-332 | With non-negative inputs, no counter of the record, of any model or of any hour decreases. |
| `DailyLemmas.AddToStatsFrame` | internal/config/daily.go:261-313 | Only the first record dated today changes. When none exists, exactly one zeroed record is appended first, with no cut. Every other index is unchanged. |
| `DailyLemmas.AddCanExceedRetention` | internal/config/daily.go:269-299 | Given 30 records with none dated today, an observation leaves 31 records. |
| `DailyLemmas.AddThenLookupToday` | internal/config/daily.go:261-332 | Reading today after an observation gives the observed version of the earlier record, or of a zeroed one. |
| `DailyLemmas.AddThenLookupOther` | internal/config/daily.go:261-332 | Reading any other date gives the same result before and after an observation. |
| `DailyLemmas.AddPreservesInvariant` | internal/config/daily.go:261-332 | An observation keeps one record per date with every record well-formed. |
| `DailyLemmas.InvariantGivesHour` | internal/config/daily.go:331-332 | In a store with the invariant, the bucket for any hour in 0..23 exists. |
| `DailyLemmas.AddMaskedKeyUsageEffect` | internal/config/daily.go:338-352 | Under a masked key, only the entry for today changes: created at zero if absent, then increased by `(requestCount, totalTokens)`. Every other key and date entry is unchanged. |
| `DailyLemmas.AddKeyUsageEffect` | internal/config/daily.go:335-353 | For a non-empty key, only the entry at the masked key and today changes: created at zero if absent, then increased by `(requestCount, totalTokens)`. The masked key is added to the outer map, and an empty key changes nothing. |
| `DailyLemmas.ByDateLastWins` | internal/config/daily.go:431-434 | A record that no later record shares its date with is the value stored for that date. |
| `DailyLemmas.ByDateSize` | internal/config/daily.go:430-435 | The map has at most one entry per record, and exactly one when the dates are unique. |
| `DailyLemmas.ByDateAgreesWithLookup` | internal/config/daily.go:381-387 | With unique dates, the all-days map and the single-day reader agree on membership and value for every date. |
| `DailyLemmas.LookupAbsent` | internal/config/daily.go:381-389 | A date is absent exactly when no record carries it. |
| `DailyLemmas.TwoObservationsExample` | internal/config/daily.go:302-353 | Recording (3 requests, 100+50 tokens, success) then (1, 10+5, failure) for "sk-ABCDEFGH"/"gpt-x" gives totals 4/3/1 and 165 tokens, model and hour buckets {4, 165}, and credential usage {4, 165} under "sk-ABC******". |

## Left out

- `InitDailyStats`, `loadDailyData` and `saveDailyData` (daily.go:76-155) are not modelled. They are directory creation, file reads and writes, and JSON encoding. For the same reason the save/load round trip is not modelled.
- The background `go func() { saveDailyData() }()` persist (daily.go:359-363) and the `sync.RWMutex` discipline are not modelled. Their point is concurrency; every operation here is one atomic step.
- The write to `LastUpdated` made while holding only the read lock (daily.go:145) is a data race, not a sequential behaviour.
- `time.Now()` and its formatting are replaced by the injected `today`, `currentHour` and `now`. So are the calls to it inside the readers (daily.go:377, 403).
- `logger.Info` and `logger.Error` calls are not modelled; logging is a sink.
- The readers' `error` results are not modelled, because the code always returns nil there. "Absent" is `None`.
- The readers' copies are plain values. Go's `statsCopy := stats` shares the `Models` map and the `Hourly` slice with the store (daily.go:384, 432), and that aliasing is not modelled.
- Daily.DailyStore.AddDailyRequestStat: does not model Go's fixed-width `int` overflow. Counters are unbounded integers, and no sign checks exist, as in the code.
- Daily.DailyStore.AddDailyRequestStat: the nil-store panic and the out-of-range `Hourly[currentHour]` panic are preconditions; the panic is not modelled.
- Nil `Models` or `KeysUsage` maps are not modelled. Only a decoded file can leave them nil, and writing to them would panic. Dafny maps are never nil.
- Byte-level strings are not modelled. `maskAPIKey` measures and slices keys in bytes, and here a `string` stands for one character per byte. So multi-byte UTF-8 keys are not modelled byte by byte.
- The final `dailyData.DailyStats[todayIndex] = *todayStats` (daily.go:356) writes back the record the pointer already updated. The model does this once, as one update of the list.
