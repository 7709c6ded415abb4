# TailLeader core, modelled in Dafny

TailLeader watches an ADS-B feeder and logs one arrival event each time an
aircraft enters coverage. It resolves registrations through a cached
upstream lookup and keeps a registry of hex id → registration with a
normalized aircraft type for display. This project models the four pieces
that carry that logic and proves what they promise.

- **Type normalizer** (`TypeNormalizer`, `TypePatterns`, `Text`,
  `TypeExamples`). It holds the manufacturer alias table and the ordered
  table of 200 rules, each written as a small token pattern matched on the
  upper-cased subject. It also models the first-match scan with its
  "{override} {canonical}" output, the clean-up fallback, and
  `normalize_type_display`. Python's `strip`, `upper`, `split(None, 1)` and
  the `\s+` collapse are defined in `Text`.
- **Lookup cache** (`AircraftDb`). The class `LookupCache` holds `_cache` as
  a map from upper-cased hex id to a cached value or a negative entry. The
  upstream request is an oracle parameter, and every request it makes is
  recorded.
- **Registry and event store** (`Db`). The class `Database` holds
  `aircraft_registry` as a map keyed by hex id and `events` as a sequence.
  It covers the computation of `normalized_type`, the upsert, the append and
  the read-back.
- **Presence tracker** (`Poller`). The class `Tracker` holds
  `seen_aircraft`, its key order and the list of spawned lookup tasks. A
  poll is specified by pure functions: `Visit` for one snapshot, `Scan` for
  the loop, and `Cycle` for the loop followed by eviction. The methods are
  proved against them, and the properties are proved about the functions.
  The refresher's selection and the start-up preload are modelled the same
  way.

A cached value is either a registration string or a 4-tuple. Lookups store
strings; the start-up load (`Tracker.Startup`) stores the registry's tuples.
The background task (`LookupAndCache`) unpacks whatever the lookup answers
into four values. Both methods follow the code as written. The two findings
below come from this, and the corrected behaviour is stated beside them as
separate definitions (`RegistryCache`, `StoredFields`, `TaskRegistry`).

## Model

| member | source | states |
|---|---|---|
| TypeNormalizer.NormalizeAircraftType | tailleader/aircraft_type_normalizer.py:407-449 | the normalizer itself: the first rule that fires on `aircraft_type or icao_type` gives "{override} {canonical}", else the cleaned subject with the normalized manufacturer, else "Unknown"; its properties are the lemmas below |
| TypeNormalizer.NormalizeTypeDisplay | tailleader/aircraft_type_normalizer.py:452-474 | "" and "Unknown" display as "Unknown"; otherwise `split(None, 1)` into manufacturer and model, or the whole string as a type when it is one word |
| TypeNormalizer.NormalizeManufacturer | tailleader/aircraft_type_normalizer.py:93-98 | the result is None exactly when the name is None or empty |
| TypeNormalizer.ManufacturerIgnoresCase | tailleader/aircraft_type_normalizer.py:96-98 | two spellings that upper-case alike and hit the alias table give the same manufacturer |
| TypeNormalizer.ManufacturerIgnoresPadding | tailleader/aircraft_type_normalizer.py:96-98 | surrounding whitespace does not change the normalized manufacturer |
| TypeNormalizer.Subject | tailleader/aircraft_type_normalizer.py:427 | the subject is `aircraft_type or icao_type`, and "" exactly when both are falsy |
| TypeNormalizer.FirstMatch | tailleader/aircraft_type_normalizer.py:429-435 | the scan returns a rule that fires with no earlier rule firing, or None when no rule fires |
| TypeNormalizer.FirstMatchIs | tailleader/aircraft_type_normalizer.py:429-431 | if rule k fires and no earlier rule does, the scan picks k |
| TypeNormalizer.ScanIgnoresCase | tailleader/aircraft_type_normalizer.py:399-403 | matching is case-insensitive: a subject and its upper-cased form select the same rule |
| TypeNormalizer.MatchedType | tailleader/aircraft_type_normalizer.py:429-435 | on a match the result is "{override} {canonical}" of the first rule that fires |
| TypeNormalizer.MatchIgnoresManufacturer | tailleader/aircraft_type_normalizer.py:433-435 | on a match the manufacturer argument does not affect the result |
| TypeNormalizer.NoRuleFiresOnBlank | tailleader/aircraft_type_normalizer.py:427-431 | no rule fires on an empty or all-whitespace subject |
| TypeNormalizer.UnmatchedType | tailleader/aircraft_type_normalizer.py:437-443 | with no match on a non-empty subject, the result is "{mfr} " (when the normalized manufacturer is truthy) followed by the collapsed subject, which keeps every visible character and has single inner spaces |
| TypeNormalizer.NoTypeIsUnknown | tailleader/aircraft_type_normalizer.py:444-449 | with neither type nor ICAO code the result is "Unknown", whatever the manufacturer |
| TypeNormalizer.IcaoOnlyAsSubject | tailleader/aircraft_type_normalizer.py:444-447 | the ICAO branch is unreachable: the answer equals the one for `aircraft_type or icao_type` given as the type |
| TypeNormalizer.BlankType | tailleader/aircraft_type_normalizer.py:437-443 | a whitespace-only subject yields "" or "{mfr} " |
| TypeNormalizer.TypeDisplayUnknown | tailleader/aircraft_type_normalizer.py:464-465 | "" and "Unknown" display as "Unknown" |
| TypeNormalizer.TypeDisplayOneWord | tailleader/aircraft_type_normalizer.py:468-474 | a single padded word is normalized as a type with no manufacturer |
| TypeNormalizer.TypeDisplayTwoParts | tailleader/aircraft_type_normalizer.py:468-471 | word, whitespace run and remainder are normalized as (manufacturer, model) |
| TypePatterns.Fires | tailleader/aircraft_type_normalizer.py:430 | a rule fires when one of its alternatives matches at some position of the upper-cased subject (`fullmatch or search` under IGNORECASE) |
| TypePatterns.FiresIffSearch | tailleader/aircraft_type_normalizer.py:430 | `fullmatch(s) or search(s)` holds exactly when some alternative of the pattern occurs in the upper-cased subject |
| TypePatterns.MissingWordNoMatch | tailleader/aircraft_type_normalizer.py:430 | an alternative with a literal part whose text does not occur in the subject matches at no position |
| TypePatterns.ExcludedRuleSilent | tailleader/aircraft_type_normalizer.py:430 | when every alternative of a pattern needs a literal the subject lacks, `search` finds nothing |
| TypePatterns.SolidRuleSilentOnBlank | tailleader/aircraft_type_normalizer.py:430 | a rule each of whose alternatives needs a visible character never fires on a blank subject |
| TypePatterns.TableGood | tailleader/aircraft_type_normalizer.py:110-398 | every rule of the table has a non-empty manufacturer override and needs a visible character |
| TypePatterns.AirbusNarrowbodyGood | tailleader/aircraft_type_normalizer.py:113-127 | the Airbus narrowbody rules have overrides and need a visible character |
| TypePatterns.AirbusWidebodyGood | tailleader/aircraft_type_normalizer.py:131-149 | likewise for the Airbus widebody rules |
| TypePatterns.Boeing737Good | tailleader/aircraft_type_normalizer.py:154-176 | likewise for the Boeing 737 rules |
| TypePatterns.Boeing747Good | tailleader/aircraft_type_normalizer.py:179-184 | likewise for the Boeing 747 rules |
| TypePatterns.Boeing757Good | tailleader/aircraft_type_normalizer.py:187-189 | likewise for the Boeing 757 rules |
| TypePatterns.Boeing767Good | tailleader/aircraft_type_normalizer.py:192-195 | likewise for the Boeing 767 rules |
| TypePatterns.Boeing777Good | tailleader/aircraft_type_normalizer.py:198-205 | likewise for the Boeing 777 rules |
| TypePatterns.Boeing787Good | tailleader/aircraft_type_normalizer.py:208-211 | likewise for the Boeing 787 rules |
| TypePatterns.McdonnellDouglasGood | tailleader/aircraft_type_normalizer.py:214-224 | likewise for the McDonnell Douglas rules |
| TypePatterns.EmbraerEJetsGood | tailleader/aircraft_type_normalizer.py:228-241 | likewise for the Embraer rules |
| TypePatterns.BombardierCanadairGood | tailleader/aircraft_type_normalizer.py:245-258 | likewise for the Bombardier/Canadair rules |
| TypePatterns.AtrGood | tailleader/aircraft_type_normalizer.py:261-262 | likewise for the ATR rules |
| TypePatterns.CessnaJetsGood | tailleader/aircraft_type_normalizer.py:265-276 | likewise for the Cessna jet rules |
| TypePatterns.CessnaPropsGood | tailleader/aircraft_type_normalizer.py:279-285 | likewise for the Cessna piston rules |
| TypePatterns.PiperGood | tailleader/aircraft_type_normalizer.py:288-302 | likewise for the Piper rules |
| TypePatterns.CirrusGood | tailleader/aircraft_type_normalizer.py:305-309 | likewise for the Cirrus rules |
| TypePatterns.PilatusGood | tailleader/aircraft_type_normalizer.py:313-315 | likewise for the Pilatus rules |
| TypePatterns.BeechcraftGood | tailleader/aircraft_type_normalizer.py:318-325 | likewise for the Beechcraft rules |
| TypePatterns.GulfstreamGood | tailleader/aircraft_type_normalizer.py:328-337 | likewise for the Gulfstream rules |
| TypePatterns.DassaultFalconGood | tailleader/aircraft_type_normalizer.py:340-346 | likewise for the Dassault Falcon rules |
| TypePatterns.LearjetGood | tailleader/aircraft_type_normalizer.py:349-356 | likewise for the Learjet rules |
| TypePatterns.DiamondGood | tailleader/aircraft_type_normalizer.py:359-362 | likewise for the Diamond rules |
| TypePatterns.RobinsonGood | tailleader/aircraft_type_normalizer.py:366-368 | likewise for the Robinson rules |
| TypePatterns.BellGood | tailleader/aircraft_type_normalizer.py:371-376 | likewise for the Bell rules |
| TypePatterns.AirbusHelicoptersGood | tailleader/aircraft_type_normalizer.py:379-386 | likewise for the Airbus Helicopters rules |
| TypePatterns.SikorskyGood | tailleader/aircraft_type_normalizer.py:389-391 | likewise for the Sikorsky rules |
| TypePatterns.LeonardoGood | tailleader/aircraft_type_normalizer.py:394-397 | likewise for the Leonardo rules |
| TypeExamples.TableStart | tailleader/aircraft_type_normalizer.py:110-176 | the table opens with the 9 Airbus narrowbody, 13 widebody and 15 Boeing 737 rules, in that order |
| TypeExamples.Boeing737CustomerCode | tailleader/aircraft_type_normalizer.py:155-176 | type "737-8H4" gives "Boeing 737-800" whatever the manufacturer ("THE BOEING COMPANY" included); the generic 737 rule also fires but comes later |
| TypeExamples.A320NeoCustomerCode | tailleader/aircraft_type_normalizer.py:120-121 | "A320-251N" gives "Airbus A320neo" whatever the manufacturer, ahead of the plain A320 rule that also fires |
| TypeExamples.A321XlrBeforeLr | tailleader/aircraft_type_normalizer.py:124-125 | "A321XLR" gives "Airbus A321XLR" whatever the manufacturer, ahead of the A321LR rule that also fires |
| Text.StripSpec | tailleader/aircraft_type_normalizer.py:96-98 | `strip()` returns a trimmed infix and removes only whitespace |
| Text.CollapseSpec | tailleader/aircraft_type_normalizer.py:440-443 | `re.sub(r'\s+', ' ', s).strip()` keeps the visible characters in order, with single inner spaces and none at the ends |
| Text.SplitOnceSpec | tailleader/aircraft_type_normalizer.py:468 | `split(None, 1)` gives at most two non-empty parts; the first has no whitespace; only whitespace is dropped; it is [] exactly for blank input |
| AircraftDb.LookupSpec | tailleader/aircraft_db.py:9-40 | `lookup_registration` on values: a cached key answers its entry with no request; otherwise one request for the lower-cased key, whose outcome (a registration or None) is cached and answered |
| AircraftDb.Resolve | tailleader/aircraft_db.py:25-31 | a reply yields a registration exactly for status 200 with a truthy `registration or regid` |
| AircraftDb.CacheGet | tailleader/aircraft_db.py:42-44 | returns the entry of the upper-cased key, and None for an absent key |
| AircraftDb.LookupCache.LookupRegistration | tailleader/aircraft_db.py:9-40 | the answer, the new cache and the recorded requests are those of LookupSpec |
| AircraftDb.LookupCache.LoadCacheFromDb | tailleader/aircraft_db.py:46-49 | the cache becomes the old one updated with the registry, and no request is made |
| AircraftDb.LookupHit | tailleader/aircraft_db.py:14-18 | a cached key, a negative entry included, answers the cached value with no request and no change |
| AircraftDb.LookupCachesAnswer | tailleader/aircraft_db.py:31-40 | afterwards the upper-cased key is cached with the answer returned, and no other key changes |
| AircraftDb.LookupMissCalls | tailleader/aircraft_db.py:20-24 | a miss makes exactly one request, for the lower-cased hex id |
| AircraftDb.LookupFailureIsNegative | tailleader/aircraft_db.py:25-40 | an exception, another status or no registration field caches and answers None |
| AircraftDb.LookupPositiveIsNormalized | tailleader/aircraft_db.py:29-34 | a positive answer is the reply's field stripped and upper-cased (trimmed, no lower-case letter) |
| AircraftDb.LookupTwice | tailleader/aircraft_db.py:17-39 | two lookups of one hex id make at most one request and answer alike |
| AircraftDb.LookupIgnoresCase | tailleader/aircraft_db.py:14 | lookups of hex ids that upper-case alike behave identically |
| AircraftDb.PreloadedEntries | tailleader/aircraft_db.py:46-49 | the preload overwrites the given keys as they are and keeps every other entry |
| Db.NormalizedType | tailleader/db.py:141-147 | the cached display type: None without type data, the normalizer's answer otherwise, with "Unknown" turned into None |
| Db.Store | tailleader/db.py:134-154 | `store_registration` on the table: the row under the upper-cased hex id becomes (upper-cased registration, raw type fields, normalized type, `now`) |
| Db.RegistrationFor | tailleader/db.py:156-164 | there is an answer exactly when a row exists under the upper-cased hex id |
| Db.Database.InsertEvent | tailleader/db.py:45-58 | a bindable event appends exactly one row with its six fields; a tuple registration raises and writes nothing; the registry is untouched |
| Db.Database.StoreRegistration | tailleader/db.py:134-154 | with a registration, the registry becomes the upsert `Store`; without one it raises and nothing changes; events are untouched |
| Db.NormalizedAbsent | tailleader/db.py:143-144 | with manufacturer, type and ICAO code all falsy the cached type is None |
| Db.NormalizedIsNormalizer | tailleader/db.py:145-147 | otherwise it is `normalize_aircraft_type(...)`, with "Unknown" replaced by None |
| Db.NormalizedNeedsType | tailleader/db.py:143-147 | a cached type needs a type or ICAO code, and is never "Unknown" |
| Db.StoreThenGet | tailleader/db.py:149-153 | after a store, reading any spelling of the hex id gives the upper-cased registration; other hex ids read as before |
| Db.StoreIsUpsert | tailleader/db.py:149-153 | the row under the upper-cased hex id is replaced; raw type fields, timestamp and upper-cased registration are stored; other rows are unchanged |
| Db.StoreTwice | tailleader/db.py:149-153 | storing the same data twice is the same as storing it once |
| Poller.NormalizeRegistration | tailleader/poller.py:18-27 | a returned registration has at least two characters |
| Poller.NormalizeRegistrationSpec | tailleader/poller.py:18-27 | there is a result exactly for a truthy input whose stripped length is ≥ 2; it is the input stripped and upper-cased |
| Poller.NormalizeRegistrationIdempotent | tailleader/poller.py:18-27 | normalizing twice is normalizing once |
| Poller.HexOf | tailleader/poller.py:88-92 | a snapshot has a hex id exactly when `hex or icao` is truthy; it is that value upper-cased |
| Poller.TrackOf | tailleader/poller.py:97 | `track or heading`: a zero or missing track gives the heading |
| Poller.Resolved | tailleader/poller.py:98-107 | the registration is the broadcast one, else a truthy cached value, else None |
| Poller.Broadcast | tailleader/poller.py:98 | the broadcast registration: `normalize_registration(reg) or normalize_registration(flight)` |
| Poller.Acquire | tailleader/poller.py:55-81 | the document of a poll: fetched for mode "http" (the default only when the key is absent) with a url, loaded for mode "file" with an existing path, otherwise none; a null or non-string mode gives none |
| Poller.Visit | tailleader/poller.py:87-126 | one iteration: skip a snapshot without hex id; resolve the registration, spawn a lookup when there is none; a new hex id inserts an event (an unbindable registration raises) and opens a session; a tracked one is updated with `reg or old_reg` |
| Poller.Scan | tailleader/poller.py:87-126 | the loop: Visit over the batch in order, stopping at the first insert that raises |
| Poller.Disappeared | tailleader/poller.py:129-130 | exactly the hex ids, in key order, absent from the batch and last seen more than 600 s ago |
| Poller.Cycle | tailleader/poller.py:83-134 | a poll after the fetch: the loop, then deletion of Disappeared unless an insert raised |
| Poller.EarlyReturns | tailleader/poller.py:55-81 | a missing url, a failed fetch, a missing file, a failed load, an unknown mode string, or a null or non-string mode yields no document |
| Poller.BatchOf | tailleader/poller.py:83 | `aircraft` when it is a non-empty list, else `ac`, else [] |
| Poller.Tracker.PollOnce | tailleader/poller.py:53-134 | an early return changes nothing; otherwise the map, order, spawned tasks and events are those of `Cycle`, and the outcome says whether an insert raised |
| Poller.Tracker.ScanBatch | tailleader/poller.py:83-126 | the loop over the batch produces exactly `Scan` of the batch |
| Poller.Tracker.Evict | tailleader/poller.py:128-134 | the stale hex ids, collected in key order, are deleted from the map and from the key order |
| Poller.VisitSkipsHexless | tailleader/poller.py:88-90 | a snapshot with neither `hex` nor `icao` changes nothing |
| Poller.VisitArrival | tailleader/poller.py:110-120 | a new hex id appends exactly one event (its hex id, `now`, its registration) and a new session stamped `now` |
| Poller.VisitTracked | tailleader/poller.py:121-126 | a tracked hex id logs no event; rssi/lat/lon/track are overwritten; the time becomes `now`; a truthy registration stays truthy; other sessions are unchanged |
| Poller.ScanStaysAborted | tailleader/poller.py:119 | once an insert raises, the rest of the batch is not visited |
| Poller.ScanOrder | tailleader/poller.py:87-126 | the key order stays exact, and the keys the loop adds are the hex ids of its events, in order |
| Poller.ScanKeeps | tailleader/poller.py:87-126 | the loop removes no key and clears no registration; hex ids outside the batch keep their sessions; every event is stamped `now` |
| Poller.ScanStamps | tailleader/poller.py:87-126 | after a full loop every hex id of the batch is tracked and stamped `now` |
| Poller.ScanFacts | tailleader/poller.py:87-126 | the conjunction of ScanOrder, ScanKeeps and ScanStamps |
| Poller.ArrivalsLogged | tailleader/poller.py:110-120 | every event is for an untracked hex id; no hex id is logged twice; every newly tracked hex id is logged |
| Poller.CycleFacts | tailleader/poller.py:128-134 | eviction removes exactly the hex ids absent from the batch and last seen more than 600 s ago; kept sessions are unchanged; every hex id of the batch survives |
| Poller.RegistrationNeverCleared | tailleader/poller.py:126 | over a poll a surviving session keeps its registration or gets a truthy one |
| Poller.ScanWithoutRowsCompletes | tailleader/poller.py:101-119 | with no 4-tuple in the cache no insert raises, so the loop runs to the end |
| Poller.LookupKeepsNoRows | tailleader/aircraft_db.py:31-39 | a lookup caches only strings and None, so it never puts a 4-tuple in the cache |
| Poller.Unresolved | tailleader/poller.py:45 | exactly the tracked hex ids whose registration is falsy, in key order, none twice |
| Poller.Selection | tailleader/poller.py:45-48 | the first 20 of Unresolved (`unknown_hexes[:20]`) |
| Poller.Tracker.RefreshOnce | tailleader/poller.py:45-48 | the spawned tasks grow by exactly `Selection`; the map is untouched |
| Poller.SelectionFacts | tailleader/poller.py:45-48 | at most 20 hex ids, the first unresolved ones in key order, all tracked with a falsy registration, none twice; fewer than 20 only when that is all of them |
| Poller.RegistryCacheAsWritten | tailleader/poller.py:145-146 | as written: each registry row becomes a 4-tuple (registration, type, manufacturer, ICAO code) under its hex id |
| Poller.RegistryCache | tailleader/poller.py:145-146 | corrected: each registry row becomes its registration string under its hex id |
| Poller.Tracker.Startup | tailleader/poller.py:145-161 | as written: the cache is updated with the registry's 4-tuples (RegistryCacheAsWritten); the map gets the preload of the recent rows |
| Poller.Place | tailleader/poller.py:161 | one row: the placeholder session under the upper-cased hex id; a new key goes to the end of the order, a present one keeps its place |
| Poller.Preload | tailleader/poller.py:159-161 | the preload loop: Place over the rows in order |
| Poller.Tracker.PreloadRecent | tailleader/poller.py:159-161 | the map and key order become `Preload` of the rows |
| Poller.PreloadOrder | tailleader/poller.py:159-161 | the preload keeps the key order exact and adds exactly the upper-cased hex ids of the rows |
| Poller.PreloadUntouched | tailleader/poller.py:159-161 | hex ids without a recent row keep their sessions through the preload |
| Poller.PreloadLastRow | tailleader/poller.py:159-161 | each recent hex id gets the placeholder (registration, no position, `last_seen`) of its last row |
| Poller.PreloadedHexLogsNoEvent | tailleader/poller.py:159-161 | a preloaded hex id is tracked, so a poll that sees it logs no event for it |
| Poller.UnpackAsWritten | tailleader/poller.py:35 | as written: a 4-tuple unpacks field by field; a string unpacks only when it has exactly four characters, into those characters; any other string raises |
| Poller.TaskRegistryAsWritten | tailleader/poller.py:29-38 | as written: for a truthy answer and a database, the unpacked values are stored; a raise (unpacking, or a missing registration) leaves the registry unchanged |
| Poller.LookupAndCache | tailleader/poller.py:29-38 | as written: the cache and requests change as in LookupSpec; the registry becomes TaskRegistryAsWritten; no event is written |
| Poller.TaskSkipsOtherLengths | tailleader/poller.py:35-38 | as written, a looked-up string whose length is not 4 raises on unpacking; the error is swallowed and the registry is unchanged |
| Poller.TaskSplitsFourCharacters | tailleader/poller.py:35-36 | as written, a looked-up string of four characters is stored as registration, type, manufacturer and ICAO code of one character each |
| Poller.TaskUnpacksLookedUpString | tailleader/poller.py:35-36 | as written, for every looked-up string: a length other than 4 leaves the registry unchanged; a length of 4 stores the row of its four characters, and the registration read back is its first character |
| Poller.TaskStoresCachedRow | tailleader/poller.py:35-36 | a cached 4-tuple is stored field by field, and on it the task as written and the corrected one agree |
| Poller.StoredFields | tailleader/poller.py:35-36 | corrected: a looked-up string is stored as the registration with no type fields; a 4-tuple is unpacked as written |
| Poller.TaskRegistry | tailleader/poller.py:29-38 | corrected: the task with StoredFields in place of the unpacking |
| Poller.TaskStoresLookedUpRegistration | tailleader/poller.py:33-36 | corrected, the registry reads back the looked-up registration for the hex id |
| Poller.RowInCacheAbortsArrival | tailleader/poller.py:101-119 | a new, silent hex id whose cache entry is a 4-tuple ends the poll before it is tracked or logged |
| Poller.StartupLoadAbortsArrival | tailleader/poller.py:146-148 | as written, for every registry and poll state: a new hex id with a registry row and no broadcast registration ends the poll before it is tracked or logged |
| Poller.PreloadedRowAbortsPoll | tailleader/poller.py:146-148 | as written, after the start-up load a silent, untracked, registered aircraft ends the poll with nothing tracked or logged |
| Poller.CorrectedPreloadNeverAborts | tailleader/poller.py:146-148 | corrected: loading registrations instead keeps the cache free of 4-tuples, and no poll ends early |

## Left out

- The HTTP fetch, JSON decoding, file reads and the upstream request are oracles: `Source` and the `upstream` function. A document that is not a JSON object, and snapshot fields of unexpected JSON types, are not modelled.
- asyncio is not modelled. A `create_task` is recorded in `Tracker.spawned`, and the task itself is `LookupAndCache`, run separately. The 60 s and interval sleeps, the refresher's loop and `run_poller`'s loop are not modelled.
- `time.time()` is the parameter `now`. The preload query (`observed_at > now - 1800`, grouped by hex id) is not computed from the events table: its rows are an input.
- SQL, connections and commits are not modelled. The tables are a map and a sequence. `ensure_db`, `top_registrations`, `recent_events` and `rollup_daily` (SQLite aggregation and dates) are out of scope.
- tailleader/app.py, tailleader/init_db.py and scripts/normalize_db.py are not part of this model.
- TypePatterns.Fires: Python's regex engine is replaced by a small token language per rule. It covers literals, optional parts, `\s*`, `.*`, `\d` and bracket classes, alternation, the `(?:\s|$)` end tests and the `(?![0-9A-Z]{2})` lookahead. `re.IGNORECASE` is modelled by upper-casing ASCII letters, so non-ASCII case folding and Unicode digits for `\d` are not modelled.
- Text.Upper: `str.upper()` maps ASCII letters only. Unicode case mapping, including length-changing mappings, is not modelled.
- The one-time lazy compilation of the rule table (aircraft_type_normalizer.py:419-421) is modelled as a constant table.
- rssi, lat, lon, track and heading are carried as opaque `real` values. Only the truthiness of a zero track is used.
- Poller.Tracker.PollOnce: an insert that raises ends the poll as `Aborted`, because `run_poller` swallows the exception. Events inserted before it stay, sessions updated before it stay, and eviction does not run.

Where the source's own comments suggest more than the code does, the model follows the code:
- The refresher's "retry" (poller.py:41) never repeats a lookup that failed: the failure is cached as a negative entry, and a cached key, negative or not, answers without a request (aircraft_db.py:17-18; AircraftDb.LookupHit). A tracked aircraft whose first lookup failed stays unresolved unless it broadcasts a registration.
- The refresher's lookups do not update a session directly (poller.py:29-38). A successful lookup reaches the session only on a later poll that sees the aircraft without a broadcast registration: the cached string is then taken (poller.py:101-104) and kept through `reg or old_reg` (poller.py:126).
- The docstring at aircraft_type_normalizer.py:416-417 promises a display name, but a whitespace-only subject normalizes to "" or "{mfr} " (TypeNormalizer.BlankType).
- The comment at poller.py:143 calls the start-up load a registration cache, but it caches 4-tuples (Tracker.Startup; see Findings).

## Findings

| source | as written | input that shows it | evidently intended | confidence | as-written member | corrected member |
|---|---|---|---|---|---|---|
| tailleader/poller.py:35 | `lookup_and_cache` unpacks the string that `lookup_registration` returns into four names | a lookup answer "N123" is stored as registration "N", type "1", manufacturer "2", ICAO "3"; an answer "N12345" raises ValueError, which is swallowed, so nothing is stored | store the looked-up registration under the hex id | high, not executed | Poller.TaskUnpacksLookedUpString | Poller.TaskStoresLookedUpRegistration |
| tailleader/poller.py:146-148 | the start-up load puts registry 4-tuples in the registration cache; `poll_once` then takes a tuple as the registration of a new, silent aircraft, and `insert_event` cannot bind it | registry row ABC123 → N12345, empty `seen_aircraft`, one snapshot with hex "abc123" and no reg/flight: the poll raises, nothing is tracked or logged, and the next poll does the same | cache the registry's registration strings | high, not executed | Poller.PreloadedRowAbortsPoll | Poller.CorrectedPreloadNeverAborts |
