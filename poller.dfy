/**
 * `poller.py`: the presence tracker.
 *
 * `seen_aircraft` maps an upper-cased hex id to the session of an aircraft
 * in coverage. One poll turns a batch of feeder snapshots into updates of
 * that map: a hex id seen for the first time logs one arrival event, a
 * tracked one is updated in place, and hex ids gone for more than 600
 * seconds are dropped. Python dicts keep insertion order, which the
 * refresher's selection depends on, so the tracker keeps the key order
 * beside the map. Spawned background lookups are recorded, not run.
 */
module Poller {
  import opened Text
  import opened AircraftDb
  import opened Db

  /** One entry of the feeder's aircraft list; absent keys are `None`. */
  datatype Snapshot = Snapshot(
    hex: Option<string>,
    icao: Option<string>,
    reg: Option<string>,
    flight: Option<string>,
    rssi: Option<real>,
    lat: Option<real>,
    lon: Option<real>,
    track: Option<real>,
    heading: Option<real>)

  /** A `seen_aircraft` value: (registration, rssi, lat, lon, track, last seen). */
  datatype Session = Session(
    reg: Option<RegValue>,
    rssi: Option<real>,
    lat: Option<real>,
    lon: Option<real>,
    track: Option<real>,
    lastSeen: int)

  // ---------------------------------------------------------------------------
  // Registrations and snapshot fields
  // ---------------------------------------------------------------------------

  /** `normalize_registration`: stripped and upper-cased, kept only from two characters on. */
  function NormalizeRegistration(reg: Option<string>): (r: Option<string>)
    ensures r.Some? ==> |r.value| >= 2
  {
    if !Truthy(reg) then None
    else
      var s := Upper(Strip(reg.value));
      if |s| >= 2 then Some(s) else None
  }

  lemma NormalizeRegistrationSpec(reg: Option<string>)
    ensures NormalizeRegistration(reg).Some? <==> Truthy(reg) && |Strip(reg.value)| >= 2
    ensures NormalizeRegistration(reg).Some? ==>
      var s := NormalizeRegistration(reg).value;
      s == Upper(Strip(reg.value)) && Trimmed(s) && NoLower(s)
  {
    if Truthy(reg) {
      UpperResult(Strip(reg.value));
      StripSpec(reg.value);
      StripUpper(reg.value);
      StripSpec(Upper(reg.value));
    }
  }

  lemma NormalizeRegistrationIdempotent(reg: Option<string>)
    ensures NormalizeRegistration(NormalizeRegistration(reg)) == NormalizeRegistration(reg)
  {
    var r := NormalizeRegistration(reg);
    if r.Some? {
      NormalizeRegistrationSpec(reg);
      StripOfTrimmed(r.value);
      UpperOfNoLower(r.value);
    }
  }

  /** The hex id of a snapshot: `hex or icao`, upper-cased; none when both are falsy. */
  function HexOf(ac: Snapshot): (r: Option<string>)
    ensures r.Some? <==> Truthy(Or(ac.hex, ac.icao))
    ensures r.Some? ==> r.value == Upper(Or(ac.hex, ac.icao).value) && r.value != [] && NoLower(r.value)
  {
    var id := Or(ac.hex, ac.icao);
    if Truthy(id) then (UpperResult(id.value); Some(Upper(id.value))) else None
  }

  /** `track or heading`: a zero track is falsy and gives way to the heading. */
  function TrackOf(ac: Snapshot): (r: Option<real>)
    ensures ac.track.Some? && ac.track.value != 0.0 ==> r == ac.track
    ensures !(ac.track.Some? && ac.track.value != 0.0) ==> r == ac.heading
  {
    if ac.track.Some? && ac.track.value != 0.0 then ac.track else ac.heading
  }

  /** The broadcast registration: `normalize(reg) or normalize(flight)`. */
  function Broadcast(ac: Snapshot): Option<RegValue> {
    AsValue(Or(NormalizeRegistration(ac.reg), NormalizeRegistration(ac.flight)))
  }

  /** The registration a snapshot ends up with: the broadcast one, else a truthy cached value, else none. */
  function Resolved(ac: Snapshot, h: string, cache: map<string, Option<RegValue>>): (r: Option<RegValue>)
    ensures RegTruthy(Broadcast(ac)) ==> r == Broadcast(ac)
    ensures !RegTruthy(Broadcast(ac)) && RegTruthy(CacheGet(cache, h)) ==> r == CacheGet(cache, h)
    ensures !RegTruthy(Broadcast(ac)) && !RegTruthy(CacheGet(cache, h)) ==> r == None
  {
    var b := Broadcast(ac);
    if RegTruthy(b) then b
    else
      var c := CacheGet(cache, h);
      if RegTruthy(c) then c else b
  }

  /** A background lookup is spawned when neither the snapshot nor the cache has a registration. */
  predicate NeedsLookup(ac: Snapshot, h: string, cache: map<string, Option<RegValue>>) {
    !RegTruthy(Broadcast(ac)) && !RegTruthy(CacheGet(cache, h))
  }

  /** `reg or old_reg` on registration values. */
  function RegOr(a: Option<RegValue>, b: Option<RegValue>): Option<RegValue> {
    if RegTruthy(a) then a else b
  }

  // ---------------------------------------------------------------------------
  // Key order
  // ---------------------------------------------------------------------------

  predicate NoDup(s: seq<string>) {
    forall i, j :: 0 <= i < j < |s| ==> s[i] != s[j]
  }

  /** `order` lists the keys of `seen` once each: the dict's iteration order. */
  ghost predicate OrderOf(seen: map<string, Session>, order: seq<string>) {
    NoDup(order) && (forall h :: h in order <==> h in seen)
  }

  /** The keys of `o` not in `gone`, in order. */
  function Without(o: seq<string>, gone: set<string>): (r: seq<string>)
    ensures forall h :: h in r <==> h in o && h !in gone
    ensures NoDup(o) ==> NoDup(r)
  {
    if o == [] then []
    else if o[0] in gone then Without(o[1..], gone)
    else [o[0]] + Without(o[1..], gone)
  }

  lemma {:induction false} WithoutNothing(o: seq<string>)
    ensures Without(o, {}) == o
  {
    if o != [] {
      WithoutNothing(o[1..]);
    }
  }

  lemma {:induction false} WithoutStep(o: seq<string>, gone: set<string>, x: string)
    ensures Without(Without(o, gone), {x}) == Without(o, gone + {x})
  {
    if o != [] {
      WithoutStep(o[1..], gone, x);
      if o[0] !in gone {
        assert Without(o, gone) == [o[0]] + Without(o[1..], gone);
        assert Without(o, gone)[1..] == Without(o[1..], gone);
      }
    }
  }

  // ---------------------------------------------------------------------------
  // One poll, as a function of the state before it
  // ---------------------------------------------------------------------------

  /**
   * The state a poll builds up: the map and its key order, the hex ids of
   * the batch so far, the events inserted and the lookups spawned in this
   * poll, and whether an insert raised (which ends the poll).
   */
  datatype Progress = Progress(
    seen: map<string, Session>,
    order: seq<string>,
    current: set<string>,
    events: seq<EventRow>,
    spawned: seq<string>,
    aborted: bool)

  function Start(seen: map<string, Session>, order: seq<string>): Progress {
    Progress(seen, order, {}, [], [], false)
  }

  /** One iteration of the loop over the batch. */
  function Visit(p: Progress, ac: Snapshot, cache: map<string, Option<RegValue>>, now: int): Progress {
    var id := HexOf(ac);
    if id.None? then p
    else
      var h := id.value;
      var reg := Resolved(ac, h, cache);
      var spawned := if NeedsLookup(ac, h, cache) then p.spawned + [h] else p.spawned;
      var current := p.current + {h};
      if h !in p.seen then
        if Bindable(reg) then
          p.(seen := p.seen[h := Session(reg, ac.rssi, ac.lat, ac.lon, TrackOf(ac), now)],
             order := p.order + [h],
             current := current,
             events := p.events + [EventRow(now, h, Bound(reg), ac.rssi, ac.lat, ac.lon)],
             spawned := spawned)
        else
          p.(current := current, spawned := spawned, aborted := true)
      else
        p.(seen := p.seen[h := Session(RegOr(reg, p.seen[h].reg), ac.rssi, ac.lat, ac.lon, TrackOf(ac), now)],
           current := current,
           spawned := spawned)
  }

  /** The loop over a batch; once an insert has raised, the rest of the batch is not visited. */
  function Scan(p: Progress, batch: seq<Snapshot>, cache: map<string, Option<RegValue>>, now: int): Progress
    decreases |batch|
  {
    if batch == [] then p
    else
      var q := Scan(p, batch[..|batch| - 1], cache, now);
      if q.aborted then q else Visit(q, batch[|batch| - 1], cache, now)
  }

  /** Absent from the batch and last seen more than 600 seconds ago. */
  predicate Stale(seen: map<string, Session>, current: set<string>, now: int, h: string) {
    h in seen && h !in current && now - seen[h].lastSeen > 600
  }

  /** `disappeared`: the stale hex ids, in key order. */
  function Disappeared(order: seq<string>, seen: map<string, Session>, current: set<string>, now: int): (r: seq<string>)
    ensures forall h :: h in r <==> h in order && Stale(seen, current, now, h)
  {
    if order == [] then []
    else if Stale(seen, current, now, order[0]) then [order[0]] + Disappeared(order[1..], seen, current, now)
    else Disappeared(order[1..], seen, current, now)
  }

  function Elements(d: seq<string>, n: nat): set<string>
    requires n <= |d|
  {
    set j | 0 <= j < n :: d[j]
  }

  lemma ElementsNone(d: seq<string>)
    ensures Elements(d, 0) == {}
  {
  }

  lemma ElementsStep(d: seq<string>, n: nat)
    requires n < |d|
    ensures Elements(d, n + 1) == Elements(d, n) + {d[n]}
  {
  }

  lemma DropStep(m: map<string, Session>, gone: set<string>, x: string)
    ensures (m - gone) - {x} == m - (gone + {x})
  {
  }

  /** A whole poll after the fetch: the loop over the batch, then eviction unless an insert raised. */
  function Cycle(seen: map<string, Session>, order: seq<string>, batch: seq<Snapshot>,
                 cache: map<string, Option<RegValue>>, now: int): Progress
  {
    var p := Scan(Start(seen, order), batch, cache, now);
    if p.aborted then p
    else
      var d := Disappeared(p.order, p.seen, p.current, now);
      var gone := Elements(d, |d|);
      p.(seen := p.seen - gone, order := Without(p.order, gone))
  }

  // ---------------------------------------------------------------------------
  // Feed acquisition
  // ---------------------------------------------------------------------------

  /** The `mode` key of the `feeder` section: absent, a string, or any other YAML value (`null` included). */
  datatype ModeSetting = Absent | Named(name: string) | NotAString

  /** The `feeder` section of the configuration; an absent or null `url`/`path` is `None` (both are falsy). */
  datatype Feeder = Feeder(mode: ModeSetting, url: Option<string>, path: Option<string>)

  /** A decoded feeder document: its `aircraft` and `ac` lists. */
  datatype Payload = Payload(aircraft: Option<seq<Snapshot>>, ac: Option<seq<Snapshot>>)

  /** The outside world: an HTTP fetch, a file existence test and a file load; `None` is a raised error. */
  datatype Source = Source(fetch: string -> Option<Payload>, present: string -> bool, load: string -> Option<Payload>)

  /** `feeder.get("mode", "http")` compared with "http": only an absent key takes the default. */
  predicate HttpMode(m: ModeSetting) {
    m.Absent? || m == Named("http")
  }

  /** The document a poll works on, or `None` where `poll_once` returns early. */
  function Acquire(cfg: Feeder, src: Source): (r: Option<Payload>)
    ensures r.Some? ==> HttpMode(cfg.mode) || cfg.mode == Named("file")
  {
    if HttpMode(cfg.mode) then
      if !Truthy(cfg.url) then None else src.fetch(cfg.url.value)
    else if cfg.mode == Named("file") then
      if !Truthy(cfg.path) || !src.present(cfg.path.value) then None else src.load(cfg.path.value)
    else None
  }

  /** Each early return of `poll_once`: no url, a failed fetch, no file, a failed load, or any other mode (a null one included). */
  lemma EarlyReturns(cfg: Feeder, src: Source)
    ensures HttpMode(cfg.mode) && !Truthy(cfg.url) ==> Acquire(cfg, src).None?
    ensures HttpMode(cfg.mode) && Truthy(cfg.url) ==> Acquire(cfg, src) == src.fetch(cfg.url.value)
    ensures cfg.mode == Named("file") && (!Truthy(cfg.path) || !src.present(cfg.path.value)) ==> Acquire(cfg, src).None?
    ensures cfg.mode == Named("file") && Truthy(cfg.path) && src.present(cfg.path.value) ==> Acquire(cfg, src) == src.load(cfg.path.value)
    ensures cfg.mode.Named? && cfg.mode.name != "http" && cfg.mode.name != "file" ==> Acquire(cfg, src).None?
    ensures cfg.mode.NotAString? ==> Acquire(cfg, src).None?
  {
  }

  /** `data.get("aircraft") or data.get("ac") or []`: an empty list is falsy. */
  function BatchOf(data: Payload): (r: seq<Snapshot>)
    ensures data.aircraft.Some? && data.aircraft.value != [] ==> r == data.aircraft.value
    ensures !(data.aircraft.Some? && data.aircraft.value != []) && data.ac.Some? ==> r == data.ac.value
    ensures !(data.aircraft.Some? && data.aircraft.value != []) && data.ac.None? ==> r == []
  {
    if data.aircraft.Some? && data.aircraft.value != [] then data.aircraft.value
    else if data.ac.Some? && data.ac.value != [] then data.ac.value
    else []
  }

  /** How a poll ended: returned early, raised from an insert, or ran to the end. */
  datatype Outcome = Skipped | Aborted | Completed

  // ---------------------------------------------------------------------------
  // The refresher's selection and the start-up preload
  // ---------------------------------------------------------------------------

  /** The hex ids without a truthy registration, in key order. */
  function Unresolved(order: seq<string>, seen: map<string, Session>): (r: seq<string>)
    ensures forall h :: h in r <==> h in order && h in seen && !RegTruthy(seen[h].reg)
    ensures NoDup(order) ==> NoDup(r)
  {
    if order == [] then []
    else if order[0] in seen && !RegTruthy(seen[order[0]].reg) then [order[0]] + Unresolved(order[1..], seen)
    else Unresolved(order[1..], seen)
  }

  /** A row of the start-up query: hex id, a registration and the latest `observed_at`. */
  datatype RecentRow = RecentRow(hex: string, registration: Option<string>, lastSeen: int)

  /** The placeholder session a recent row becomes. */
  function Placeholder(row: RecentRow): Session {
    Session(AsValue(row.registration), None, None, None, None, row.lastSeen)
  }

  datatype Tracked = Tracked(seen: map<string, Session>, order: seq<string>)

  /** `seen_aircraft[row.hex.upper()] = placeholder`: a new key goes to the end of the order, a present one keeps its place. */
  function Place(t: Tracked, row: RecentRow): Tracked {
    var h := Upper(row.hex);
    Tracked(t.seen[h := Placeholder(row)], if h in t.seen then t.order else t.order + [h])
  }

  /** The preload loop over the query's rows. */
  function Preload(t: Tracked, rows: seq<RecentRow>): Tracked
    decreases |rows|
  {
    if rows == [] then t else Place(Preload(t, rows[..|rows| - 1]), rows[|rows| - 1])
  }

  /** The upper-cased hex ids of the rows. */
  function RowKeys(rows: seq<RecentRow>): set<string> {
    set k | 0 <= k < |rows| :: Upper(rows[k].hex)
  }

  /** The cache contents the start-up load writes, as written: the registry's 4-tuples. */
  function RegistryCacheAsWritten(registry: map<string, RegistryRow>): (r: map<string, RegValue>)
    ensures r.Keys == registry.Keys
    ensures forall h :: h in r ==> r[h].Row? && r[h].registration == Some(registry[h].registration)
  {
    map h | h in registry :: Row(Some(registry[h].registration), registry[h].aircraftType, registry[h].manufacturer, registry[h].icaoType)
  }

  /** The cache contents the start-up load is meant to write: the registry's registrations. */
  function RegistryCache(registry: map<string, RegistryRow>): (r: map<string, RegValue>)
    ensures r.Keys == registry.Keys
    ensures forall h :: h in r ==> r[h] == Text(registry[h].registration)
  {
    map h | h in registry :: Text(registry[h].registration)
  }

  /** Updating the cache with an empty registry leaves it as it was. */
  lemma PreloadedNothing(entries: map<string, Option<RegValue>>)
    ensures Preloaded(entries, map[]) == entries
  {
    var none: map<string, RegValue> := map[];
    assert (map k | k in none :: Some(none[k])) == map[];
  }

  /** No cached value is a 4-tuple. */
  predicate NoRows(cache: map<string, Option<RegValue>>) {
    forall k :: k in cache && cache[k].Some? ==> cache[k].value.Text?
  }

  // ---------------------------------------------------------------------------
  // The background lookup task
  // ---------------------------------------------------------------------------

  /** The four values `store_registration` receives. */
  datatype Fields = Fields(registration: Option<string>, aircraftType: Option<string>, manufacturer: Option<string>, icaoType: Option<string>)

  /**
   * `reg, aircraft_type, manufacturer, icao_type = result` as written: a
   * string of exactly four characters unpacks into its characters; any other
   * string raises, which the task swallows.
   */
  function UnpackAsWritten(v: RegValue): (r: Option<Fields>)
    ensures v.Text? ==> (r.Some? <==> |v.s| == 4)
    ensures v.Text? && |v.s| == 4 ==> r.value.registration == Some([v.s[0]])
    ensures v.Row? ==> r == Some(Fields(v.registration, v.aircraftType, v.manufacturer, v.icaoType))
  {
    match v
    case Row(r, a, m, i) => Some(Fields(r, a, m, i))
    case Text(s) => if |s| == 4 then Some(Fields(Some([s[0]]), Some([s[1]]), Some([s[2]]), Some([s[3]]))) else None
  }

  /** The registry after one background task for `hex`, as written: a raise while unpacking or storing is swallowed. */
  function TaskRegistryAsWritten(entries: map<string, Option<RegValue>>, calls: seq<string>, registry: map<string, RegistryRow>,
                                 hex: string, upstream: string -> Reply, hasDb: bool, now: int): map<string, RegistryRow>
  {
    var l := LookupSpec(entries, calls, hex, upstream);
    if RegTruthy(l.answer) && hasDb then
      match UnpackAsWritten(l.answer.value)
      case None => registry
      case Some(f) =>
        if f.registration.Some? then Store(registry, hex, f.registration.value, f.aircraftType, f.manufacturer, f.icaoType, now)
        else registry
    else registry
  }

  /** What the task is meant to store: a looked-up registration as the registration, a 4-tuple field by field. */
  function StoredFields(v: RegValue): (r: Fields)
    ensures v.Text? ==> r.registration == Some(v.s) && r.aircraftType == None && r.manufacturer == None && r.icaoType == None
    ensures v.Row? ==> UnpackAsWritten(v) == Some(r)
  {
    match v
    case Row(r, a, m, i) => Fields(r, a, m, i)
    case Text(s) => Fields(Some(s), None, None, None)
  }

  /** The registry after one background task for `hex` with the unpacking corrected. */
  function TaskRegistry(entries: map<string, Option<RegValue>>, calls: seq<string>, registry: map<string, RegistryRow>,
                        hex: string, upstream: string -> Reply, hasDb: bool, now: int): map<string, RegistryRow>
  {
    var l := LookupSpec(entries, calls, hex, upstream);
    if RegTruthy(l.answer) && hasDb then
      var f := StoredFields(l.answer.value);
      if f.registration.Some? then Store(registry, hex, f.registration.value, f.aircraftType, f.manufacturer, f.icaoType, now)
      else registry
    else registry
  }

  /**
   * `lookup_and_cache`: the lookup, then the answer unpacked into four
   * values as written (see `UnpackAsWritten`) and stored. Errors are
   * swallowed, so a failed unpacking or store leaves the registry as it was.
   */
  method LookupAndCache(hex: string, upstream: string -> Reply, hasDb: bool, now: int, cache: LookupCache, db: Database)
    modifies cache, db
    ensures var l := LookupSpec(old(cache.entries), old(cache.calls), hex, upstream);
      cache.entries == l.entries && cache.calls == l.calls
    ensures db.registry == TaskRegistryAsWritten(old(cache.entries), old(cache.calls), old(db.registry), hex, upstream, hasDb, now)
    ensures db.events == old(db.events)
  {
    var result := cache.LookupRegistration(hex, upstream);
    if RegTruthy(result) && hasDb {
      var unpacked := UnpackAsWritten(result.value);
      if unpacked.Some? {
        var f := unpacked.value;
        var _ := db.StoreRegistration(hex, f.registration, f.aircraftType, f.manufacturer, f.icaoType, now);
      }
    }
  }

  // ---------------------------------------------------------------------------
  // The tracker
  // ---------------------------------------------------------------------------

  class Tracker {
    /** `seen_aircraft`. */
    var seen: map<string, Session>
    /** The keys of `seen_aircraft` in insertion order. */
    var order: seq<string>
    /** The hex ids passed to `lookup_and_cache` tasks, in the order they were created. */
    var spawned: seq<string>

    ghost predicate Valid()
      reads this
    {
      OrderOf(seen, order)
    }

    constructor()
      ensures Valid() && seen == map[] && order == [] && spawned == []
    {
      seen := map[];
      order := [];
      spawned := [];
    }

    /** `poll_once`; the caller swallows the exception an insert raises, so that ends the poll as `Aborted`. */
    method PollOnce(cfg: Feeder, src: Source, now: int, cache: LookupCache, db: Database) returns (outcome: Outcome)
      requires Valid()
      modifies this, db
      ensures Valid()
      ensures db.registry == old(db.registry)
      ensures Acquire(cfg, src).None? ==>
        outcome == Skipped && seen == old(seen) && order == old(order) && spawned == old(spawned) && db.events == old(db.events)
      ensures Acquire(cfg, src).Some? ==>
        var c := Cycle(old(seen), old(order), BatchOf(Acquire(cfg, src).value), cache.entries, now);
        seen == c.seen && order == c.order && spawned == old(spawned) + c.spawned && db.events == old(db.events) + c.events
        && (outcome == Aborted <==> c.aborted) && (outcome == Completed <==> !c.aborted)
    {
      var feed := Acquire(cfg, src);
      if feed.None? {
        return Skipped;
      }
      var batch := BatchOf(feed.value);
      var current, aborted := ScanBatch(batch, now, cache, db);
      if aborted {
        return Aborted;
      }
      Evict(current, now);
      CycleFacts(old(seen), old(order), batch, cache.entries, now);
      return Completed;
    }

    /** The loop of `poll_once` over the batch; an insert that raises ends it. */
    method ScanBatch(batch: seq<Snapshot>, now: int, cache: LookupCache, db: Database) returns (current: set<string>, aborted: bool)
      requires Valid()
      modifies this, db
      ensures Valid()
      ensures var p := Scan(Start(old(seen), old(order)), batch, cache.entries, now);
        seen == p.seen && order == p.order && current == p.current && aborted == p.aborted
        && spawned == old(spawned) + p.spawned && db.events == old(db.events) + p.events
      ensures db.registry == old(db.registry)
    {
      ghost var s0, e0 := spawned, db.events;
      ghost var start := Start(seen, order);
      ghost var logged: seq<EventRow> := [];
      ghost var added: seq<string> := [];
      current := {};
      var i := 0;
      while i < |batch|
        invariant 0 <= i <= |batch|
        invariant db.events == e0 + logged && spawned == s0 + added && db.registry == old(db.registry)
        invariant Scan(start, batch[..i], cache.entries, now) == Progress(seen, order, current, logged, added, false)
      {
        assert batch[..i + 1][..i] == batch[..i];
        ghost var q := Progress(seen, order, current, logged, added, false);
        var ac := batch[i];
        var id := HexOf(ac);
        if id.None? {
          i := i + 1;
          continue;
        }
        var h := id.value;
        current := current + {h};
        var reg := Broadcast(ac);
        if !RegTruthy(reg) {
          var cached := cache.GetCachedRegistration(h);
          if RegTruthy(cached) {
            reg := cached;
          } else {
            spawned := spawned + [h];
            added := added + [h];
          }
        }
        if h !in seen {
          var ok := db.InsertEvent(now, h, reg, ac.rssi, ac.lat, ac.lon);
          if !ok {
            assert Scan(start, batch[..i + 1], cache.entries, now) == Visit(q, ac, cache.entries, now);
            ScanStaysAborted(start, batch, i + 1, cache.entries, now);
            ScanOrder(old(seen), old(order), batch[..i], cache.entries, now);
            return current, true;
          }
          logged := logged + [EventRow(now, h, Bound(reg), ac.rssi, ac.lat, ac.lon)];
          seen := seen[h := Session(reg, ac.rssi, ac.lat, ac.lon, TrackOf(ac), now)];
          order := order + [h];
        } else {
          seen := seen[h := Session(RegOr(reg, seen[h].reg), ac.rssi, ac.lat, ac.lon, TrackOf(ac), now)];
        }
        i := i + 1;
      }
      assert batch[..i] == batch;
      ScanOrder(old(seen), old(order), batch, cache.entries, now);
      return current, false;
    }

    /** The eviction at the end of `poll_once`: the stale hex ids, collected in key order, are deleted one by one. */
    method Evict(current: set<string>, now: int)
      modifies this
      ensures var d := Disappeared(old(order), old(seen), current, now);
        seen == old(seen) - Elements(d, |d|) && order == Without(old(order), Elements(d, |d|))
      ensures spawned == old(spawned)
    {
      var disappeared := Disappeared(order, seen, current, now);
      WithoutNothing(order);
      ElementsNone(disappeared);
      for k := 0 to |disappeared|
        invariant seen == old(seen) - Elements(disappeared, k)
        invariant order == Without(old(order), Elements(disappeared, k))
        invariant spawned == old(spawned)
      {
        ElementsStep(disappeared, k);
        WithoutStep(old(order), Elements(disappeared, k), disappeared[k]);
        DropStep(old(seen), Elements(disappeared, k), disappeared[k]);
        seen := seen - {disappeared[k]};
        order := Without(order, {disappeared[k]});
      }
    }

    /** One round of `periodic_lookup_refresher`: a lookup task for each of the first 20 unresolved hex ids. */
    method RefreshOnce()
      modifies this
      ensures spawned == old(spawned) + Selection(order, seen)
      ensures seen == old(seen) && order == old(order)
    {
      var unknown := Unresolved(order, seen);
      var n := if |unknown| < 20 then |unknown| else 20;
      for k := 0 to n
        invariant spawned == old(spawned) + unknown[..k]
        invariant seen == old(seen) && order == old(order)
      {
        assert unknown[..k + 1] == unknown[..k] + [unknown[k]];
        spawned := spawned + [unknown[k]];
      }
      assert unknown[..n] == Selection(order, seen);
    }

    /** The start-up load in `run_poller`: the registry's 4-tuples into the lookup cache, then the recent hex ids into `seen_aircraft`. */
    method Startup(db: Database, cache: LookupCache, recent: seq<RecentRow>)
      requires Valid()
      modifies this, cache
      ensures Valid()
      ensures cache.entries == Preloaded(old(cache.entries), RegistryCacheAsWritten(db.registry)) && cache.calls == old(cache.calls)
      ensures Tracked(seen, order) == Preload(Tracked(old(seen), old(order)), recent)
      ensures spawned == old(spawned)
    {
      PreloadedNothing(cache.entries);
      var registry := RegistryCacheAsWritten(db.registry);
      if registry != map[] {
        cache.LoadCacheFromDb(registry);
      }
      PreloadRecent(recent);
    }

    /** Placeholder sessions for the hex ids with an event in the last 30 minutes. */
    method PreloadRecent(recent: seq<RecentRow>)
      requires Valid()
      modifies this
      ensures Valid()
      ensures Tracked(seen, order) == Preload(Tracked(old(seen), old(order)), recent)
      ensures spawned == old(spawned)
    {
      ghost var t0 := Tracked(seen, order);
      for k := 0 to |recent|
        invariant Tracked(seen, order) == Preload(t0, recent[..k])
        invariant spawned == old(spawned)
      {
        assert recent[..k + 1][..k] == recent[..k];
        var h := Upper(recent[k].hex);
        if h !in seen {
          order := order + [h];
        }
        seen := seen[h := Placeholder(recent[k])];
      }
      assert recent[..|recent|] == recent;
      PreloadOrder(t0, recent);
    }
  }

  /** The refresher's batch: at most 20 of the unresolved hex ids, the first ones in key order. */
  function Selection(order: seq<string>, seen: map<string, Session>): seq<string> {
    var u := Unresolved(order, seen);
    if |u| < 20 then u else u[..20]
  }

  // ---------------------------------------------------------------------------
  // Properties of one poll
  // ---------------------------------------------------------------------------

  /** A snapshot with neither `hex` nor `icao` changes nothing. */
  lemma VisitSkipsHexless(p: Progress, ac: Snapshot, cache: map<string, Option<RegValue>>, now: int)
    requires !Truthy(ac.hex) && !Truthy(ac.icao)
    ensures Visit(p, ac, cache, now) == p
  {
  }

  /** A first sighting logs exactly one event and opens a session stamped `now`. */
  lemma VisitArrival(p: Progress, ac: Snapshot, cache: map<string, Option<RegValue>>, now: int)
    requires !p.aborted && HexOf(ac).Some? && HexOf(ac).value !in p.seen
    requires Bindable(Resolved(ac, HexOf(ac).value, cache))
    ensures var h := HexOf(ac).value; var v := Visit(p, ac, cache, now);
      !v.aborted
      && |v.events| == |p.events| + 1 && v.events[..|p.events|] == p.events
      && v.events[|p.events|].hex == h && v.events[|p.events|].observedAt == now
      && v.events[|p.events|].registration == Bound(Resolved(ac, h, cache))
      && v.seen.Keys == p.seen.Keys + {h} && v.seen[h].lastSeen == now && v.seen[h].reg == Resolved(ac, h, cache)
      && v.order == p.order + [h]
  {
  }

  /** A tracked hex id logs no event; its fields are overwritten, its time becomes `now` and its registration is never cleared. */
  lemma VisitTracked(p: Progress, ac: Snapshot, cache: map<string, Option<RegValue>>, now: int)
    requires HexOf(ac).Some? && HexOf(ac).value in p.seen
    ensures var h := HexOf(ac).value; var v := Visit(p, ac, cache, now);
      v.events == p.events && v.order == p.order && v.aborted == p.aborted && v.seen.Keys == p.seen.Keys
      && v.seen[h].rssi == ac.rssi && v.seen[h].lat == ac.lat && v.seen[h].lon == ac.lon
      && v.seen[h].track == TrackOf(ac) && v.seen[h].lastSeen == now
      && (RegTruthy(p.seen[h].reg) ==> RegTruthy(v.seen[h].reg))
      && (forall k :: k in p.seen && k != h ==> v.seen[k] == p.seen[k])
  {
  }

  lemma {:induction false} ScanStaysAborted(p: Progress, batch: seq<Snapshot>, k: nat, cache: map<string, Option<RegValue>>, now: int)
    requires k <= |batch| && Scan(p, batch[..k], cache, now).aborted
    ensures Scan(p, batch, cache, now) == Scan(p, batch[..k], cache, now)
    decreases |batch|
  {
    if k < |batch| {
      assert batch[..|batch| - 1][..k] == batch[..k];
      ScanStaysAborted(p, batch[..|batch| - 1], k, cache, now);
    } else {
      assert batch[..k] == batch;
    }
  }

  function Hexes(events: seq<EventRow>): seq<string> {
    seq(|events|, i requires 0 <= i < |events| => events[i].hex)
  }

  lemma HexesAppend(events: seq<EventRow>, more: seq<EventRow>)
    requires |more| == |events| + 1 && more[..|events|] == events
    ensures Hexes(more) == Hexes(events) + [more[|events|].hex]
  {
    assert forall i :: 0 <= i < |events| ==> more[i] == events[i];
  }

  /** One iteration keeps the key order exact; an arrival appends its hex id to the order and its event to the log together. */
  lemma VisitOrder(q: Progress, ac: Snapshot, cache: map<string, Option<RegValue>>, now: int)
    requires OrderOf(q.seen, q.order)
    ensures var v := Visit(q, ac, cache, now);
      OrderOf(v.seen, v.order)
      && ((v.order == q.order && v.events == q.events)
          || (|v.events| == |q.events| + 1 && v.events[..|q.events|] == q.events
              && v.order == q.order + [v.events[|q.events|].hex]))
  {
    var v := Visit(q, ac, cache, now);
    if HexOf(ac).Some? {
      var h := HexOf(ac).value;
      if h !in q.seen && Bindable(Resolved(ac, h, cache)) {
        assert v.events[..|q.events|] == q.events;
        assert forall i :: 0 <= i < |q.order| ==> v.order[i] == q.order[i];
      }
    }
  }

  /** One iteration removes no key, clears no registration and touches only the snapshot's own hex id. */
  lemma VisitKeeps(q: Progress, ac: Snapshot, cache: map<string, Option<RegValue>>, now: int)
    ensures var v := Visit(q, ac, cache, now);
      q.seen.Keys <= v.seen.Keys && q.current <= v.current
      && (forall h :: h in q.seen ==> RegTruthy(v.seen[h].reg) || v.seen[h].reg == q.seen[h].reg)
      && (forall h :: h in v.seen && h !in v.current ==> h in q.seen && v.seen[h] == q.seen[h])
      && (forall i :: |q.events| <= i < |v.events| ==> v.events[i].observedAt == now)
      && |q.events| <= |v.events| && v.events[..|q.events|] == q.events
      && (!v.aborted ==> HexOf(ac).Some? ==> HexOf(ac).value in v.current && HexOf(ac).value in v.seen && v.seen[HexOf(ac).value].lastSeen == now)
      && (forall h :: h in q.seen && (HexOf(ac).None? || h != HexOf(ac).value) ==> v.seen[h] == q.seen[h])
      && (forall h :: h in v.current ==> h in q.current || (HexOf(ac).Some? && h == HexOf(ac).value))
  {
  }

  /** The loop keeps the key order exact, and the keys it appends are the hex ids of its events, in order. */
  lemma {:induction false} ScanOrder(seen: map<string, Session>, order: seq<string>, batch: seq<Snapshot>,
                                     cache: map<string, Option<RegValue>>, now: int)
    requires OrderOf(seen, order)
    ensures var p := Scan(Start(seen, order), batch, cache, now);
      OrderOf(p.seen, p.order) && p.order == order + Hexes(p.events)
    decreases |batch|
  {
    if batch != [] {
      var pre := batch[..|batch| - 1];
      ScanOrder(seen, order, pre, cache, now);
      var q := Scan(Start(seen, order), pre, cache, now);
      if !q.aborted {
        var v := Visit(q, batch[|batch| - 1], cache, now);
        VisitOrder(q, batch[|batch| - 1], cache, now);
        if v.events != q.events {
          HexesAppend(q.events, v.events);
        }
      }
    }
  }

  /** Over the loop no key is removed, no registration cleared, and hex ids outside the batch keep their sessions. */
  lemma {:induction false} ScanKeeps(seen: map<string, Session>, order: seq<string>, batch: seq<Snapshot>,
                                     cache: map<string, Option<RegValue>>, now: int)
    ensures var p := Scan(Start(seen, order), batch, cache, now);
      seen.Keys <= p.seen.Keys
      && (forall h :: h in seen ==> RegTruthy(p.seen[h].reg) || p.seen[h].reg == seen[h].reg)
      && (forall h :: h in p.seen && h !in p.current ==> h in seen && p.seen[h] == seen[h])
      && (forall i :: 0 <= i < |p.events| ==> p.events[i].observedAt == now)
    decreases |batch|
  {
    if batch != [] {
      var pre := batch[..|batch| - 1];
      ScanKeeps(seen, order, pre, cache, now);
      var q := Scan(Start(seen, order), pre, cache, now);
      if !q.aborted {
        VisitKeeps(q, batch[|batch| - 1], cache, now);
        var v := Visit(q, batch[|batch| - 1], cache, now);
        forall i | 0 <= i < |v.events| ensures v.events[i].observedAt == now {
          if i < |q.events| {
            assert v.events[i] == v.events[..|q.events|][i];
          }
        }
      }
    }
  }

  /** After a loop that ran to the end, every hex id of the batch is tracked and stamped `now`. */
  lemma {:induction false} ScanStamps(seen: map<string, Session>, order: seq<string>, batch: seq<Snapshot>,
                                      cache: map<string, Option<RegValue>>, now: int)
    ensures var p := Scan(Start(seen, order), batch, cache, now);
      !p.aborted ==>
        (forall h :: h in p.current ==> h in p.seen && p.seen[h].lastSeen == now)
        && (forall i :: 0 <= i < |batch| && HexOf(batch[i]).Some? ==> HexOf(batch[i]).value in p.current)
    decreases |batch|
  {
    if batch != [] {
      var pre := batch[..|batch| - 1];
      ScanStamps(seen, order, pre, cache, now);
      var q := Scan(Start(seen, order), pre, cache, now);
      if !q.aborted {
        var ac := batch[|batch| - 1];
        VisitKeeps(q, ac, cache, now);
        var v := Visit(q, ac, cache, now);
        if !v.aborted {
          forall h | h in v.current
            ensures h in v.seen && v.seen[h].lastSeen == now
          {
            if HexOf(ac).None? || h != HexOf(ac).value {
              assert h in q.current;
              assert h in q.seen && q.seen[h].lastSeen == now;
              assert v.seen[h] == q.seen[h];
            }
          }
          forall i | 0 <= i < |batch| && HexOf(batch[i]).Some?
            ensures HexOf(batch[i]).value in v.current
          {
            if i < |pre| {
              assert batch[i] == pre[i];
            }
          }
        }
      }
    }
  }

  /** What the loop over a batch keeps and establishes. */
  lemma ScanFacts(seen: map<string, Session>, order: seq<string>, batch: seq<Snapshot>,
                  cache: map<string, Option<RegValue>>, now: int)
    requires OrderOf(seen, order)
    ensures var p := Scan(Start(seen, order), batch, cache, now);
      OrderOf(p.seen, p.order)
      && p.order == order + Hexes(p.events)
      && seen.Keys <= p.seen.Keys
      && (forall h :: h in seen ==> RegTruthy(p.seen[h].reg) || p.seen[h].reg == seen[h].reg)
      && (forall h :: h in p.seen && h !in p.current ==> h in seen && p.seen[h] == seen[h])
      && (!p.aborted ==> forall h :: h in p.current ==> h in p.seen && p.seen[h].lastSeen == now)
      && (!p.aborted ==> forall i :: 0 <= i < |batch| && HexOf(batch[i]).Some? ==> HexOf(batch[i]).value in p.current)
  {
    ScanOrder(seen, order, batch, cache, now);
    ScanKeeps(seen, order, batch, cache, now);
    ScanStamps(seen, order, batch, cache, now);
  }

  /** Keys appended behind an exact order, with no repeats, are new, distinct, and are all the new keys. */
  lemma AppendedKeys(seen: map<string, Session>, order: seq<string>, seen2: map<string, Session>, events: seq<EventRow>)
    requires OrderOf(seen, order) && OrderOf(seen2, order + Hexes(events))
    ensures forall i :: 0 <= i < |events| ==> events[i].hex !in seen && events[i].hex in seen2
    ensures forall i, j :: 0 <= i < j < |events| ==> events[i].hex != events[j].hex
    ensures forall h :: h in seen2 && h !in seen ==> exists i :: 0 <= i < |events| && events[i].hex == h
  {
    var o2 := order + Hexes(events);
    forall i | 0 <= i < |events|
      ensures events[i].hex !in seen && events[i].hex in seen2
    {
      assert o2[|order| + i] == events[i].hex;
      forall j | 0 <= j < |order| ensures order[j] != events[i].hex {
        assert o2[j] == order[j];
      }
    }
    forall i, j | 0 <= i < j < |events|
      ensures events[i].hex != events[j].hex
    {
      assert o2[|order| + i] == events[i].hex;
      assert o2[|order| + j] == events[j].hex;
    }
    forall h | h in seen2 && h !in seen
      ensures exists i :: 0 <= i < |events| && events[i].hex == h
    {
      var k :| 0 <= k < |o2| && o2[k] == h;
      if k >= |order| {
        assert events[k - |order|].hex == h;
      }
    }
  }

  /** Every event of a poll is a first sighting: its hex id was not tracked, no hex id is logged twice, and every new hex id is logged. */
  lemma ArrivalsLogged(seen: map<string, Session>, order: seq<string>, batch: seq<Snapshot>,
                       cache: map<string, Option<RegValue>>, now: int)
    requires OrderOf(seen, order)
    ensures var p := Scan(Start(seen, order), batch, cache, now);
      (forall i :: 0 <= i < |p.events| ==> p.events[i].hex !in seen && p.events[i].hex in p.seen && p.events[i].observedAt == now)
      && (forall i, j :: 0 <= i < j < |p.events| ==> p.events[i].hex != p.events[j].hex)
      && (forall h :: h in p.seen && h !in seen ==> exists i :: 0 <= i < |p.events| && p.events[i].hex == h)
  {
    ScanOrder(seen, order, batch, cache, now);
    ScanKeeps(seen, order, batch, cache, now);
    var p := Scan(Start(seen, order), batch, cache, now);
    AppendedKeys(seen, order, p.seen, p.events);
  }

  /** Eviction removes exactly the stale hex ids; every hex id of the batch survives and kept sessions are unchanged. */
  lemma CycleFacts(seen: map<string, Session>, order: seq<string>, batch: seq<Snapshot>,
                   cache: map<string, Option<RegValue>>, now: int)
    requires OrderOf(seen, order)
    ensures var p := Scan(Start(seen, order), batch, cache, now);
      var c := Cycle(seen, order, batch, cache, now);
      OrderOf(c.seen, c.order) && c.events == p.events && c.spawned == p.spawned && c.aborted == p.aborted
      && (p.aborted ==> c == p)
      && (!p.aborted ==>
            (forall h :: h in c.seen <==> h in p.seen && !Stale(p.seen, p.current, now, h))
            && (forall h :: h in c.seen ==> c.seen[h] == p.seen[h])
            && (forall i :: 0 <= i < |batch| && HexOf(batch[i]).Some? ==> HexOf(batch[i]).value in c.seen))
  {
    ScanFacts(seen, order, batch, cache, now);
    var p := Scan(Start(seen, order), batch, cache, now);
    if !p.aborted {
      var d := Disappeared(p.order, p.seen, p.current, now);
      assert forall h :: h in Elements(d, |d|) <==> h in d;
    }
  }

  /** Over a poll the registration of a tracked hex id is either kept or replaced by a truthy one. */
  lemma RegistrationNeverCleared(seen: map<string, Session>, order: seq<string>, batch: seq<Snapshot>,
                                 cache: map<string, Option<RegValue>>, now: int, h: string)
    requires OrderOf(seen, order) && h in seen
    requires h in Cycle(seen, order, batch, cache, now).seen
    ensures var c := Cycle(seen, order, batch, cache, now);
      RegTruthy(c.seen[h].reg) || c.seen[h].reg == seen[h].reg
  {
    ScanFacts(seen, order, batch, cache, now);
    CycleFacts(seen, order, batch, cache, now);
  }

  /** An insert raises only for a new hex id whose registration comes from a cached 4-tuple. */
  lemma {:induction false} ScanWithoutRowsCompletes(p: Progress, batch: seq<Snapshot>, cache: map<string, Option<RegValue>>, now: int)
    requires !p.aborted && NoRows(cache)
    ensures !Scan(p, batch, cache, now).aborted
    decreases |batch|
  {
    if batch != [] {
      ScanWithoutRowsCompletes(p, batch[..|batch| - 1], cache, now);
    }
  }

  /** A lookup stores strings and negative entries only, so it keeps a cache free of 4-tuples. */
  lemma LookupKeepsNoRows(entries: map<string, Option<RegValue>>, calls: seq<string>, hex: string, upstream: string -> Reply)
    requires NoRows(entries)
    ensures NoRows(LookupSpec(entries, calls, hex, upstream).entries)
  {
  }

  // ---------------------------------------------------------------------------
  // Properties of the refresher and the preload
  // ---------------------------------------------------------------------------

  /** At most 20 hex ids, all tracked and unresolved, the first unresolved ones in key order, none twice. */
  lemma SelectionFacts(order: seq<string>, seen: map<string, Session>)
    requires OrderOf(seen, order)
    ensures var s := Selection(order, seen); var u := Unresolved(order, seen);
      |s| <= 20 && s == u[..|s|] && (|s| == 20 || s == u) && NoDup(s)
      && (forall h :: h in s ==> h in seen && !RegTruthy(seen[h].reg))
      && (forall h :: h in seen && !RegTruthy(seen[h].reg) ==> h in u)
  {
    var u := Unresolved(order, seen);
    var s := Selection(order, seen);
    assert forall i :: 0 <= i < |s| ==> s[i] == u[i];
  }

  lemma PlaceOrder(t: Tracked, row: RecentRow)
    requires OrderOf(t.seen, t.order)
    ensures OrderOf(Place(t, row).seen, Place(t, row).order)
  {
    var u := Place(t, row);
    if Upper(row.hex) !in t.seen {
      assert forall i :: 0 <= i < |t.order| ==> u.order[i] == t.order[i];
    }
  }

  lemma RowKeysStep(rows: seq<RecentRow>)
    requires rows != []
    ensures RowKeys(rows) == RowKeys(rows[..|rows| - 1]) + {Upper(rows[|rows| - 1].hex)}
  {
    var pre := rows[..|rows| - 1];
    forall h | h in RowKeys(rows) ensures h in RowKeys(pre) + {Upper(rows[|rows| - 1].hex)} {
      var k :| 0 <= k < |rows| && Upper(rows[k].hex) == h;
      if k < |pre| {
        assert rows[k] == pre[k];
      }
    }
    forall h | h in RowKeys(pre) ensures h in RowKeys(rows) {
      var k :| 0 <= k < |pre| && Upper(pre[k].hex) == h;
      assert rows[k] == pre[k];
    }
  }

  /** The preload keeps the key order exact and adds exactly the rows' upper-cased hex ids. */
  lemma {:induction false} PreloadOrder(t: Tracked, rows: seq<RecentRow>)
    requires OrderOf(t.seen, t.order)
    ensures var u := Preload(t, rows);
      OrderOf(u.seen, u.order) && u.seen.Keys == t.seen.Keys + RowKeys(rows)
    decreases |rows|
  {
    if rows != [] {
      var pre := rows[..|rows| - 1];
      var q := Preload(t, pre);
      PreloadOrder(t, pre);
      PlaceOrder(q, rows[|rows| - 1]);
      RowKeysStep(rows);
      assert Place(q, rows[|rows| - 1]).seen.Keys == q.seen.Keys + {Upper(rows[|rows| - 1].hex)};
    }
  }

  /** Hex ids without a row keep their sessions through the preload. */
  lemma {:induction false} PreloadUntouched(t: Tracked, rows: seq<RecentRow>)
    ensures var u := Preload(t, rows);
      forall h :: h in t.seen && h !in RowKeys(rows) ==> h in u.seen && u.seen[h] == t.seen[h]
    decreases |rows|
  {
    if rows != [] {
      var pre := rows[..|rows| - 1];
      var last := rows[|rows| - 1];
      PreloadUntouched(t, pre);
      var q := Preload(t, pre);
      forall h | h in t.seen && h !in RowKeys(rows)
        ensures h in Place(q, last).seen && Place(q, last).seen[h] == t.seen[h]
      {
        assert Upper(last.hex) in RowKeys(rows);
        forall k | 0 <= k < |pre| ensures Upper(pre[k].hex) != h {
          assert pre[k] == rows[k];
        }
        assert h !in RowKeys(pre);
      }
    }
  }

  /** A hex id's session after the preload is the placeholder of the last row for it. */
  lemma {:induction false} PreloadLastRow(t: Tracked, rows: seq<RecentRow>)
    ensures var u := Preload(t, rows);
      forall k :: 0 <= k < |rows| && (forall j :: k < j < |rows| ==> Upper(rows[j].hex) != Upper(rows[k].hex)) ==>
        Upper(rows[k].hex) in u.seen && u.seen[Upper(rows[k].hex)] == Placeholder(rows[k])
    decreases |rows|
  {
    if rows != [] {
      var pre := rows[..|rows| - 1];
      var last := |rows| - 1;
      PreloadLastRow(t, pre);
      var q := Preload(t, pre);
      forall k | 0 <= k < |rows| && (forall j :: k < j < |rows| ==> Upper(rows[j].hex) != Upper(rows[k].hex))
        ensures Upper(rows[k].hex) in Place(q, rows[last]).seen && Place(q, rows[last]).seen[Upper(rows[k].hex)] == Placeholder(rows[k])
      {
        if k < last {
          assert Upper(rows[last].hex) != Upper(rows[k].hex);
          assert pre[k] == rows[k];
          forall j | k < j < |pre| ensures Upper(pre[j].hex) != Upper(pre[k].hex) {
            assert pre[j] == rows[j];
          }
          assert Upper(rows[k].hex) in q.seen && q.seen[Upper(rows[k].hex)] == Placeholder(rows[k]);
        }
      }
    }
  }

  /** After the preload, a recent hex id is tracked, so its next sighting takes the update path and logs no event. */
  lemma PreloadedHexLogsNoEvent(t: Tracked, rows: seq<RecentRow>, k: nat, batch: seq<Snapshot>,
                                cache: map<string, Option<RegValue>>, now: int)
    requires OrderOf(t.seen, t.order) && k < |rows|
    ensures var u := Preload(t, rows);
      var p := Scan(Start(u.seen, u.order), batch, cache, now);
      Upper(rows[k].hex) in u.seen
      && (forall i :: 0 <= i < |p.events| ==> p.events[i].hex != Upper(rows[k].hex))
  {
    PreloadOrder(t, rows);
    var u := Preload(t, rows);
    assert Upper(rows[k].hex) in RowKeys(rows);
    ArrivalsLogged(u.seen, u.order, batch, cache, now);
  }

  // ---------------------------------------------------------------------------
  // Findings
  // ---------------------------------------------------------------------------

  /** As written, a looked-up string of any length but four raises on unpacking, so the registry is unchanged. */
  lemma TaskSkipsOtherLengths(entries: map<string, Option<RegValue>>, calls: seq<string>, registry: map<string, RegistryRow>,
                              hex: string, upstream: string -> Reply, now: int)
    requires var v := LookupSpec(entries, calls, hex, upstream).answer; v.Some? && v.value.Text? && |v.value.s| != 4
    ensures TaskRegistryAsWritten(entries, calls, registry, hex, upstream, true, now) == registry
  {
    assert UnpackAsWritten(LookupSpec(entries, calls, hex, upstream).answer.value) == None;
  }

  /** As written, a looked-up string of four characters is stored split into them: the first is the registration. */
  lemma TaskSplitsFourCharacters(entries: map<string, Option<RegValue>>, calls: seq<string>, registry: map<string, RegistryRow>,
                                 hex: string, upstream: string -> Reply, now: int)
    requires var v := LookupSpec(entries, calls, hex, upstream).answer; v.Some? && v.value.Text? && |v.value.s| == 4
    ensures var s := LookupSpec(entries, calls, hex, upstream).answer.value.s;
      TaskRegistryAsWritten(entries, calls, registry, hex, upstream, true, now)
        == Store(registry, hex, [s[0]], Some([s[1]]), Some([s[2]]), Some([s[3]]), now)
  {
    var s := LookupSpec(entries, calls, hex, upstream).answer.value.s;
    assert UnpackAsWritten(Text(s)) == Some(Fields(Some([s[0]]), Some([s[1]]), Some([s[2]]), Some([s[3]])));
  }

  /**
   * As written, a looked-up string is stored only when it has exactly four
   * characters, and then split into them: its first character becomes the
   * registration. Any other length raises, and the registry is unchanged.
   */
  lemma TaskUnpacksLookedUpString(entries: map<string, Option<RegValue>>, calls: seq<string>, registry: map<string, RegistryRow>,
                                  hex: string, upstream: string -> Reply, now: int)
    requires var l := LookupSpec(entries, calls, hex, upstream); l.answer.Some? && l.answer.value.Text?
    ensures var s := LookupSpec(entries, calls, hex, upstream).answer.value.s;
      var r := TaskRegistryAsWritten(entries, calls, registry, hex, upstream, true, now);
      (|s| != 4 ==> r == registry)
      && (|s| == 4 ==>
            r == Store(registry, hex, [s[0]], Some([s[1]]), Some([s[2]]), Some([s[3]]), now)
            && RegistrationFor(r, hex) == Some(Upper([s[0]])))
  {
    var s := LookupSpec(entries, calls, hex, upstream).answer.value.s;
    if |s| == 4 {
      TaskSplitsFourCharacters(entries, calls, registry, hex, upstream, now);
      StoreThenGet(registry, hex, [s[0]], Some([s[1]]), Some([s[2]]), Some([s[3]]), now, hex);
    } else {
      TaskSkipsOtherLengths(entries, calls, registry, hex, upstream, now);
    }
  }

  /** A cached 4-tuple unpacks field by field, so on it the task as written and the corrected task store the same row. */
  lemma TaskStoresCachedRow(entries: map<string, Option<RegValue>>, calls: seq<string>, registry: map<string, RegistryRow>,
                            hex: string, upstream: string -> Reply, hasDb: bool, now: int)
    requires var l := LookupSpec(entries, calls, hex, upstream); l.answer.Some? && l.answer.value.Row?
    ensures var v := LookupSpec(entries, calls, hex, upstream).answer.value;
      var r := TaskRegistryAsWritten(entries, calls, registry, hex, upstream, hasDb, now);
      r == TaskRegistry(entries, calls, registry, hex, upstream, hasDb, now)
      && (hasDb && v.registration.Some? ==> r == Store(registry, hex, v.registration.value, v.aircraftType, v.manufacturer, v.icaoType, now))
      && (!hasDb || v.registration.None? ==> r == registry)
  {
  }

  /** With the unpacking corrected, the registry reads back the looked-up registration. */
  lemma TaskStoresLookedUpRegistration(entries: map<string, Option<RegValue>>, calls: seq<string>, registry: map<string, RegistryRow>,
                                       hex: string, upstream: string -> Reply, now: int)
    requires Upper(hex) !in entries
    requires var l := LookupSpec(entries, calls, hex, upstream); RegTruthy(l.answer)
    ensures var l := LookupSpec(entries, calls, hex, upstream);
      l.answer.value.Text?
      && RegistrationFor(TaskRegistry(entries, calls, registry, hex, upstream, true, now), hex) == Some(l.answer.value.s)
  {
    LookupPositiveIsNormalized(entries, calls, hex, upstream);
    var s := LookupSpec(entries, calls, hex, upstream).answer.value.s;
    UpperOfNoLower(s);
  }

  /** As written, a new hex id without a broadcast registration whose cache entry is a 4-tuple ends the poll before it is tracked. */
  lemma RowInCacheAbortsArrival(p: Progress, ac: Snapshot, cache: map<string, Option<RegValue>>, now: int)
    requires !p.aborted && HexOf(ac).Some? && HexOf(ac).value !in p.seen
    requires !RegTruthy(Broadcast(ac)) && CacheGet(cache, HexOf(ac).value).Some? && CacheGet(cache, HexOf(ac).value).value.Row?
    ensures var v := Visit(p, ac, cache, now);
      v.aborted && v.seen == p.seen && v.order == p.order && v.events == p.events
  {
  }

  /** As written, after the start-up load a new hex id with a registry row and no broadcast registration ends the poll before it is tracked. */
  lemma StartupLoadAbortsArrival(entries: map<string, Option<RegValue>>, registry: map<string, RegistryRow>,
                                 p: Progress, ac: Snapshot, now: int)
    requires !p.aborted && HexOf(ac).Some? && HexOf(ac).value !in p.seen && HexOf(ac).value in registry
    requires !RegTruthy(Broadcast(ac))
    ensures var v := Visit(p, ac, Preloaded(entries, RegistryCacheAsWritten(registry)), now);
      v.aborted && v.seen == p.seen && v.order == p.order && v.events == p.events
  {
    UpperOfNoLower(HexOf(ac).value);
    RowInCacheAbortsArrival(p, ac, Preloaded(entries, RegistryCacheAsWritten(registry)), now);
  }

  /** As written, the start-up load makes every poll that sees a registered but untracked, silent aircraft end early. */
  lemma PreloadedRowAbortsPoll()
    ensures var registry := map["ABC123" := RegistryRow("N12345", Some("737-8H4"), None, None, Some("Boeing 737-800"), 0)];
      var cache := Preloaded(map[], RegistryCacheAsWritten(registry));
      var ac := Snapshot(Some("abc123"), None, None, None, None, None, None, None, None);
      var c := Cycle(map[], [], [ac], cache, 1000);
      c.aborted && c.seen == map[] && c.events == []
  {
    var registry := map["ABC123" := RegistryRow("N12345", Some("737-8H4"), None, None, Some("Boeing 737-800"), 0)];
    var cache := Preloaded(map[], RegistryCacheAsWritten(registry));
    var ac := Snapshot(Some("abc123"), None, None, None, None, None, None, None, None);
    assert Upper("abc123") == "ABC123";
    assert "ABC123" in registry;
    assert RegistryCacheAsWritten(registry)["ABC123"] == Row(Some("N12345"), Some("737-8H4"), None, None);
    assert Upper("ABC123") == "ABC123";
    assert CacheGet(cache, "ABC123") == Some(Row(Some("N12345"), Some("737-8H4"), None, None));
    assert [ac][..0] == [];
    RowInCacheAbortsArrival(Start(map[], []), ac, cache, 1000);
  }

  /** With the registry's registrations in the cache instead, no poll ends early. */
  lemma CorrectedPreloadNeverAborts(entries: map<string, Option<RegValue>>, registry: map<string, RegistryRow>,
                                    seen: map<string, Session>, order: seq<string>, batch: seq<Snapshot>, now: int)
    requires NoRows(entries)
    ensures NoRows(Preloaded(entries, RegistryCache(registry)))
    ensures !Cycle(seen, order, batch, Preloaded(entries, RegistryCache(registry)), now).aborted
  {
    ScanWithoutRowsCompletes(Start(seen, order), batch, Preloaded(entries, RegistryCache(registry)), now);
  }
}
