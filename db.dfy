/**
 * `db.py`: the two tables the tracker writes, as a map and a sequence.
 *
 * `aircraft_registry` has the hex id as primary key, so it is a map from hex
 * id to row; `events` only ever grows, so it is a sequence of rows in insert
 * order. The SQL text and the connection handling are not modelled.
 */
module Db {
  import opened Text
  import opened AircraftDb
  import opened TypeNormalizer

  /** One `aircraft_registry` row, without its key. */
  datatype RegistryRow = RegistryRow(
    registration: string,
    aircraftType: Option<string>,
    manufacturer: Option<string>,
    icaoType: Option<string>,
    normalizedType: Option<string>,
    lastUpdated: int)

  /** One `events` row, without its autoincrement id. */
  datatype EventRow = EventRow(
    observedAt: int,
    hex: string,
    registration: Option<string>,
    rssi: Option<real>,
    lat: Option<real>,
    lon: Option<real>)

  /** The cached display type: none without type data, and none when the normalizer answers "Unknown". */
  function NormalizedType(mfr: Option<string>, atype: Option<string>, icao: Option<string>): Option<string> {
    if Truthy(mfr) || Truthy(atype) || Truthy(icao) then
      var n := NormalizeAircraftType(mfr, atype, icao);
      if n == "Unknown" then None else Some(n)
    else None
  }

  /** The registry after `store_registration`: an upsert of the row under the upper-cased hex id. */
  function Store(registry: map<string, RegistryRow>, hex: string, registration: string,
                 atype: Option<string>, mfr: Option<string>, icao: Option<string>, now: int): map<string, RegistryRow>
  {
    registry[Upper(hex) := RegistryRow(Upper(registration), atype, mfr, icao, NormalizedType(mfr, atype, icao), now)]
  }

  /** `get_registration_for_hex`: the row's registration under the upper-cased hex id, if there is a row. */
  function RegistrationFor(registry: map<string, RegistryRow>, hex: string): (r: Option<string>)
    ensures r.Some? <==> Upper(hex) in registry
  {
    if Upper(hex) in registry then Some(registry[Upper(hex)].registration) else None
  }

  /** A registration value SQLite can bind: nothing, or a string (a tuple cannot be bound). */
  predicate Bindable(reg: Option<RegValue>) {
    reg.None? || reg.value.Text?
  }

  /** The bound column value of a bindable registration. */
  function Bound(reg: Option<RegValue>): Option<string>
    requires Bindable(reg)
  {
    if reg.Some? then Some(reg.value.s) else None
  }

  class Database {
    /** `aircraft_registry`, keyed by hex id. */
    var registry: map<string, RegistryRow>
    /** `events`, in insert order. */
    var events: seq<EventRow>

    constructor()
      ensures registry == map[] && events == []
    {
      registry := map[];
      events := [];
    }

    /**
     * `insert_event`: appends one row with the event's six fields. A
     * registration SQLite cannot bind raises before anything is written.
     */
    method InsertEvent(observedAt: int, hex: string, registration: Option<RegValue>,
                       rssi: Option<real>, lat: Option<real>, lon: Option<real>) returns (ok: bool)
      modifies this
      ensures ok <==> Bindable(registration)
      ensures ok ==> events == old(events) + [EventRow(observedAt, hex, Bound(registration), rssi, lat, lon)]
      ensures !ok ==> events == old(events)
      ensures registry == old(registry)
    {
      if !Bindable(registration) {
        return false;
      }
      events := events + [EventRow(observedAt, hex, Bound(registration), rssi, lat, lon)];
      return true;
    }

    /**
     * `store_registration`, with `now` for the clock. A missing registration
     * raises on `upper()` before the statement runs.
     */
    method StoreRegistration(hex: string, registration: Option<string>,
                             atype: Option<string>, mfr: Option<string>, icao: Option<string>, now: int) returns (ok: bool)
      modifies this
      ensures ok <==> registration.Some?
      ensures ok ==> registry == Store(old(registry), hex, registration.value, atype, mfr, icao, now)
      ensures !ok ==> registry == old(registry)
      ensures events == old(events)
    {
      if registration.None? {
        return false;
      }
      var normalized := NormalizedType(mfr, atype, icao);
      registry := registry[Upper(hex) := RegistryRow(Upper(registration.value), atype, mfr, icao, normalized, now)];
      return true;
    }

    /** `get_registration_for_hex`. */
    function GetRegistrationForHex(hex: string): Option<string>
      reads this
    {
      RegistrationFor(registry, hex)
    }
  }

  // ---------------------------------------------------------------------------
  // Properties of the stored data
  // ---------------------------------------------------------------------------

  /** Without manufacturer and type fields nothing is normalized. */
  lemma NormalizedAbsent(mfr: Option<string>, atype: Option<string>, icao: Option<string>)
    requires !Truthy(mfr) && !Truthy(atype) && !Truthy(icao)
    ensures NormalizedType(mfr, atype, icao) == None
  {
  }

  /** With some field present, the cached type is the normalizer's answer unless that answer is "Unknown". */
  lemma NormalizedIsNormalizer(mfr: Option<string>, atype: Option<string>, icao: Option<string>)
    requires Truthy(mfr) || Truthy(atype) || Truthy(icao)
    ensures NormalizeAircraftType(mfr, atype, icao) == "Unknown" ==> NormalizedType(mfr, atype, icao) == None
    ensures NormalizeAircraftType(mfr, atype, icao) != "Unknown" ==> NormalizedType(mfr, atype, icao) == Some(NormalizeAircraftType(mfr, atype, icao))
  {
  }

  /** A manufacturer alone caches nothing: a normalized type needs a type field. */
  lemma NormalizedNeedsType(mfr: Option<string>, atype: Option<string>, icao: Option<string>)
    ensures NormalizedType(mfr, atype, icao).Some? ==> Truthy(atype) || Truthy(icao)
    ensures NormalizedType(mfr, atype, icao) != Some("Unknown")
  {
    if !Truthy(atype) && !Truthy(icao) {
      NoTypeIsUnknown(mfr, atype, icao);
    }
  }

  /** Reading back a stored hex id, in any spelling, gives the upper-cased registration. */
  lemma StoreThenGet(registry: map<string, RegistryRow>, hex: string, registration: string,
                     atype: Option<string>, mfr: Option<string>, icao: Option<string>, now: int, probe: string)
    ensures var r := Store(registry, hex, registration, atype, mfr, icao, now);
      (Upper(probe) == Upper(hex) ==> RegistrationFor(r, probe) == Some(Upper(registration)))
      && (Upper(probe) != Upper(hex) ==> RegistrationFor(r, probe) == RegistrationFor(registry, probe))
  {
  }

  /** The upsert replaces the row of the upper-cased hex id, keeps the raw type fields and touches no other row. */
  lemma StoreIsUpsert(registry: map<string, RegistryRow>, hex: string, registration: string,
                      atype: Option<string>, mfr: Option<string>, icao: Option<string>, now: int)
    ensures var r := Store(registry, hex, registration, atype, mfr, icao, now);
      r.Keys == registry.Keys + {Upper(hex)}
      && r[Upper(hex)].aircraftType == atype && r[Upper(hex)].manufacturer == mfr && r[Upper(hex)].icaoType == icao
      && r[Upper(hex)].lastUpdated == now
      && NoLower(r[Upper(hex)].registration) && |r[Upper(hex)].registration| == |registration|
      && (forall k :: k in registry && k != Upper(hex) ==> r[k] == registry[k])
  {
    UpperResult(registration);
  }

  /** Storing the same data twice leaves the registry as one store does. */
  lemma StoreTwice(registry: map<string, RegistryRow>, hex: string, registration: string,
                   atype: Option<string>, mfr: Option<string>, icao: Option<string>, now: int)
    ensures var r := Store(registry, hex, registration, atype, mfr, icao, now);
      Store(r, hex, registration, atype, mfr, icao, now) == r
  {
  }
}
