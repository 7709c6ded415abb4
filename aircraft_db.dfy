/**
 * `aircraft_db.py`: the in-memory registration cache in front of the upstream
 * aircraft database.
 *
 * The cache maps an upper-cased ICAO hex id to a value or to a negative
 * entry. Lookups store registration strings; the start-up preload stores the
 * registry's 4-tuples, so a cached value is one of the two.
 */
module AircraftDb {
  import opened Text

  /** A cached value: a registration string, or a registry 4-tuple from the preload. */
  datatype RegValue =
    | Text(s: string)
    | Row(registration: Option<string>, aircraftType: Option<string>, manufacturer: Option<string>, icaoType: Option<string>)

  /** Python truthiness of an optional cached value: a 4-tuple is always true, a string when non-empty. */
  predicate RegTruthy(v: Option<RegValue>) {
    v.Some? && (v.value.Row? || v.value.s != "")
  }

  /** What one upstream request produced: an exception, or a status and the two registration fields of the reply. */
  datatype Reply =
    | Failed
    | Response(status: int, registration: Option<string>, regid: Option<string>)

  /** The registration an upstream reply yields: only for status 200 with a truthy field, stripped and upper-cased. */
  function Resolve(reply: Reply): (r: Option<string>)
    ensures r.Some? <==> reply.Response? && reply.status == 200 && Truthy(Or(reply.registration, reply.regid))
  {
    if reply.Response? && reply.status == 200 then
      var reg := Or(reply.registration, reply.regid);
      if Truthy(reg) then Some(Upper(Strip(reg.value))) else None
    else None
  }

  function AsValue(r: Option<string>): Option<RegValue> {
    if r.Some? then Some(Text(r.value)) else None
  }

  /** The cache, the calls made so far and a lookup's answer. */
  datatype Lookup = Lookup(answer: Option<RegValue>, entries: map<string, Option<RegValue>>, calls: seq<string>)

  /**
   * `lookup_registration`: a cached key (a negative entry included) answers
   * without a request; otherwise one request for the lower-cased key is made
   * and its outcome, positive or not, is cached.
   */
  function LookupSpec(entries: map<string, Option<RegValue>>, calls: seq<string>, hex: string, upstream: string -> Reply): Lookup {
    var key := Upper(hex);
    if key in entries then Lookup(entries[key], entries, calls)
    else
      var answer := AsValue(Resolve(upstream(Lower(key))));
      Lookup(answer, entries[key := answer], calls + [Lower(key)])
  }

  /** `get_cached_registration`: the entry for the upper-cased key, `None` when there is none. */
  function CacheGet(entries: map<string, Option<RegValue>>, hex: string): (r: Option<RegValue>)
    ensures Upper(hex) !in entries ==> r == None
    ensures Upper(hex) in entries ==> r == entries[Upper(hex)]
  {
    if Upper(hex) in entries then entries[Upper(hex)] else None
  }

  class LookupCache {
    /** `_cache`: upper-cased hex id to a cached value; `None` is a negative entry. */
    var entries: map<string, Option<RegValue>>
    /** The upstream requests made so far, as the hex id placed in the URL. */
    var calls: seq<string>

    constructor()
      ensures entries == map[] && calls == []
    {
      entries := map[];
      calls := [];
    }

    /** `lookup_registration`, with the HTTP request and JSON decoding as the `upstream` oracle. */
    method LookupRegistration(hex: string, upstream: string -> Reply) returns (r: Option<RegValue>)
      modifies this
      ensures LookupSpec(old(entries), old(calls), hex, upstream) == Lookup(r, entries, calls)
    {
      var key := Upper(hex);
      if key in entries {
        return entries[key];
      }
      var reply := upstream(Lower(key));
      calls := calls + [Lower(key)];
      if reply.Response? && reply.status == 200 {
        var reg := Or(reply.registration, reply.regid);
        if Truthy(reg) {
          var s := Upper(Strip(reg.value));
          entries := entries[key := Some(Text(s))];
          return Some(Text(s));
        }
      }
      entries := entries[key := None];
      return None;
    }

    /** `get_cached_registration`. */
    function GetCachedRegistration(hex: string): Option<RegValue>
      reads this
    {
      CacheGet(entries, hex)
    }

    /** `load_cache_from_db`: `_cache.update(registry)`, keys taken as they are. */
    method LoadCacheFromDb(registry: map<string, RegValue>)
      modifies this
      ensures entries == Preloaded(old(entries), registry)
      ensures calls == old(calls)
    {
      entries := Preloaded(entries, registry);
    }
  }

  /** The cache after `update(registry)`. */
  function Preloaded(entries: map<string, Option<RegValue>>, registry: map<string, RegValue>): map<string, Option<RegValue>> {
    entries + map k | k in registry :: Some(registry[k])
  }

  // ---------------------------------------------------------------------------
  // Properties of a lookup
  // ---------------------------------------------------------------------------

  /** A cache hit, negative entries included, answers the cached value and makes no request. */
  lemma LookupHit(entries: map<string, Option<RegValue>>, calls: seq<string>, hex: string, upstream: string -> Reply)
    requires Upper(hex) in entries
    ensures var l := LookupSpec(entries, calls, hex, upstream);
      l.answer == entries[Upper(hex)] && l.entries == entries && l.calls == calls
  {
  }

  /** After a lookup the upper-cased key is cached with the answer, and no other key has changed. */
  lemma LookupCachesAnswer(entries: map<string, Option<RegValue>>, calls: seq<string>, hex: string, upstream: string -> Reply)
    ensures var l := LookupSpec(entries, calls, hex, upstream);
      Upper(hex) in l.entries && l.entries[Upper(hex)] == l.answer
      && l.entries.Keys == entries.Keys + {Upper(hex)}
      && (forall k :: k in entries && k != Upper(hex) ==> l.entries[k] == entries[k])
  {
  }

  /** A miss makes exactly one request, for the lower-cased key. */
  lemma LookupMissCalls(entries: map<string, Option<RegValue>>, calls: seq<string>, hex: string, upstream: string -> Reply)
    requires Upper(hex) !in entries
    ensures LookupSpec(entries, calls, hex, upstream).calls == calls + [Lower(Upper(hex))]
  {
  }

  /** Any failure on a miss (exception, other status, no registration field) caches and answers `None`. */
  lemma LookupFailureIsNegative(entries: map<string, Option<RegValue>>, calls: seq<string>, hex: string, upstream: string -> Reply)
    requires Upper(hex) !in entries
    requires var reply := upstream(Lower(Upper(hex)));
      reply.Failed? || reply.status != 200 || !Truthy(Or(reply.registration, reply.regid))
    ensures var l := LookupSpec(entries, calls, hex, upstream);
      l.answer == None && l.entries[Upper(hex)] == None
  {
  }

  /** A positive answer on a miss is the reply's registration field, stripped and upper-cased. */
  lemma LookupPositiveIsNormalized(entries: map<string, Option<RegValue>>, calls: seq<string>, hex: string, upstream: string -> Reply)
    requires Upper(hex) !in entries
    requires LookupSpec(entries, calls, hex, upstream).answer.Some?
    ensures var reply := upstream(Lower(Upper(hex)));
      var l := LookupSpec(entries, calls, hex, upstream);
      reply.Response? && reply.status == 200 && Truthy(Or(reply.registration, reply.regid))
      && l.answer == Some(Text(Upper(Strip(Or(reply.registration, reply.regid).value))))
      && Trimmed(l.answer.value.s) && NoLower(l.answer.value.s)
  {
    var reply := upstream(Lower(Upper(hex)));
    var s := Or(reply.registration, reply.regid).value;
    StripSpec(s);
    StripUpper(s);
    StripSpec(Upper(s));
    UpperResult(Strip(s));
  }

  /** Two lookups of the same hex make at most one request between them and give the same answer. */
  lemma LookupTwice(entries: map<string, Option<RegValue>>, calls: seq<string>, hex: string, upstream: string -> Reply)
    ensures var l1 := LookupSpec(entries, calls, hex, upstream);
      var l2 := LookupSpec(l1.entries, l1.calls, hex, upstream);
      l2.answer == l1.answer && l2.entries == l1.entries && l2.calls == l1.calls
      && |l2.calls| <= |calls| + 1
  {
  }

  /** Lookups of any spelling of a hex id agree: the key is upper-cased first. */
  lemma LookupIgnoresCase(entries: map<string, Option<RegValue>>, calls: seq<string>, a: string, b: string, upstream: string -> Reply)
    requires Upper(a) == Upper(b)
    ensures LookupSpec(entries, calls, a, upstream) == LookupSpec(entries, calls, b, upstream)
  {
  }

  /** The preload overwrites the entries of the given keys, leaves every other entry alone and does not change keys' case. */
  lemma PreloadedEntries(entries: map<string, Option<RegValue>>, registry: map<string, RegValue>)
    ensures var e := Preloaded(entries, registry);
      e.Keys == entries.Keys + registry.Keys
      && (forall k :: k in registry ==> e[k] == Some(registry[k]))
      && (forall k :: k in entries && k !in registry ==> e[k] == entries[k])
  {
  }
}
