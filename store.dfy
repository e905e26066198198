/** `WeatherRepository`: the persisted weather records, one per location up
    to case, over a MongoDB client whose every call may fail. */
module Store {
  import opened Wrappers
  import opened Text
  import opened Weather
  import opened Calls

  /** The collection, keyed by the lower-cased location: each record sits at
      the key its own location folds to, so a location never has two records. */
  predicate WellKeyed(records: map<string, Weather>)
  {
    forall k :: k in records ==> Lower(records[k].location) == k
  }

  /** `findOne({location: /^q$/i})`, answered from the folded key. */
  function Find(records: map<string, Weather>, q: string): Option<Weather>
  {
    if Lower(q) in records then Some(records[Lower(q)]) else None
  }

  /** The keyed lookup is the anchored case-insensitive query: it finds a
      record whose whole location equals `q` ignoring case (so never one that
      merely contains `q`), and finds nothing exactly when no record's
      location does. */
  lemma FindMatchesIgnoringCase(records: map<string, Weather>, q: string)
    requires WellKeyed(records)
    ensures Find(records, q).Some? ==>
              && Find(records, q).value in records.Values
              && SameIgnoringCase(Find(records, q).value.location, q)
    ensures Find(records, q).None? <==> forall w :: w in records.Values ==> !SameIgnoringCase(w.location, q)
  {
    if Lower(q) in records {
      var w := records[Lower(q)];
      SameIgnoringCaseIsLowerEqual(w.location, q);
      assert w in records.Values;
    } else {
      forall w | w in records.Values
        ensures !SameIgnoringCase(w.location, q)
      {
        var k :| k in records && records[k] == w;
        SameIgnoringCaseIsLowerEqual(w.location, q);
      }
    }
  }

  /** The document `findOneAndUpdate` leaves: the data's fields with the
      location replaced by the literal argument. Provenance is not part of the
      schema; what the store holds originated externally. */
  function Stored(location: string, data: Weather): (w: Weather)
    ensures w.location == location && w.source == FromExternal
    ensures w.(location := data.location, source := data.source) == data
  {
    data.(location := location, source := FromExternal)
  }

  /** The collection after `upsert(location, data)`: the record at the
      location's folded key is replaced, or inserted when there is none, and
      the records of every other location are untouched. */
  function Upserted(records: map<string, Weather>, location: string, data: Weather)
    : (r: map<string, Weather>)
    requires WellKeyed(records)
    ensures WellKeyed(r)
    ensures Lower(location) in r && r[Lower(location)] == Stored(location, data)
    ensures r - {Lower(location)} == records - {Lower(location)}
  {
    var r := records[Lower(location) := Stored(location, data)];
    assert r - {Lower(location)} == records - {Lower(location)};
    r
  }

  /** An upsert inserts exactly one record when the location is absent up to
      case, and otherwise replaces one in place: the count never grows by more. */
  lemma UpsertCount(records: map<string, Weather>, location: string, data: Weather)
    requires WellKeyed(records)
    ensures Find(records, location).None? ==> |Upserted(records, location, data)| == |records| + 1
    ensures Find(records, location).Some? ==> |Upserted(records, location, data)| == |records|
    ensures Upserted(records, location, data).Keys == records.Keys + {Lower(location)}
  {
    MapUpdateCount(records, Lower(location), Stored(location, data));
  }

  /** Updating a map adds a key only when it was absent. */
  lemma MapUpdateCount<K, V>(m: map<K, V>, k: K, v: V)
    ensures k in m ==> |m[k := v]| == |m|
    ensures k !in m ==> |m[k := v]| == |m| + 1
    ensures m[k := v].Keys == m.Keys + {k}
  {
    if k !in m {
      assert m[k := v].Keys == m.Keys + {k};
    }
  }

  /** At most one record per location, up to case. The unique index on
      `location` is case-sensitive; it is upsert's case-insensitive filter
      that keeps this true. */
  lemma {:induction false} OneRecordPerLocation(records: map<string, Weather>, a: Weather, b: Weather)
    requires WellKeyed(records)
    requires a in records.Values && b in records.Values
    requires SameIgnoringCase(a.location, b.location)
    ensures a == b
  {
    var ka :| ka in records && records[ka] == a;
    var kb :| kb in records && records[kb] == b;
    SameIgnoringCaseIsLowerEqual(a.location, b.location);
  }

  /** After `upsert(loc, d)`, a lookup by any casing of `loc` finds `d` with
      location `loc`, and a lookup of any other location finds what it found before. */
  lemma FindAfterUpsert(records: map<string, Weather>, location: string, data: Weather, q: string)
    requires WellKeyed(records)
    ensures SameIgnoringCase(q, location) ==> Find(Upserted(records, location, data), q) == Some(Stored(location, data))
    ensures !SameIgnoringCase(q, location) ==> Find(Upserted(records, location, data), q) == Find(records, q)
  {
    SameIgnoringCaseIsLowerEqual(q, location);
  }

  class WeatherRepository {
    var records: map<string, Weather>
    /** The log each call into this repository is appended to. */
    const trace: Trace

    ghost predicate Valid()
      reads this
    {
      WellKeyed(records)
    }

    constructor (trace: Trace, initial: map<string, Weather>)
      requires WellKeyed(initial)
      ensures Valid() && this.trace == trace && records == initial
    {
      this.trace := trace;
      records := initial;
    }

    /** `findByLocation(location)`: the record matching `location` as a whole
        and ignoring case; a client error is rethrown. */
    method FindByLocation(backend: Link, location: string) returns (r: Result<Option<Weather>>)
      requires Valid()
      modifies trace
      ensures trace.calls == old(trace.calls) + [StoreFind(location)]
      ensures backend.Down? ==> r == Err(Failure(backend.reason))
      ensures backend.Up? ==> r == Ok(Find(records, location))
      ensures r.Ok? && r.value.Some? ==>
                r.value.value in records.Values && SameIgnoringCase(r.value.value.location, location)
      ensures r == Ok(None) ==> forall w :: w in records.Values ==> !SameIgnoringCase(w.location, location)
    {
      trace.calls := trace.calls + [StoreFind(location)];
      if backend.Down? {
        return Err(Failure(backend.reason));
      }
      FindMatchesIgnoringCase(records, location);
      r := Ok(Find(records, location));
    }

    /** `upsert(location, data)`: find-one-and-update with insertion; returns
        the stored document; a client error is rethrown and nothing changes. */
    method Upsert(backend: Link, location: string, data: Weather) returns (r: Result<Weather>)
      requires Valid()
      modifies this, trace
      ensures Valid()
      ensures trace.calls == old(trace.calls) + [StoreUpsert(location, data)]
      ensures backend.Down? ==> r == Err(Failure(backend.reason)) && records == old(records)
      ensures backend.Up? ==>
                r == Ok(Stored(location, data)) && records == Upserted(old(records), location, data)
    {
      trace.calls := trace.calls + [StoreUpsert(location, data)];
      if backend.Down? {
        return Err(Failure(backend.reason));
      }
      records := Upserted(records, location, data);
      r := Ok(Stored(location, data));
    }
  }
}
