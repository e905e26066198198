/** The weather record (`IWeather`) and the JSON form in which the cache keeps it. */
module Weather {
  import opened Wrappers

  /** An instant of an abstract clock; it stands for a JavaScript `Date`. */
  type Instant = nat

  /** Which layer handed the record to the caller. */
  datatype Source = FromCache | FromExternal

  /** `IWeather`. The three numeric fields are JavaScript numbers on which the
      system does no arithmetic; they are carried as opaque reals. */
  datatype Weather = Weather(
    location: string,
    temperature: real,
    description: string,
    humidity: real,
    windSpeed: real,
    timestamp: Instant,
    source: Source)

  /** A JSON value: what `JSON.stringify` writes and `JSON.parse` reads back. */
  datatype Json =
    | JNull
    | JBool(b: bool)
    | JNumber(n: real)
    | JString(s: string)
    | JArray(items: seq<Json>)
    | JObject(members: seq<(string, Json)>)

  /** The value of property `name` of a parsed object; when a name repeats,
      the last occurrence wins, as in `JSON.parse`. */
  function Member(members: seq<(string, Json)>, name: string): (r: Option<Json>)
    decreases |members|
  {
    if members == [] then None
    else if members[|members| - 1].0 == name then
      Some(members[|members| - 1].1)
    else
      Member(members[..|members| - 1], name)
  }

  /** The last member called `name` is the one `Member` finds. */
  lemma {:induction false} MemberIsLast(members: seq<(string, Json)>, name: string, i: nat)
    requires i < |members| && members[i].0 == name
    requires forall k :: i < k < |members| ==> members[k].0 != name
    ensures Member(members, name) == Some(members[i].1)
    decreases |members|
  {
    if i < |members| - 1 {
      var init := members[..|members| - 1];
      assert init[i] == members[i];
      MemberIsLast(init, name, i);
    }
  }

  function SourceName(s: Source): string
  {
    match s
    case FromCache => "cache"
    case FromExternal => "external"
  }

  function SourceFromName(name: string): (r: Option<Source>)
    ensures forall s: Source :: r == Some(s) <==> SourceName(s) == name
  {
    if name == "cache" then Some(FromCache)
    else if name == "external" then Some(FromExternal)
    else None
  }

  /** The text held by property `name`, if it is a string. */
  function StringMember(members: seq<(string, Json)>, name: string): Option<string>
  {
    match Member(members, name)
    case Some(JString(t)) => Some(t)
    case _ => None
  }

  /** The number held by property `name`, if it is a number. */
  function NumberMember(members: seq<(string, Json)>, name: string): Option<real>
  {
    match Member(members, name)
    case Some(JNumber(n)) => Some(n)
    case _ => None
  }

  /** The members `JSON.stringify` writes for a record, in declaration order.
      A `Date` is written as ISO-8601 text; here the clock value itself. */
  function RecordMembers(w: Weather): seq<(string, Json)>
  {
    [ ("location", JString(w.location)),
      ("temperature", JNumber(w.temperature)),
      ("description", JString(w.description)),
      ("humidity", JNumber(w.humidity)),
      ("windSpeed", JNumber(w.windSpeed)),
      ("timestamp", JNumber(w.timestamp as real)),
      ("source", JString(SourceName(w.source))) ]
  }

  /** Each property of a serialised record reads back as the field it came from. */
  lemma RecordMembersReadBack(w: Weather)
    ensures StringMember(RecordMembers(w), "location") == Some(w.location)
    ensures NumberMember(RecordMembers(w), "temperature") == Some(w.temperature)
    ensures StringMember(RecordMembers(w), "description") == Some(w.description)
    ensures NumberMember(RecordMembers(w), "humidity") == Some(w.humidity)
    ensures NumberMember(RecordMembers(w), "windSpeed") == Some(w.windSpeed)
    ensures NumberMember(RecordMembers(w), "timestamp") == Some(w.timestamp as real)
    ensures StringMember(RecordMembers(w), "source") == Some(SourceName(w.source))
  {
    var ms := RecordMembers(w);
    MemberIsLast(ms, "location", 0);
    MemberIsLast(ms, "temperature", 1);
    MemberIsLast(ms, "description", 2);
    MemberIsLast(ms, "humidity", 3);
    MemberIsLast(ms, "windSpeed", 4);
    MemberIsLast(ms, "timestamp", 5);
    MemberIsLast(ms, "source", 6);
  }

  /** The object `JSON.stringify` serialises for a record; parsing it back
      gives the same record. */
  function ToJson(w: Weather): (j: Json)
    ensures FromJson(j) == Some(w)
  {
    RecordMembersReadBack(w);
    assert SourceFromName(SourceName(w.source)) == Some(w.source);
    assert (w.timestamp as real).Floor == w.timestamp;
    JObject(RecordMembers(w))
  }

  /** Reads a record back from a parsed JSON value; None when the value does
      not have the shape of a record. */
  function FromJson(j: Json): (r: Option<Weather>)
  {
    if !j.JObject? then None
    else
      var ms := j.members;
      var loc, temp, desc := StringMember(ms, "location"), NumberMember(ms, "temperature"), StringMember(ms, "description");
      var hum, wind, ts := NumberMember(ms, "humidity"), NumberMember(ms, "windSpeed"), NumberMember(ms, "timestamp");
      var src := StringMember(ms, "source");
      if loc.Some? && temp.Some? && desc.Some? && hum.Some? && wind.Some? && ts.Some? && src.Some?
         && ts.value.Floor as real == ts.value && ts.value.Floor >= 0
         && SourceFromName(src.value).Some?
      then
        Some(Weather(loc.value, temp.value, desc.value, hum.value, wind.value,
                     ts.value.Floor, SourceFromName(src.value).value))
      else None
  }
}
