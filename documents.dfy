/**
 * Firestore as the activities see it: a document is a map from field name to
 * value, a point is a Firestore `GeoPoint`, a time is a Firebase `Timestamp`,
 * and a one-document read ends in one of three ways.
 */
module Documents {
  import opened Wrappers

  datatype GeoPoint = GeoPoint(latitude: real, longitude: real)

  /** Firebase `Timestamp`: seconds and nanoseconds since the epoch, kept opaque. */
  datatype Timestamp = Timestamp(seconds: int, nanoseconds: int)

  datatype Value =
    | Null
    | Str(s: string)
    | Int(i: int)
    | Num(r: real)
    | StrList(items: seq<string>)
    | Geo(point: GeoPoint)
    | Time(time: Timestamp)

  type Document = map<string, Value>

  /** The outcome of `document(id).get()`: the snapshot exists, does not exist, or the call failed. */
  datatype Lookup = Exists(doc: Document) | Missing | Failed

  /** The outcome of `fusedLocationClient.lastLocation`: a failure, or a possibly-null fix. */
  datatype LocationResult = LocationFailed | Fix(location: Option<GeoPoint>)

  /** `DocumentSnapshot.getString(key)`: `null` when the field is absent or null. */
  function GetString(doc: Document, key: string): (r: Option<string>)
    ensures r.Some? <==> key in doc && doc[key].Str?
    ensures r.Some? ==> doc[key] == Str(r.value)
  {
    if key in doc && doc[key].Str? then Some(doc[key].s) else None
  }

  /** `DocumentSnapshot.getDouble(key)`: a number field read as a Double, else `null`. */
  function GetDouble(doc: Document, key: string): (r: Option<real>)
    ensures r.Some? <==> key in doc && (doc[key].Num? || doc[key].Int?)
    ensures key in doc && doc[key].Num? ==> r == Some(doc[key].r)
    ensures key in doc && doc[key].Int? ==> r == Some(doc[key].i as real)
  {
    if key !in doc then None
    else match doc[key]
      case Num(x) => Some(x)
      case Int(i) => Some(i as real)
      case _ => None
  }

  /** `DocumentSnapshot.getGeoPoint(key)`. */
  function GetGeoPoint(doc: Document, key: string): (r: Option<GeoPoint>)
    ensures r.Some? <==> key in doc && doc[key].Geo?
    ensures r.Some? ==> doc[key] == Geo(r.value)
  {
    if key in doc && doc[key].Geo? then Some(doc[key].point) else None
  }

  /** `DocumentSnapshot.getTimestamp(key)`. */
  function GetTimestamp(doc: Document, key: string): (r: Option<Timestamp>)
    ensures r.Some? <==> key in doc && doc[key].Time?
    ensures r.Some? ==> doc[key] == Time(r.value)
  {
    if key in doc && doc[key].Time? then Some(doc[key].time) else None
  }

  /** `doc.get(key) as? List<String>`: the list when the field is one, else `null`. */
  function GetStringList(doc: Document, key: string): (r: Option<seq<string>>)
    ensures r.Some? <==> key in doc && doc[key].StrList?
    ensures r.Some? ==> doc[key] == StrList(r.value)
  {
    if key in doc && doc[key].StrList? then Some(doc[key].items) else None
  }
}
