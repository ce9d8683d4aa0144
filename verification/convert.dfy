/** The offline conversion from open-data records to the GeoJSON file the map
    loads: the `records.filter(...).map(...)` transform of the conversion script.
    Fetching the records and writing the file are not modelled; `parseFloat` is
    a parameter. */
module ConvertToGeoJson {
  import opened Wrappers
  import opened GeoJson
  import opened Sequences
  import opened StationPattern

  /** One record of the open-data API, each field text or `null`. */
  datatype RawRecord = RawRecord(
    latitude: Option<string>,
    longitude: Option<string>,
    result: Option<string>,
    stationName: Option<string>,
    sampleDate: Option<string>)

  /** `parseFloat` on a field: `null` parses to NaN (None); text is handed to
      the supplied parser, which also answers None for NaN. */
  function ParseFloat(parse: string -> Option<real>, v: Option<string>): Option<real> {
    match v
    case None => None
    case Some(t) => parse(t)
  }

  /** `record.Latitude && record.Longitude` */
  predicate HasCoordinates(rec: RawRecord) {
    Truthy(rec.latitude) && Truthy(rec.longitude)
  }

  /** The result threshold; every comparison with NaN is false, so NaN is "unsafe". */
  function ClassifyStatus(v: Option<real>): (r: string)
    ensures r in Statuses
    ensures r == "safe" <==> v.Some? && v.value > 7.0
    ensures r == "caution" <==> v.Some? && 5.0 < v.value <= 7.0
    ensures r == "unsafe" <==> v.None? || v.value <= 5.0
  {
    if v.Some? && v.value > 7.0 then "safe"
    else if v.Some? && v.value > 5.0 then "caution"
    else "unsafe"
  }

  /** Position of a status in the order unsafe < caution < safe. */
  function Rank(status: string): nat {
    if status == "safe" then 2 else if status == "caution" then 1 else 0
  }

  /** A higher result never gives a worse status, and NaN gives the worst. */
  lemma ClassifyStatusMonotone(a: Option<real>, b: real)
    requires a.Some? ==> a.value <= b
    ensures Rank(ClassifyStatus(a)) <= Rank(ClassifyStatus(Some(b)))
  {
  }

  /** `name && (LA-test ? "LA" : OC-test ? "OC" : undefined)`: a falsy name is
      handed back unchanged (`null` or ""), so it is never a region code. */
  function ClassifyRegion(name: Option<string>): (r: Option<string>)
    ensures !Truthy(name) ==> r == name
    ensures r == Some("LA") <==> Truthy(name) && IsLosAngeles(name.value)
    ensures r == Some("OC") <==> Truthy(name) && !IsLosAngeles(name.value) && IsOrange(name.value)
    ensures Truthy(r) <==> Truthy(name) && (IsLosAngeles(name.value) || IsOrange(name.value))
  {
    if !Truthy(name) then name
    else if TestLosAngeles(name.value) then Some("LA")
    else if TestOrange(name.value) then Some("OC")
    else None
  }

  /** The feature built for one kept record. */
  function ToFeature(rec: RawRecord, parse: string -> Option<real>): (f: Feature)
    ensures f.kind == "Feature"
    ensures f.geometry == Point([ParseFloat(parse, rec.longitude), ParseFloat(parse, rec.latitude)])
    ensures f.properties.ph == ParseFloat(parse, rec.result)
    ensures f.properties.status == Some(ClassifyStatus(f.properties.ph))
    ensures f.properties.name == (if Truthy(rec.stationName) then rec.stationName else Some("Unknown"))
    ensures f.properties.sampleDate.Some? <==> Truthy(rec.sampleDate)
    ensures f.properties.sampleDate.Some? ==> f.properties.sampleDate == rec.sampleDate
    ensures f.properties.dataRetrievalDate.None?
    ensures f.properties.region == ClassifyRegion(rec.stationName)
  {
    var ph := ParseFloat(parse, rec.result);
    Feature(
      "Feature",
      Point([ParseFloat(parse, rec.longitude), ParseFloat(parse, rec.latitude)]),
      Properties(
        name := Some(Or(rec.stationName, "Unknown")),
        status := Some(ClassifyStatus(ph)),
        ph := ph,
        sampleDate := if Truthy(rec.sampleDate) then rec.sampleDate else None,
        dataRetrievalDate := None,
        region := ClassifyRegion(rec.stationName)))
  }

  /** The whole transform: keep records with coordinates, build one feature each. */
  function Convert(records: seq<RawRecord>, parse: string -> Option<real>): (r: FeatureCollection)
    ensures r.kind == "FeatureCollection" && r.foreignMembers == map[]
    ensures |r.features| == |Filter(HasCoordinates, records)|
    ensures forall k :: 0 <= k < |r.features| ==>
      r.features[k] == ToFeature(Filter(HasCoordinates, records)[k], parse)
  {
    var kept := Filter(HasCoordinates, records);
    FeatureCollection(
      "FeatureCollection",
      map[],
      seq(|kept|, k requires 0 <= k < |kept| => ToFeature(kept[k], parse)))
  }

  /** Every feature comes from a record with truthy coordinates, and the
      features follow the kept records one for one in input order. */
  lemma ConvertKeepsOnlyLocatedRecords(records: seq<RawRecord>, parse: string -> Option<real>)
    ensures var kept := Filter(HasCoordinates, records);
      && IsSubsequence(kept, records)
      && (forall rec :: rec in kept <==> rec in records && Truthy(rec.latitude) && Truthy(rec.longitude))
      && |Convert(records, parse).features| == |kept|
  {
    FilterIsSubsequence(HasCoordinates, records);
  }

  /** Records that all carry coordinates each yield a feature. */
  lemma ConvertKeepsAllLocatedRecords(records: seq<RawRecord>, parse: string -> Option<real>)
    requires forall rec :: rec in records ==> Truthy(rec.latitude) && Truthy(rec.longitude)
    ensures |Convert(records, parse).features| == |records|
  {
    FilterKeepsAll(HasCoordinates, records);
  }

  /** Shape of every output feature: a Point with `[longitude, latitude]`
      coordinates, a status from the vocabulary agreeing with its pH, and a name. */
  lemma ConvertedFeaturesAreWellFormed(records: seq<RawRecord>, parse: string -> Option<real>, f: Feature)
    requires f in Convert(records, parse).features
    ensures f.kind == "Feature" && f.geometry.Point? && |f.geometry.coordinates| == 2
    ensures f.properties.status.Some? && f.properties.status.value in Statuses
    ensures f.properties.status.value == ClassifyStatus(f.properties.ph)
    ensures Truthy(f.properties.name)
    ensures exists rec :: rec in records && HasCoordinates(rec) && f == ToFeature(rec, parse)
  {
    var fs := Convert(records, parse).features;
    var kept := Filter(HasCoordinates, records);
    var k :| 0 <= k < |fs| && fs[k] == f;
    assert kept[k] in kept;
  }
}
