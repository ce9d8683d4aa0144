/** The data the map works on: GeoJSON features and collections as the map
    component reads them, the JavaScript truthiness rules the component relies
    on, and the fixed vocabularies of regions and statuses. */
module GeoJson {
  import opened Wrappers

  /** A string-valued JavaScript property is truthy when it is present and not "". */
  predicate Truthy(v: Option<string>) {
    v.Some? && v.value != ""
  }

  /** `v || fallback` for a string-valued property. */
  function Or(v: Option<string>, fallback: string): string {
    if Truthy(v) then v.value else fallback
  }

  /** A JavaScript number is truthy unless it is 0 or NaN (NaN is None here). */
  predicate TruthyNumber(v: Option<real>) {
    v.Some? && v.value != 0.0
  }

  /** The region codes the filter offers, in checkbox order. */
  const Regions: seq<string> := ["LA", "OC"]

  /** The status values the filter offers, in checkbox order. */
  const Statuses: seq<string> := ["safe", "caution", "unsafe"]

  /** A geometry. Point coordinates are `[longitude, latitude]`, each a JSON
      number or `null` (which is what a `NaN` becomes when serialised). */
  datatype Geometry = Point(coordinates: seq<Option<real>>) | OtherGeometry(kind: string)

  /** The properties the map reads from a feature; every one may be absent. */
  datatype Properties = Properties(
    name: Option<string>,
    status: Option<string>,
    ph: Option<real>,
    sampleDate: Option<string>,
    dataRetrievalDate: Option<string>,
    region: Option<string>)

  /** A feature object; `kind` is its `type` member. */
  datatype Feature = Feature(kind: string, geometry: Geometry, properties: Properties)

  /** A feature collection: its `type` member, the other top-level members of
      the parsed file (kept as opaque JSON text), and its features. */
  datatype FeatureCollection = FeatureCollection(
    kind: string,
    foreignMembers: map<string, string>,
    features: seq<Feature>)
}
