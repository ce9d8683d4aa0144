/** The click handler of the map component: from the features under a click
    to the content of the popup, including the longitude unwrapping that puts
    the popup on the copy of the world nearest to the click. Building the HTML
    text and the locale-dependent date rendering are not modelled; the popup
    is a record of the fields it shows. */
module Popup {
  import opened Wrappers
  import opened GeoJson

  /** Geometry of a feature as the map reports it under a click; a rendered
      point always has numeric coordinates. */
  datatype RenderedGeometry = RenderedPoint(lng: real, lat: real) | RenderedOther(kind: string)

  datatype RenderedFeature = RenderedFeature(geometry: RenderedGeometry, properties: Properties)

  /** A click on the point layer: the features under it (`e.features`, which
      may be missing) and the clicked longitude and latitude (`e.lngLat`). */
  datatype ClickEvent = ClickEvent(features: Option<seq<RenderedFeature>>, lng: real, lat: real)

  /** One shown value: literal text, a number, or a date string handed to the
      locale formatter. */
  datatype Cell = Text(text: string) | Number(value: real) | LocalDate(raw: string)

  /** The popup: where it is anchored and what it shows. */
  datatype PopupContent = PopupContent(
    lng: real,
    lat: real,
    title: string,
    status: string,
    ph: Cell,
    sampleDate: Cell,
    retrieved: Cell)

  const NotAvailable := "N/A"
  const UnknownLocation := "Unknown Location"

  function Abs(x: real): real {
    if x < 0.0 then -x else x
  }

  /** The copy of longitude `lng` shifted by `k` whole turns. */
  function Copy(lng: real, k: int): real {
    lng + 360.0 * (k as real)
  }

  /** How many turns the unwrapping loop adds to `lng` (negative: subtracts). */
  function Turns(lng: real, click: real): (k: int)
    ensures Abs(click - Copy(lng, k)) <= 180.0
    ensures Abs(click - lng) <= 180.0 ==> k == 0
    decreases Abs(click - lng).Floor
  {
    if Abs(click - lng) <= 180.0 then 0
    else if click > lng then Turns(lng + 360.0, click) + 1
    else Turns(lng - 360.0, click) - 1
  }

  /** The longitude the popup is anchored at. */
  function Unwrap(lng: real, click: real): real {
    Copy(lng, Turns(lng, click))
  }

  /** `while (|click - lng| > 180) lng += click > lng ? 360 : -360` */
  method UnwrapLongitude(lng: real, click: real) returns (r: real)
    ensures Abs(click - r) <= 180.0
    ensures r == Copy(lng, Turns(lng, click))
    ensures Abs(click - lng) <= 180.0 ==> r == lng
  {
    r := lng;
    while Abs(click - r) > 180.0
      invariant Copy(r, Turns(r, click)) == Copy(lng, Turns(lng, click))
      decreases Abs(click - r).Floor
    {
      r := r + (if click > r then 360.0 else -360.0);
    }
  }

  /** No other copy of the longitude is closer to the click. */
  lemma {:induction false} UnwrapIsNearestCopy(lng: real, click: real, j: int)
    ensures Abs(click - Unwrap(lng, click)) <= Abs(click - Copy(lng, j))
  {
    var t := Turns(lng, click);
    assert Copy(lng, j) == Copy(lng, t) + 360.0 * ((j - t) as real);
  }

  /** Anchor 170 clicked at -170 moves to -190, 20 degrees from the click. */
  lemma UnwrapAcrossAntimeridian()
    ensures Unwrap(170.0, -170.0) == -190.0
  {
    assert Turns(-190.0, -170.0) == 0;
  }

  /** `formatDate`: a falsy date shows "N/A"; any other string goes to the
      locale formatter. */
  function FormatDate(d: Option<string>): (c: Cell)
    ensures c == Text(NotAvailable) <==> !Truthy(d)
    ensures Truthy(d) ==> c == LocalDate(d.value)
  {
    if !Truthy(d) then Text(NotAvailable) else LocalDate(d.value)
  }

  /** `ph || "N/A"`: 0 and NaN are falsy and show "N/A". */
  function ShowPh(ph: Option<real>): (c: Cell)
    ensures c == Text(NotAvailable) <==> ph.None? || ph.value == 0.0
    ensures c != Text(NotAvailable) ==> c == Number(ph.value)
  {
    if TruthyNumber(ph) then Number(ph.value) else Text(NotAvailable)
  }

  /** The handler: the first feature under the click, if it is a point, gives
      a popup anchored at its unwrapped longitude. */
  function ClickPopup(e: ClickEvent): (r: Option<PopupContent>)
    ensures r.None? <==>
      e.features.None? || |e.features.value| == 0 || !e.features.value[0].geometry.RenderedPoint?
    ensures r.Some? ==>
      var f := e.features.value[0];
      && r.value.lat == f.geometry.lat
      && Abs(e.lng - r.value.lng) <= 180.0
      && r.value.lng == Copy(f.geometry.lng, Turns(f.geometry.lng, e.lng))
      && (Truthy(f.properties.name) ==> r.value.title == f.properties.name.value)
      && (!Truthy(f.properties.name) ==> r.value.title == UnknownLocation)
      && (Truthy(f.properties.status) ==> r.value.status == f.properties.status.value)
      && (!Truthy(f.properties.status) ==> r.value.status == NotAvailable)
      && r.value.ph == ShowPh(f.properties.ph)
      && r.value.sampleDate == FormatDate(f.properties.sampleDate)
      && r.value.retrieved == FormatDate(f.properties.dataRetrievalDate)
  {
    if e.features.None? || |e.features.value| == 0 then None
    else
      var f := e.features.value[0];
      match f.geometry
      case RenderedOther(_) => None
      case RenderedPoint(lng, lat) =>
        var p := f.properties;
        Some(PopupContent(
          Unwrap(lng, e.lng),
          lat,
          Or(p.name, UnknownLocation),
          Or(p.status, NotAvailable),
          ShowPh(p.ph),
          FormatDate(p.sampleDate),
          FormatDate(p.dataRetrievalDate)))
  }
}
