/** How the pieces meet in the application: the root starts with no filters,
    the filter panel's emissions become the map's filters, and the converted
    file is what the map draws. */
module App {
  import opened Wrappers
  import opened GeoJson
  import opened Sequences
  import opened FeatureFilter
  import opened FilterSelection
  import opened MapSurface
  import opened ConvertToGeoJson

  /** The root's initial `{}`: neither list present. */
  const InitialFilters := Filters(None, None)

  /** Before any checkbox event both lists are absent, and the map shows the
      whole collection unchanged. */
  lemma InitialFiltersShowEverything(data: FeatureCollection)
    ensures ApplyFilters(data, InitialFilters) == data
  {
    FilterKeepsAll(f => Matches(InitialFilters, f), data.features);
  }

  /** Every emission carries both lists, so a group nobody has touched arrives
      as a present empty list: the first checkbox event of a session, whatever
      it is, yields an emission whose filtered collection is empty. */
  lemma FirstToggleHidesEverything(data: FeatureCollection, e: Event)
    ensures ApplyFilters(data, Step(Initial(), e).emitted).features == []
  {
    var f := Step(Initial(), e).emitted;
    match e
    case RegionToggle(_, _) =>
      assert f.status == Some([]);
      EmptyListExcludesEverything(data, f);
    case StatusToggle(_, _) =>
      assert f.region == Some([]);
      EmptyListExcludesEverything(data, f);
  }

  /** After any checkbox event the collection filtered for that emission
      keeps exactly the input features whose region and status are both
      selected. Whether the map binds this collection depends on the order
      in which fetches resolve, which is outside the model. */
  lemma SelectionDecidesVisibility(data: FeatureCollection, s: Selection, e: Event, f: Feature)
    ensures var t := Step(s, e).state;
      f in ApplyFilters(data, Step(s, e).emitted).features <==>
        f in data.features && Or(f.properties.region, "") in t.region && Or(f.properties.status, "") in t.status
  {
    EmissionCarriesBothLists(s, e);
  }

  /** Every converted feature has a status of the vocabulary, so none is drawn gray. */
  lemma ConvertedFeaturesAreNeverGray(records: seq<RawRecord>, parse: string -> Option<real>, f: Feature)
    requires f in Convert(records, parse).features
    ensures CircleColor(f.properties.status) != "gray"
  {
    ConvertedFeaturesAreWellFormed(records, parse, f);
  }

  function Site(status: Option<string>, region: Option<string>): Feature {
    Feature("Feature", Point([Some(-118.0), Some(34.0)]),
      Properties(None, status, None, None, None, region))
  }

  /** Three sites (safe in LA, unsafe in OC, caution without region) under
      regions ["LA"] and statuses ["safe", "caution"]: only the first remains. */
  lemma ThreeSiteExample()
    ensures var data := FeatureCollection("FeatureCollection", map[], [
        Site(Some("safe"), Some("LA")),
        Site(Some("unsafe"), Some("OC")),
        Site(Some("caution"), None)]);
      ApplyFilters(data, Filters(Some(["LA"]), Some(["safe", "caution"]))).features
        == [Site(Some("safe"), Some("LA"))]
  {
    var filters := Filters(Some(["LA"]), Some(["safe", "caution"]));
    var a, b, c := Site(Some("safe"), Some("LA")), Site(Some("unsafe"), Some("OC")), Site(Some("caution"), None);
    assert Matches(filters, a);
    assert !Matches(filters, b) by {
      assert "unsafe" !in ["safe", "caution"];
    }
    assert !Matches(filters, c) by {
      assert "" !in ["LA"];
    }
    var r := ApplyFilters(FeatureCollection("FeatureCollection", map[], [a, b, c]), filters).features;
    assert multiset(r) == multiset{a};
    assert |r| == 1;
    assert r[0] in r;
  }
}
