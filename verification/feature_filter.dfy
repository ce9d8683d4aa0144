/** The feature filter of the map component: which features of the loaded
    collection are handed to the map for a given filter selection. */
module FeatureFilter {
  import opened Wrappers
  import opened GeoJson
  import opened Sequences

  /** The `filters` property of the map component. An absent list places no
      restriction; a present list, even an empty one, admits only its members. */
  datatype Filters = Filters(region: Option<seq<string>>, status: Option<seq<string>>)

  /** `!list || list.includes(value || "")` */
  predicate Admits(list: Option<seq<string>>, value: Option<string>) {
    list.None? || Or(value, "") in list.value
  }

  /** Whether a feature survives the filter. */
  predicate Matches(filters: Filters, f: Feature) {
    Admits(filters.region, f.properties.region) && Admits(filters.status, f.properties.status)
  }

  /** `{...data, features: data.features.filter(...)}` */
  function ApplyFilters(data: FeatureCollection, filters: Filters): (r: FeatureCollection)
    ensures r.kind == data.kind && r.foreignMembers == data.foreignMembers
    ensures forall f :: f in r.features <==>
      && f in data.features
      && (filters.region.None? || Or(f.properties.region, "") in filters.region.value)
      && (filters.status.None? || Or(f.properties.status, "") in filters.status.value)
    ensures forall f :: multiset(r.features)[f] == (if Matches(filters, f) then multiset(data.features)[f] else 0)
  {
    data.(features := Filter(f => Matches(filters, f), data.features))
  }

  /** The kept features appear in the same relative order as in the input. */
  lemma ApplyFiltersKeepsOrder(data: FeatureCollection, filters: Filters)
    ensures IsSubsequence(ApplyFilters(data, filters).features, data.features)
  {
    FilterIsSubsequence(f => Matches(filters, f), data.features);
  }

  /** A present but empty list admits no value, so nothing is kept. */
  lemma EmptyListExcludesEverything(data: FeatureCollection, filters: Filters)
    requires filters.region == Some([]) || filters.status == Some([])
    ensures ApplyFilters(data, filters).features == []
  {
    var r := ApplyFilters(data, filters).features;
    assert forall f :: f !in r;
    assert multiset(r) == multiset{};
  }

  /** A feature with no region (absent or "") is kept by a region list only if
      that list contains "". */
  lemma MissingRegionComparedAsEmpty(filters: Filters, f: Feature)
    requires filters.region.Some? && !Truthy(f.properties.region)
    ensures Matches(filters, f) ==> "" in filters.region.value
  {
  }
}
