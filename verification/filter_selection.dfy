/** The checkbox filter panel: the selected regions and statuses, how one
    checkbox toggle changes them, what is handed to the map, and which boxes
    render as checked. */
module FilterSelection {
  import opened Wrappers
  import opened GeoJson
  import opened Sequences
  import opened FeatureFilter

  /** The `name` of the "All" checkbox in both groups. */
  const AllName := "all"

  /** The component state: the two selected lists. */
  datatype Selection = Selection(region: seq<string>, status: seq<string>)

  /** What a toggle produces: the new state and the selection handed to the parent. */
  datatype Change = Change(state: Selection, emitted: Filters)

  /** Both lists start empty. */
  function Initial(): Selection {
    Selection([], [])
  }

  /** The list of one group after the checkbox `name` reports `checked`:
      "all" sets the whole group or clears it, any other name is appended or
      has every occurrence removed. */
  function Toggle(list: seq<string>, options: seq<string>, name: string, checked: bool): (r: seq<string>)
    ensures name == AllName && checked ==> r == options
    ensures name == AllName && !checked ==> r == []
    ensures name != AllName && checked ==> |r| == |list| + 1 && r[..|list|] == list && r[|list|] == name
    ensures name != AllName && !checked ==> forall x :: x in r <==> x in list && x != name
    ensures name != AllName && !checked ==>
      forall x :: multiset(r)[x] == (if x == name then 0 else multiset(list)[x])
  {
    if name == AllName then (if checked then options else [])
    else if checked then list + [name]
    else Filter(x => x != name, list)
  }

  /** Unchecking keeps the remaining entries in their order. */
  lemma UncheckKeepsOrder(list: seq<string>, options: seq<string>, name: string)
    requires name != AllName
    ensures IsSubsequence(Toggle(list, options, name, false), list)
  {
    FilterIsSubsequence(x => x != name, list);
  }

  /** The selection handed to the map: both lists, always present. */
  function AsFilters(s: Selection): (f: Filters)
    ensures f.region == Some(s.region) && f.status == Some(s.status)
  {
    Filters(Some(s.region), Some(s.status))
  }

  /** `handleRegionChange` */
  function HandleRegionChange(s: Selection, name: string, checked: bool): (c: Change)
    ensures c.state.status == s.status
    ensures name == AllName ==> c.state.region == (if checked then ["LA", "OC"] else [])
    ensures name != AllName && checked ==> c.state.region == s.region + [name]
    ensures name != AllName && !checked ==> forall x :: x in c.state.region <==> x in s.region && x != name
    ensures c.state.region == Toggle(s.region, Regions, name, checked)
    ensures c.emitted == Filters(Some(c.state.region), Some(s.status))
  {
    var region := Toggle(s.region, Regions, name, checked);
    Change(s.(region := region), AsFilters(s.(region := region)))
  }

  /** `handleStatusChange` */
  function HandleStatusChange(s: Selection, name: string, checked: bool): (c: Change)
    ensures c.state.region == s.region
    ensures name == AllName ==> c.state.status == (if checked then ["safe", "caution", "unsafe"] else [])
    ensures name != AllName && checked ==> c.state.status == s.status + [name]
    ensures name != AllName && !checked ==> forall x :: x in c.state.status <==> x in s.status && x != name
    ensures c.state.status == Toggle(s.status, Statuses, name, checked)
    ensures c.emitted == Filters(Some(s.region), Some(c.state.status))
  {
    var status := Toggle(s.status, Statuses, name, checked);
    Change(s.(status := status), AsFilters(s.(status := status)))
  }

  /** `checked={regionFilters.length === 2}`: for a well-formed list, exactly
      when both regions are selected. */
  predicate AllRegionsChecked(s: Selection): (b: bool)
    ensures WellFormed(s.region, Regions) ==> (b <==> forall x :: x in Regions ==> x in s.region)
  {
    OptionsAreDistinct();
    AllCheckedMeaning(s.region, Regions);
    |s.region| == 2
  }

  /** `checked={statusFilters.length === 3}`: for a well-formed list, exactly
      when all three statuses are selected. */
  predicate AllStatusesChecked(s: Selection): (b: bool)
    ensures WellFormed(s.status, Statuses) ==> (b <==> forall x :: x in Statuses ==> x in s.status)
  {
    OptionsAreDistinct();
    AllCheckedMeaning(s.status, Statuses);
    |s.status| == 3
  }

  /** `checked={list.includes(name)}` for an individual box. */
  predicate ItemChecked(list: seq<string>, name: string) {
    name in list
  }

  /** An item box that reports `checked` renders that state afterwards, and
      no other item box of the group changes; the "All" box sets every item
      box of the group to what it reported. */
  lemma ToggleSetsItemChecked(list: seq<string>, options: seq<string>, name: string, checked: bool, x: string)
    ensures var r := Toggle(list, options, name, checked);
      name != AllName ==> ItemChecked(r, name) == checked
    ensures var r := Toggle(list, options, name, checked);
      name != AllName && x != name ==> ItemChecked(r, x) == ItemChecked(list, x)
    ensures var r := Toggle(list, options, name, checked);
      name == AllName && x in options ==> ItemChecked(r, x) == checked
  {
  }

  /** A list the checkboxes can show faithfully: no repeats, only offered values. */
  predicate WellFormed(list: seq<string>, options: seq<string>) {
    NoDuplicates(list) && forall x :: x in list ==> x in options
  }

  /** A toggle as a controlled checkbox delivers it: a box of the group,
      reporting the opposite of how it is rendered. */
  predicate Controlled(list: seq<string>, options: seq<string>, name: string, checked: bool) {
    if name == AllName then checked == (|list| != |options|)
    else name in options && checked == !ItemChecked(list, name)
  }

  lemma ControlledToggleKeepsWellFormed(list: seq<string>, options: seq<string>, name: string, checked: bool)
    requires NoDuplicates(options) && WellFormed(list, options)
    requires Controlled(list, options, name, checked)
    ensures WellFormed(Toggle(list, options, name, checked), options)
  {
    var r := Toggle(list, options, name, checked);
    if name != AllName {
      if checked {
        forall i, j | 0 <= i < j < |r| ensures r[i] != r[j] {
          if j == |list| {
            assert r[i] == list[i] && list[i] in list;
          } else {
            assert r[i] == list[i] && r[j] == list[j];
          }
        }
      } else {
        FilterKeepsNoDuplicates(x => x != name, list);
      }
    }
  }

  /** For a well-formed list, "all" renders checked exactly when every
      option of the group is selected. */
  lemma {:induction false} AllCheckedIffEverySelected(list: seq<string>, options: seq<string>)
    requires NoDuplicates(options) && WellFormed(list, options)
    ensures |list| == |options| <==> forall x :: x in options ==> x in list
  {
    NoDuplicatesCard(list);
    NoDuplicatesCard(options);
    assert Elems(list) <= Elems(options);
    if |list| == |options| {
      var missing := Elems(options) - Elems(list);
      assert Elems(options) == Elems(list) + missing;
      assert |Elems(options)| == |Elems(list)| + |missing|;
      assert missing == {};
      forall x | x in options ensures x in list {
        assert x in Elems(options);
      }
    }
    if forall x :: x in options ==> x in list {
      assert Elems(options) <= Elems(list);
      assert Elems(list) == Elems(options);
    }
  }

  /** The same fact for any list, holding whenever the list is well formed. */
  lemma AllCheckedMeaning(list: seq<string>, options: seq<string>)
    requires NoDuplicates(options)
    ensures WellFormed(list, options) ==> (|list| == |options| <==> forall x :: x in options ==> x in list)
  {
    if WellFormed(list, options) {
      AllCheckedIffEverySelected(list, options);
    }
  }

  /** One checkbox event of either group. */
  datatype Event = RegionToggle(name: string, checked: bool) | StatusToggle(name: string, checked: bool)

  /** Dispatches an event to its group's handler: the other group's list is
      unchanged, and the emission carries the new state's two lists. */
  function Step(s: Selection, e: Event): (c: Change)
    ensures e.RegionToggle? ==> c.state.status == s.status && c.state.region == Toggle(s.region, Regions, e.name, e.checked)
    ensures e.StatusToggle? ==> c.state.region == s.region && c.state.status == Toggle(s.status, Statuses, e.name, e.checked)
    ensures c.emitted == AsFilters(c.state)
  {
    match e
    case RegionToggle(name, checked) => HandleRegionChange(s, name, checked)
    case StatusToggle(name, checked) => HandleStatusChange(s, name, checked)
  }

  /** Every emission carries both lists, and they are the new state's lists. */
  lemma EmissionCarriesBothLists(s: Selection, e: Event)
    ensures Step(s, e).emitted.region.Some? && Step(s, e).emitted.status.Some?
    ensures Step(s, e).emitted == AsFilters(Step(s, e).state)
  {
  }

  /** The state after a sequence of events. */
  function Run(s: Selection, es: seq<Event>): Selection
    decreases |es|
  {
    if |es| == 0 then s else Run(Step(s, es[0]).state, es[1..])
  }

  /** Every event of the sequence is delivered by a controlled checkbox in the
      state it arrives in. */
  predicate ControlledRun(s: Selection, es: seq<Event>)
    decreases |es|
  {
    if |es| == 0 then true
    else
      && (match es[0]
          case RegionToggle(name, checked) => Controlled(s.region, Regions, name, checked)
          case StatusToggle(name, checked) => Controlled(s.status, Statuses, name, checked))
      && ControlledRun(Step(s, es[0]).state, es[1..])
  }

  predicate WellFormedSelection(s: Selection) {
    WellFormed(s.region, Regions) && WellFormed(s.status, Statuses)
  }

  lemma OptionsAreDistinct()
    ensures NoDuplicates(Regions) && NoDuplicates(Statuses)
  {
  }

  /** One controlled event keeps both lists well formed. */
  lemma ControlledStepKeepsWellFormed(s: Selection, e: Event)
    requires WellFormedSelection(s) && ControlledRun(s, [e])
    ensures WellFormedSelection(Step(s, e).state)
  {
    OptionsAreDistinct();
    match e
    case RegionToggle(name, checked) =>
      ControlledToggleKeepsWellFormed(s.region, Regions, name, checked);
    case StatusToggle(name, checked) =>
      ControlledToggleKeepsWellFormed(s.status, Statuses, name, checked);
  }

  lemma {:induction false} ControlledRunKeepsWellFormed(s: Selection, es: seq<Event>)
    requires WellFormedSelection(s) && ControlledRun(s, es)
    ensures WellFormedSelection(Run(s, es))
    decreases |es|
  {
    if |es| > 0 {
      var next := Step(s, es[0]).state;
      assert ControlledRun(s, [es[0]]);
      ControlledStepKeepsWellFormed(s, es[0]);
      ControlledRunKeepsWellFormed(next, es[1..]);
      assert Run(s, es) == Run(next, es[1..]);
    }
  }

  /** From the initial state, under controlled checkboxes, the "all" boxes
      render checked exactly when every option of their group is selected. */
  lemma ReachableAllCheckedMeansEverySelected(es: seq<Event>)
    requires ControlledRun(Initial(), es)
    ensures var s := Run(Initial(), es);
      && (AllRegionsChecked(s) <==> forall x :: x in Regions ==> ItemChecked(s.region, x))
      && (AllStatusesChecked(s) <==> forall x :: x in Statuses ==> ItemChecked(s.status, x))
  {
    ControlledRunKeepsWellFormed(Initial(), es);
    OptionsAreDistinct();
    var s := Run(Initial(), es);
    AllCheckedMeaning(s.region, Regions);
    AllCheckedMeaning(s.status, Statuses);
  }

  /** Nothing renders checked before the first event. */
  lemma InitiallyNothingChecked(name: string)
    ensures Initial().region == [] && Initial().status == []
    ensures !AllRegionsChecked(Initial()) && !AllStatusesChecked(Initial())
    ensures !ItemChecked(Initial().region, name) && !ItemChecked(Initial().status, name)
  {
  }
}
