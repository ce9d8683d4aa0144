/** The map component's hold on the map library: creating the map once,
    tearing it down, binding the filtered collection to one named source and
    one circle layer (deferred until the style has loaded), and the click
    listener bookkeeping. The library itself is abstract: a map is its style
    flag, its sources and layers, the callbacks waiting for "style.load", and
    the number of click listeners on the point layer. */
module MapSurface {
  import opened Wrappers
  import opened GeoJson

  const SourceId := "swim-locations"
  const LayerId := "swim-points"

  /** The options the map is constructed with. */
  datatype MapOptions = MapOptions(style: string, centerLng: real, centerLat: real, zoom: int)

  const InitialOptions := MapOptions("mapbox://styles/mapbox/streets-v11", -118.2, 33.9, 9)

  /** The `circle-color` expression `["match", ["get", "status"], …, "gray"]`. */
  function CircleColor(status: Option<string>): (colour: string)
    ensures colour != "gray" <==> status.Some? && status.value in Statuses
    ensures status == Some("safe") ==> colour == "green"
    ensures status == Some("caution") ==> colour == "yellow"
    ensures status == Some("unsafe") ==> colour == "red"
  {
    match status
    case Some("safe") => "green"
    case Some("caution") => "yellow"
    case Some("unsafe") => "red"
    case _ => "gray"
  }

  /** Distinct statuses of the vocabulary are drawn in distinct colours. */
  lemma ColoursDistinguishStatuses(a: string, b: string)
    requires a in Statuses && b in Statuses && a != b
    ensures CircleColor(Some(a)) != CircleColor(Some(b))
  {
  }

  /** The paint of the point layer apart from its colour. */
  datatype CircleLayer = CircleLayer(source: string, radius: int, strokeWidth: int, strokeColor: string)

  const SwimPoints := CircleLayer(SourceId, 10, 3, "rgba(0, 0, 0, 0.2)")

  /** A live map. `onStyleLoad` holds the data of each bind registered with
      `once("style.load", …)`, in registration order. */
  datatype Surface = Surface(
    options: MapOptions,
    styleLoaded: bool,
    sources: map<string, FeatureCollection>,
    layers: map<string, CircleLayer>,
    onStyleLoad: seq<FeatureCollection>,
    clickListeners: nat)

  /** The component's refs: whether the container element exists, the map
      handle, and whether the click effect left a cleanup to run. */
  datatype Adapter = Adapter(hasContainer: bool, handle: Option<Surface>, clickCleanup: bool)

  function Mounted(hasContainer: bool): Adapter {
    Adapter(hasContainer, None, false)
  }

  /** The map invariant: at most the one source and the one layer, always
      together, the layer with its fixed paint, and nothing left waiting once
      the style has loaded. */
  predicate Consistent(s: Surface) {
    && s.sources.Keys <= {SourceId}
    && s.layers.Keys <= {LayerId}
    && (SourceId in s.sources <==> LayerId in s.layers)
    && (LayerId in s.layers ==> s.layers[LayerId] == SwimPoints)
    && (s.styleLoaded ==> s.onStyleLoad == [])
  }

  predicate Valid(a: Adapter) {
    a.handle.Some? ==> Consistent(a.handle.value)
  }

  /** The init effect: construct only with a container and no map yet; a
      throwing constructor leaves the handle empty. */
  function Create(a: Adapter, constructorThrows: bool): (r: Adapter)
    ensures !a.hasContainer || a.handle.Some? || constructorThrows ==> r == a
    ensures a.hasContainer && a.handle.None? && !constructorThrows ==>
      && r.handle.Some?
      && r.handle.value.options == InitialOptions
      && !r.handle.value.styleLoaded
      && r.handle.value.sources == map[] && r.handle.value.layers == map[]
      && r.handle.value.onStyleLoad == [] && r.handle.value.clickListeners == 0
    ensures r.hasContainer == a.hasContainer && r.clickCleanup == a.clickCleanup
  {
    if !a.hasContainer || a.handle.Some? then a
    else if constructorThrows then a
    else a.(handle := Some(Surface(InitialOptions, false, map[], map[], [], 0)))
  }

  /** The init effect's cleanup: remove the map and clear the handle. */
  function Teardown(a: Adapter): (r: Adapter)
    ensures r.handle.None? && r.hasContainer == a.hasContainer
    ensures Valid(r)
  {
    a.(handle := None)
  }

  /** `addSourceAndLayer`: the first call adds the source and the layer;
      later calls only swap the source's data. */
  function AddSourceAndLayer(s: Surface, data: FeatureCollection): (r: Surface)
    ensures SourceId in r.sources && r.sources[SourceId] == data
    ensures SourceId in s.sources ==> r.layers == s.layers
    ensures SourceId !in s.sources || LayerId in s.layers ==> LayerId in r.layers
    ensures forall id :: id in s.sources && id != SourceId ==> id in r.sources && r.sources[id] == s.sources[id]
    ensures r.sources.Keys == s.sources.Keys + {SourceId}
    ensures r.styleLoaded == s.styleLoaded && r.onStyleLoad == s.onStyleLoad
    ensures r.clickListeners == s.clickListeners && r.options == s.options
    ensures Consistent(s) ==> Consistent(r) && r.sources == map[SourceId := data]
  {
    if SourceId in s.sources then s.(sources := s.sources[SourceId := data])
    else
      s.(sources := s.sources[SourceId := data],
         layers := if LayerId in s.layers then s.layers else s.layers[LayerId := SwimPoints])
  }

  /** The bind effect: nothing without a map or data; otherwise bind now if
      the style is loaded, else register the bind once on "style.load". */
  function Bind(a: Adapter, data: Option<FeatureCollection>): (r: Adapter)
    ensures a.handle.None? || data.None? ==> r == a
    ensures a.handle.Some? && data.Some? && a.handle.value.styleLoaded ==>
      r.handle == Some(AddSourceAndLayer(a.handle.value, data.value))
    ensures a.handle.Some? && data.Some? && !a.handle.value.styleLoaded ==>
      r.handle == Some(a.handle.value.(onStyleLoad := a.handle.value.onStyleLoad + [data.value]))
    ensures r.hasContainer == a.hasContainer && r.clickCleanup == a.clickCleanup
    ensures Valid(a) ==> Valid(r)
  {
    if a.handle.None? || data.None? then a
    else
      var s := a.handle.value;
      if s.styleLoaded then a.(handle := Some(AddSourceAndLayer(s, data.value)))
      else a.(handle := Some(s.(onStyleLoad := s.onStyleLoad + [data.value])))
  }

  /** Runs the waiting binds in registration order. */
  function RunBinds(s: Surface, pending: seq<FeatureCollection>): (r: Surface)
    ensures |pending| == 0 ==> r == s
    ensures |pending| > 0 ==>
      && SourceId in r.sources
      && r.sources[SourceId] == pending[|pending| - 1]
      && (Consistent(s) ==> LayerId in r.layers)
    ensures r.styleLoaded == s.styleLoaded && r.onStyleLoad == s.onStyleLoad
    ensures r.clickListeners == s.clickListeners && r.options == s.options
    ensures Consistent(s) ==> Consistent(r)
    decreases |pending|
  {
    if |pending| == 0 then s
    else RunBinds(AddSourceAndLayer(s, pending[0]), pending[1..])
  }

  /** The "style.load" event: the style is loaded and every bind registered
      before it runs once, so the source ends up holding the last one's data. */
  function StyleLoad(a: Adapter): (r: Adapter)
    ensures a.handle.None? ==> r == a
    ensures a.handle.Some? ==>
      var s := a.handle.value;
      && r.handle.Some? && r.handle.value.styleLoaded && r.handle.value.onStyleLoad == []
      && (|s.onStyleLoad| == 0 ==> r.handle.value.sources == s.sources && r.handle.value.layers == s.layers)
      && (|s.onStyleLoad| > 0 ==>
            && (Consistent(s) ==> LayerId in r.handle.value.layers)
            && SourceId in r.handle.value.sources
            && r.handle.value.sources[SourceId] == s.onStyleLoad[|s.onStyleLoad| - 1])
    ensures Valid(a) ==> Valid(r)
  {
    if a.handle.None? then a
    else
      var s := a.handle.value;
      a.(handle := Some(RunBinds(s.(styleLoaded := true, onStyleLoad := []), s.onStyleLoad)))
  }

  /** The click effect: with a map and data, add a click listener on the
      point layer and leave a cleanup behind. */
  function AttachClick(a: Adapter, data: Option<FeatureCollection>): (r: Adapter)
    ensures a.handle.None? || data.None? ==> r == a.(clickCleanup := false)
    ensures a.handle.Some? && data.Some? ==>
      && r.clickCleanup
      && r.handle == Some(a.handle.value.(clickListeners := a.handle.value.clickListeners + 1))
  {
    if a.handle.None? || data.None? then a.(clickCleanup := false)
    else a.(handle := Some(a.handle.value.(clickListeners := a.handle.value.clickListeners + 1)),
            clickCleanup := true)
  }

  /** The click effect's cleanup: the listener is removed only if the point
      layer exists at that moment. */
  function DetachClick(a: Adapter): (r: Adapter)
    ensures !r.clickCleanup && r.hasContainer == a.hasContainer
    ensures a.clickCleanup && a.handle.Some? && LayerId in a.handle.value.layers && a.handle.value.clickListeners > 0 ==>
      r.handle == Some(a.handle.value.(clickListeners := a.handle.value.clickListeners - 1))
    ensures !a.clickCleanup || a.handle.None? || LayerId !in a.handle.value.layers ==>
      r.handle == a.handle
  {
    if !a.clickCleanup || a.handle.None? || LayerId !in a.handle.value.layers then a.(clickCleanup := false)
    else
      var s := a.handle.value;
      a.(handle := Some(s.(clickListeners := if s.clickListeners > 0 then s.clickListeners - 1 else 0)),
         clickCleanup := false)
  }

  /** A new filtered collection: the click cleanup runs, then the bind
      effect, then the click effect. */
  function DataChanged(a: Adapter, data: Option<FeatureCollection>): (r: Adapter)
    ensures r.hasContainer == a.hasContainer && r.handle.Some? == a.handle.Some?
    ensures r.clickCleanup <==> a.handle.Some? && data.Some?
    ensures a.handle.Some? ==>
      var s := a.handle.value;
      r.handle.value.clickListeners ==
        s.clickListeners
        - (if a.clickCleanup && LayerId in s.layers && s.clickListeners > 0 then 1 else 0)
        + (if data.Some? then 1 else 0)
    ensures a.handle.Some? && data.Some? && a.handle.value.styleLoaded ==>
      SourceId in r.handle.value.sources && r.handle.value.sources[SourceId] == data.value
    ensures a.handle.Some? && data.Some? && !a.handle.value.styleLoaded ==>
      r.handle.value.onStyleLoad == a.handle.value.onStyleLoad + [data.value]
    ensures Valid(a) ==> Valid(r)
  {
    AttachClick(Bind(DetachClick(a), data), data)
  }

  /** Binding the same collection twice leaves the map as binding it once. */
  lemma RebindIsIdempotent(a: Adapter, data: FeatureCollection)
    requires Valid(a) && a.handle.Some? && a.handle.value.styleLoaded
    ensures Bind(Bind(a, Some(data)), Some(data)) == Bind(a, Some(data))
    ensures var s := Bind(a, Some(data)).handle.value;
      s.sources == map[SourceId := data] && s.layers == map[LayerId := SwimPoints]
  {
    var s := Bind(a, Some(data)).handle.value;
    assert s.layers.Keys == {LayerId};
  }

  /** A valid map never holds more than one source and one layer. */
  lemma AtMostOneSourceAndLayer(s: Surface)
    requires Consistent(s)
    ensures |s.sources| <= 1 && |s.layers| <= 1
  {
    if SourceId in s.sources {
      assert s.sources.Keys == {SourceId};
    } else {
      assert s.sources.Keys == {};
    }
    if LayerId in s.layers {
      assert s.layers.Keys == {LayerId};
    } else {
      assert s.layers.Keys == {};
    }
  }

  /** The lifecycle events the component reacts to. */
  datatype Op = Mount(constructorThrows: bool) | Unmount | NewData(data: Option<FeatureCollection>) | StyleLoaded

  function Apply(a: Adapter, op: Op): Adapter {
    match op
    case Mount(t) => Create(a, t)
    case Unmount => Teardown(a)
    case NewData(d) => DataChanged(a, d)
    case StyleLoaded => StyleLoad(a)
  }

  function Replay(a: Adapter, ops: seq<Op>): Adapter
    decreases |ops|
  {
    if |ops| == 0 then a else Replay(Apply(a, ops[0]), ops[1..])
  }

  /** Every lifecycle event keeps the map invariant. */
  lemma ApplyKeepsValid(a: Adapter, op: Op)
    requires Valid(a)
    ensures Valid(Apply(a, op))
  {
    match op
    case Mount(t) =>
    case Unmount =>
    case NewData(d) =>
      var b := DetachClick(a);
      assert Valid(b);
      assert Valid(Bind(b, d));
    case StyleLoaded =>
  }

  /** Whatever happens after mounting, there is at most one map, holding at
      most the one source and the one layer. */
  lemma {:induction false} ReplayKeepsValid(hasContainer: bool, ops: seq<Op>)
    ensures Valid(Replay(Mounted(hasContainer), ops))
  {
    ReplayFromValid(Mounted(hasContainer), ops);
  }

  lemma {:induction false} ReplayFromValid(a: Adapter, ops: seq<Op>)
    requires Valid(a)
    ensures Valid(Replay(a, ops))
    decreases |ops|
  {
    if |ops| > 0 {
      ApplyKeepsValid(a, ops[0]);
      ReplayFromValid(Apply(a, ops[0]), ops[1..]);
    }
  }

  /** Once the style is loaded, the click effect keeps exactly one listener
      per attached handler: the cleanup always finds the layer. */
  predicate OneListener(a: Adapter) {
    && a.handle.Some?
    && a.handle.value.styleLoaded
    && Consistent(a.handle.value)
    && a.handle.value.clickListeners == (if a.clickCleanup then 1 else 0)
    && (a.clickCleanup ==> LayerId in a.handle.value.layers)
  }

  lemma DataChangedKeepsOneListener(a: Adapter, data: Option<FeatureCollection>)
    requires OneListener(a)
    ensures OneListener(DataChanged(a, data))
  {
    var b := DetachClick(a);
    assert b.handle.value.clickListeners == 0;
    var c := Bind(b, data);
    assert c.handle.value.clickListeners == 0 && c.handle.value.styleLoaded;
    assert data.Some? ==> LayerId in c.handle.value.layers;
  }

  /** Before the style has loaded the layer does not exist, so the cleanup
      skips removing the listener: two collections arriving before
      "style.load" leave two click listeners, and a click then opens two
      popups. */
  lemma ListenersAccumulateBeforeStyleLoad(d1: FeatureCollection, d2: FeatureCollection)
    ensures var a := DataChanged(DataChanged(Create(Mounted(true), false), Some(d1)), Some(d2));
      a.handle.Some? && a.handle.value.clickListeners == 2
  {
  }

  /** Loading the style does not recover a leaked listener: after two
      collections before "style.load" and two more after it, two click
      listeners remain. */
  lemma LeakedListenersOutliveStyleLoad(d1: FeatureCollection, d2: FeatureCollection, d3: FeatureCollection, d4: FeatureCollection)
    ensures var early := DataChanged(DataChanged(Create(Mounted(true), false), Some(d1)), Some(d2));
      var a := DataChanged(DataChanged(StyleLoad(early), Some(d3)), Some(d4));
      a.handle.Some? && a.handle.value.styleLoaded && a.handle.value.clickListeners == 2
  {
  }

  /** Only a cleanup that runs before "style.load" leaks: the last listener
      added before the load is removed by the first data change after it. */
  lemma LastEarlyListenerIsRemovedAfterStyleLoad(d1: FeatureCollection, d2: FeatureCollection)
    ensures var a := DataChanged(StyleLoad(DataChanged(Create(Mounted(true), false), Some(d1))), Some(d2));
      a.handle.Some? && a.handle.value.styleLoaded && a.handle.value.clickListeners == 1
  {
  }
}
