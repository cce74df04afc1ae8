/** The request handler (`RequestHandler`): statistics of one bus, the buses
    through one stop, and the map of the whole catalogue as an SVG document. */
module RequestHandler {
  import opened Wrappers
  import opened Geo
  import opened Strings
  import opened Catalogue
  import opened Svg
  import opened MapRenderer

  /** `domain::BusStat` without its curvature. */
  datatype BusStat = BusStat(routeLength: int, stopCount: int, uniqueStopCount: int)

  /** The distinct stops of a route. */
  function UniqueStops(route: seq<StopId>): set<StopId> {
    set s | s in route
  }

  /** A route of n stops has at least one and at most n distinct stops. */
  lemma {:induction false} UniqueStopsBounds(route: seq<StopId>)
    ensures route != [] ==> 1 <= |UniqueStops(route)|
    ensures |UniqueStops(route)| <= |route|
    decreases |route|
  {
    if route != [] {
      var init := route[..|route| - 1];
      UniqueStopsBounds(init);
      assert UniqueStops(route) == UniqueStops(init) + {route[|route| - 1]} by {
        assert route == init + [route[|route| - 1]];
      }
      assert route[|route| - 1] in UniqueStops(route);
    }
  }

  /** `GetBusStat`: nothing for an unknown bus; otherwise the stop count, the
      number of distinct stops and the road length, or the `out_of_range`
      that a missing distance throws out of the length. */
  method GetBusStat(db: TransportCatalogue, name: string) returns (r: Result<Option<BusStat>, LookupError>)
    requires db.Valid()
    requires name in db.busIndex ==> db.buses[db.busIndex[name]].route != []
    ensures r == Ok(None) <==> name !in db.busIndex
    ensures name in db.busIndex ==>
      var bus := db.buses[db.busIndex[name]];
      match RouteLength(db.distances, bus)
      case Err(e) => r == Err(e)
      case Ok(length) => r == Ok(Some(BusStat(length, CountStopsOnRoute(bus), |UniqueStops(bus.route)|)))
  {
    var found := db.GetBus(name);
    if found.None? {
      return Ok(None);
    }
    var bus := db.buses[found.value];
    var stopCount := CountStopsOnRoute(bus);
    var unique: set<StopId> := {};
    var i := 0;
    while i < |bus.route|
      invariant 0 <= i <= |bus.route|
      invariant unique == UniqueStops(bus.route[..i])
    {
      assert bus.route[..i + 1] == bus.route[..i] + [bus.route[i]];
      unique := unique + {bus.route[i]};
      i := i + 1;
    }
    assert bus.route[..i] == bus.route;
    var length := db.GetLengthRoute(bus);
    if length.Err? {
      return Err(length.error);
    }
    r := Ok(Some(BusStat(length.value, stopCount, |unique|)));
  }

  /** `GetBusesByStop`: the names of the buses calling at the named stop; an
      unknown stop name has none. */
  method GetBusesByStop(db: TransportCatalogue, stopName: string) returns (r: set<string>)
    requires db.Valid()
    ensures stopName !in db.stopIndex ==> r == {}
    ensures stopName in db.stopIndex ==>
      r == set b | 0 <= b < |db.buses| && db.stopIndex[stopName] in db.buses[b].route :: db.buses[b].name
  {
    var stop := db.GetStop(stopName);
    r := db.GetBusesContainingStop(stop);
  }

  /** The coordinates of the stops of a name-ordered stop map, in order. */
  function StopCoordinates(es: seq<(string, StopId)>, stops: seq<Stop>): (r: seq<Coordinates>)
    requires EntriesIn(es, |stops|)
  {
    seq(|es|, k requires 0 <= k < |es| => stops[es[k].1].coord)
  }

  /** `GetStopCoordinates`. */
  method GetStopCoordinates(es: seq<(string, StopId)>, stops: seq<Stop>) returns (coords: seq<Coordinates>)
    requires EntriesIn(es, |stops|)
    ensures coords == StopCoordinates(es, stops)
  {
    coords := [];
    var i := 0;
    while i < |es|
      invariant 0 <= i <= |es|
      invariant coords == StopCoordinates(es[..i], stops)
    {
      coords := coords + [stops[es[i].1].coord];
      i := i + 1;
    }
    assert es[..i] == es;
  }

  lemma ColoredRoutesIn(sorted: seq<Bus>, buses: seq<Bus>, palette: seq<Color>, n: nat)
    requires |palette| > 0 && multiset(sorted) == multiset(buses)
    requires forall b | 0 <= b < |buses| :: RouteIn(buses[b].route, n)
    ensures RoutesIn(Colored(sorted, palette), n)
  {
    forall i | 0 <= i < |sorted|
      ensures RouteIn(Colored(sorted, palette)[i].bus.route, n)
    {
      ColoredAt(sorted, palette, i);
      assert sorted[i] in multiset(buses);
      var b :| 0 <= b < |buses| && buses[b] == sorted[i];
    }
  }

  /** Every served stop is a stop of the catalogue. */
  lemma ServedEntriesIn(db: TransportCatalogue, es: seq<(string, StopId)>)
    requires db.Valid() && (set e | e in es) == db.ServedEntries()
    ensures EntriesIn(es, |db.stops|)
  {
    forall k | 0 <= k < |es|
      ensures es[k].1 < |db.stops|
    {
      assert es[k] in db.ServedEntries();
    }
  }

  /** `RenderMap`: the buses sorted by name and coloured, the served stops in
      name order, a projector built from exactly those stops' coordinates, and
      a document holding all route lines, then all route labels, then all stop
      circles, then all stop labels. */
  method RenderMap(db: TransportCatalogue, settings: RenderSettings, proj: SphereProjector -> Coordinates -> Point)
    returns (doc: Document, ghost sorted: seq<Bus>, ghost served: seq<(string, StopId)>)
    requires db.Valid() && |settings.palette| > 0
    ensures fresh(doc)
    ensures multiset(sorted) == multiset(db.buses) && SortedByBusName(sorted)
    ensures SortedByName(served) && (set e | e in served) == db.ServedEntries() && EntriesIn(served, |db.stops|)
    ensures RoutesIn(Colored(sorted, settings.palette), |db.stops|)
    ensures
      var project := proj(SphereProjector(StopCoordinates(served, db.stops), settings.svg.width, settings.svg.height, settings.svg.padding));
      var colors := Colored(sorted, settings.palette);
      doc.objects == RouteLines(colors, db.stops, project, settings) + RouteNames(colors, db.stops, project, settings)
                     + StopSymbols(served, db.stops, project, settings) + StopNames(served, db.stops, project, settings)
  {
    var buses := db.GetBuses();
    var a := new Bus[|buses|](i requires 0 <= i < |buses| => buses[i]);
    assert a[..] == buses;
    var colors := GetBusLineColor(a, settings);
    sorted := a[..];
    ColoredRoutesIn(sorted, db.buses, settings.palette, |db.stops|);
    var stops := db.GetStopsContainingAnyBus();
    served := stops;
    ServedEntriesIn(db, stops);
    var coords := GetStopCoordinates(stops, db.stops);
    var project := proj(SphereProjector(coords, settings.svg.width, settings.svg.height, settings.svg.padding));
    var routeLines := RouteLines(colors, db.stops, project, settings);
    var routeNames := RouteNames(colors, db.stops, project, settings);
    var stopSymbols := StopSymbols(stops, db.stops, project, settings);
    var stopNames := StopNames(stops, db.stops, project, settings);

    doc := new Document();
    AddAll(doc, routeLines);
    assert doc.objects == routeLines;
    AddAll(doc, routeNames);
    AddAll(doc, stopSymbols);
    AddAll(doc, stopNames);
    assert doc.objects == routeLines + routeNames + stopSymbols + stopNames;
  }

  /** One of the four loops of `RenderMap`: add each shape of a layer, in
      order, after those already in the document. */
  method AddAll(doc: Document, layer: seq<Object>)
    modifies doc
    ensures doc.objects == old(doc.objects) + layer
  {
    var i := 0;
    while i < |layer|
      invariant 0 <= i <= |layer|
      invariant doc.objects == old(doc.objects) + layer[..i]
    {
      doc.AddPtr(layer[i]);
      assert layer[..i + 1] == layer[..i] + [layer[i]];
      i := i + 1;
    }
    assert layer[..i] == layer;
  }
}
