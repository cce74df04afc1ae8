/** The transport catalogue (`transport_catalogue::TransportCatalogue`): stops
    and buses kept in append-only stores, name indexes into them, the index
    from each stop to the buses that call at it, and measured road distances
    between ordered pairs of stops.

    A `const Stop*` or `const Bus*` into the catalogue's deques is modelled by
    the position of the stop or bus in its store: the deques only ever grow at
    the back, so a position names one stored object for good, and two pointers
    are equal exactly when the positions are. */
module Catalogue {
  import opened Wrappers
  import opened Geo
  import opened Strings

  /** The position of a stop in `stops_`: the identity of a `const Stop*`. */
  type StopId = nat
  /** The position of a bus in `buses_`: the identity of a `const Bus*`. */
  type BusId = nat

  /** `domain::TypeRoute`: a circular route is driven as listed; a linear one
      is driven to its last stop and back. */
  datatype RouteType = Circular | Linear

  datatype Stop = Stop(name: string, coord: Coordinates)

  datatype Bus = Bus(name: string, kind: RouteType, route: seq<StopId>)

  /** The `std::out_of_range` that `unordered_map::at` throws on a missing key. */
  datatype LookupError = OutOfRange

  // ----- The stop -> buses index -----

  function Get(m: map<StopId, seq<BusId>>, s: StopId): seq<BusId> {
    if s in m then m[s] else []
  }

  /** What the second loop of `AddBus` does to `stop_to_buses_`: append the
      new bus under each stop of its route, once per occurrence, in order. */
  function AddVisits(m: map<StopId, seq<BusId>>, route: seq<StopId>, id: BusId): map<StopId, seq<BusId>>
    decreases |route|
  {
    if route == [] then m
    else
      var m' := AddVisits(m, route[..|route| - 1], id);
      var s := route[|route| - 1];
      m'[s := Get(m', s) + [id]]
  }

  /** The index that a sequence of `AddBus` calls builds from nothing. */
  function Visits(buses: seq<Bus>): map<StopId, seq<BusId>>
    decreases |buses|
  {
    if buses == [] then map[]
    else AddVisits(Visits(buses[..|buses| - 1]), buses[|buses| - 1].route, |buses| - 1)
  }

  function Count(route: seq<StopId>, s: StopId): nat {
    multiset(route)[s]
  }

  function Repeat(id: BusId, k: nat): (r: seq<BusId>)
    ensures |r| == k && forall i | 0 <= i < k :: r[i] == id
  {
    seq(k, _ => id)
  }

  /** The reference definition of the index entry of stop `s`: each bus, in
      insertion order, once per time its route calls at `s`. */
  function Occurrences(buses: seq<Bus>, s: StopId): seq<BusId>
    decreases |buses|
  {
    if buses == [] then []
    else Occurrences(buses[..|buses| - 1], s) + Repeat(|buses| - 1, Count(buses[|buses| - 1].route, s))
  }

  lemma {:induction false} AddVisitsAt(m: map<StopId, seq<BusId>>, route: seq<StopId>, id: BusId, s: StopId)
    ensures Get(AddVisits(m, route, id), s) == Get(m, s) + Repeat(id, Count(route, s))
    ensures s in AddVisits(m, route, id) <==> s in m || s in route
    decreases |route|
  {
    if route == [] {
      assert Get(m, s) + Repeat(id, 0) == Get(m, s);
    } else {
      var p, x := route[..|route| - 1], route[|route| - 1];
      AddVisitsAt(m, p, id, s);
      CountSnoc(route, s);
      if s == x {
        RepeatSnoc(id, Count(p, s));
      }
    }
  }

  lemma CountSnoc(route: seq<StopId>, s: StopId)
    requires route != []
    ensures Count(route, s) == Count(route[..|route| - 1], s) + (if s == route[|route| - 1] then 1 else 0)
  {
    var p, x := route[..|route| - 1], route[|route| - 1];
    assert route == p + [x];
    assert multiset(route) == multiset(p) + multiset{x};
  }

  lemma RepeatSnoc(id: BusId, k: nat)
    ensures Repeat(id, k) + [id] == Repeat(id, k + 1)
  {
  }

  /** The index that `AddBus` keeps is the reference one: under each stop, the
      buses calling there, once per call, in insertion order; and a stop has
      an entry exactly when some bus calls there. */
  lemma {:induction false} VisitsAreOccurrences(buses: seq<Bus>, s: StopId)
    ensures Get(Visits(buses), s) == Occurrences(buses, s)
    ensures s in Visits(buses) <==> exists b | 0 <= b < |buses| :: s in buses[b].route
    decreases |buses|
  {
    if buses != [] {
      var p, last := buses[..|buses| - 1], buses[|buses| - 1];
      VisitsAreOccurrences(p, s);
      AddVisitsAt(Visits(p), last.route, |p|, s);
      if s in Visits(buses) && s !in last.route {
        var b :| 0 <= b < |p| && s in p[b].route;
        assert buses[b] == p[b];
      }
    }
  }

  /** A bus is listed under a stop exactly when its route calls there. */
  lemma {:induction false} OccurrencesMembers(buses: seq<Bus>, s: StopId, id: BusId)
    ensures id in Occurrences(buses, s) <==> id < |buses| && s in buses[id].route
    decreases |buses|
  {
    if buses != [] {
      var p, last := buses[..|buses| - 1], buses[|buses| - 1];
      OccurrencesMembers(p, s, id);
      var k := Count(last.route, s);
      if id in Repeat(|p|, k) {
        var i :| 0 <= i < k && Repeat(|p|, k)[i] == id;
      }
      if k > 0 {
        assert Repeat(|p|, k)[0] == |p|;
      }
      if id < |p| {
        assert buses[id] == p[id];
      }
    }
  }

  /** The number of times a bus is listed under a stop is the number of
      times its route calls there. */
  lemma {:induction false} OccurrencesCount(buses: seq<Bus>, s: StopId, id: BusId)
    requires id < |buses|
    ensures multiset(Occurrences(buses, s))[id] == Count(buses[id].route, s)
    decreases |buses|
  {
    var p, last := buses[..|buses| - 1], buses[|buses| - 1];
    var k := Count(last.route, s);
    assert multiset(Occurrences(buses, s)) == multiset(Occurrences(p, s)) + multiset(Repeat(|p|, k));
    if id < |p| {
      OccurrencesCount(p, s, id);
      assert buses[id] == p[id];
      assert id !in Repeat(|p|, k);
    } else {
      OccurrencesMembers(p, s, id);
      RepeatCount(|p|, k);
    }
  }

  lemma {:induction false} RepeatCount(id: BusId, k: nat)
    ensures multiset(Repeat(id, k))[id] == k
  {
    if k > 0 {
      assert Repeat(id, k) == Repeat(id, k - 1) + [id];
      RepeatCount(id, k - 1);
    }
  }

  // ----- Distances -----

  /** `GetRealLengthRoute(from, to)`: the distance stored for (from, to), else
      the one stored for (to, from); `at` throws if neither is stored. */
  function Distance(d: map<(StopId, StopId), int>, from: StopId, to: StopId): (r: Result<int, LookupError>)
    ensures r.Ok? <==> (from, to) in d || (to, from) in d
    ensures (from, to) in d ==> r == Ok(d[(from, to)])
    ensures (from, to) !in d && (to, from) in d ==> r == Ok(d[(to, from)])
  {
    if (from, to) !in d then
      if (to, from) in d then Ok(d[(to, from)]) else Err(OutOfRange)
    else Ok(d[(from, to)])
  }

  /** Storing a distance for (a, b) fixes the a-to-b distance, fixes the
      b-to-a distance only if none was stored for (b, a), and changes no
      other lookup. */
  lemma DistanceAfterStore(d: map<(StopId, StopId), int>, a: StopId, b: StopId, x: int, p: StopId, q: StopId)
    ensures Distance(d[(a, b) := x], a, b) == Ok(x)
    ensures Distance(d[(a, b) := x], b, a) == if (b, a) in d && (b, a) != (a, b) then Ok(d[(b, a)]) else Ok(x)
    ensures (p, q) != (a, b) && (q, p) != (a, b) ==> Distance(d[(a, b) := x], p, q) == Distance(d, p, q)
  {
  }

  /** The consecutive pairs of a sequence of stops: the legs driven. */
  function Legs(stops: seq<StopId>): (r: seq<(StopId, StopId)>)
    ensures |stops| > 0 ==> |r| == |stops| - 1
    ensures |stops| == 0 ==> r == []
    ensures forall i | 0 <= i < |r| :: r[i] == (stops[i], stops[i + 1])
  {
    if |stops| <= 1 then [] else seq(|stops| - 1, i requires 0 <= i < |stops| - 1 => (stops[i], stops[i + 1]))
  }

  /** The total length of some legs, each looked up with `Distance`; a
      missing distance makes the whole sum throw. */
  function LegsLength(d: map<(StopId, StopId), int>, legs: seq<(StopId, StopId)>): Result<int, LookupError>
    decreases |legs|
  {
    if legs == [] then Ok(0)
    else
      var last := legs[|legs| - 1];
      match LegsLength(d, legs[..|legs| - 1])
      case Err(e) => Err(e)
      case Ok(n) =>
        match Distance(d, last.0, last.1)
        case Err(e) => Err(e)
        case Ok(x) => Ok(n + x)
  }

  /** The sum is defined exactly when every leg's distance is stored one way
      or the other. */
  lemma {:induction false} LegsLengthOk(d: map<(StopId, StopId), int>, legs: seq<(StopId, StopId)>)
    ensures LegsLength(d, legs).Ok? <==> forall i | 0 <= i < |legs| :: Distance(d, legs[i].0, legs[i].1).Ok?
    decreases |legs|
  {
    if legs != [] {
      var init := legs[..|legs| - 1];
      LegsLengthOk(d, init);
      assert forall i | 0 <= i < |init| :: init[i] == legs[i];
    }
  }

  /** Adding two possibly failed sums. */
  function Plus(a: Result<int, LookupError>, b: Result<int, LookupError>): Result<int, LookupError> {
    if a.Err? then a else if b.Err? then b else Ok(a.value + b.value)
  }

  lemma {:induction false} LegsLengthConcat(d: map<(StopId, StopId), int>, a: seq<(StopId, StopId)>, b: seq<(StopId, StopId)>)
    ensures LegsLength(d, a + b) == Plus(LegsLength(d, a), LegsLength(d, b))
    decreases |b|
  {
    if b == [] {
      assert a + b == a;
    } else {
      var b', l := b[..|b| - 1], b[|b| - 1];
      assert (a + b)[..|a + b| - 1] == a + b';
      LegsLengthConcat(d, a, b');
    }
  }

  /** `GetLengthRoute`: the legs in the listed order, then, for a linear
      route, the legs of the way back. A circular route gets no closing leg
      from its last stop to its first. */
  function RouteLength(d: map<(StopId, StopId), int>, bus: Bus): Result<int, LookupError> {
    var forward := LegsLength(d, Legs(bus.route));
    if bus.kind == Linear then Plus(forward, LegsLength(d, Legs(Reverse(bus.route)))) else forward
  }

  function Reverse<T>(s: seq<T>): (r: seq<T>)
    ensures |r| == |s| && forall i | 0 <= i < |s| :: r[i] == s[|s| - 1 - i]
  {
    seq(|s|, i requires 0 <= i < |s| => s[|s| - 1 - i])
  }

  /** The stops a bus calls at on one trip, in order: the route itself for a
      circular route; out and back, the far end once, for a linear one. */
  function ServicePath(bus: Bus): (r: seq<StopId>)
    requires |bus.route| > 0
    ensures |r| >= |bus.route| && r[..|bus.route|] == bus.route
    ensures r[|r| - 1] == bus.route[if bus.kind == Circular then |bus.route| - 1 else 0]
  {
    if bus.kind == Circular then bus.route else bus.route + Reverse(bus.route)[1..]
  }

  /** `GetCountStopsOnRouts`: n stops for a circular route of n, 2n - 1 for a
      linear one. */
  function CountStopsOnRoute(bus: Bus): (r: int)
    requires |bus.route| > 0
    ensures bus.kind == Circular ==> r == |bus.route|
    ensures bus.kind == Linear ==> r == 2 * |bus.route| - 1
  {
    if bus.kind == Linear then |bus.route| * 2 - 1 else |bus.route|
  }

  /** The stop count is the number of calls on one trip. */
  lemma StopCountIsServicePath(bus: Bus)
    requires |bus.route| > 0
    ensures CountStopsOnRoute(bus) == |ServicePath(bus)|
  {
  }

  lemma LegsConcat(a: seq<StopId>, b: seq<StopId>)
    requires a != [] && b != []
    ensures Legs(a + b) == Legs(a) + [(a[|a| - 1], b[0])] + Legs(b)
  {
    var l, r := Legs(a + b), Legs(a) + [(a[|a| - 1], b[0])] + Legs(b);
    assert |l| == |r|;
    forall i | 0 <= i < |l|
      ensures l[i] == r[i]
    {
      if i < |a| - 1 {
        assert r[i] == Legs(a)[i];
      } else if i == |a| - 1 {
        assert r[i] == (a[|a| - 1], b[0]);
      } else {
        assert r[i] == Legs(b)[i - |a|];
      }
    }
  }

  /** The route length is the length driven along the service path: for a
      linear route, out along the route and back along its reverse. */
  lemma RouteLengthAlongServicePath(d: map<(StopId, StopId), int>, bus: Bus)
    requires |bus.route| > 0
    ensures RouteLength(d, bus) == LegsLength(d, Legs(ServicePath(bus)))
  {
    if bus.kind == Linear && |bus.route| > 1 {
      ServicePathLegs(bus);
      LegsLengthConcat(d, Legs(bus.route), Legs(Reverse(bus.route)));
    } else if bus.kind == Linear {
      assert Legs(Reverse(bus.route)) == [];
      assert Reverse(bus.route)[1..] == [];
      assert ServicePath(bus) == bus.route;
    }
  }

  /** The legs of a linear trip are the legs out, then the legs of the way back. */
  lemma ServicePathLegs(bus: Bus)
    requires bus.kind == Linear && |bus.route| > 1
    ensures Legs(ServicePath(bus)) == Legs(bus.route) + Legs(Reverse(bus.route))
  {
    var r := bus.route;
    var back := Reverse(r)[1..];
    var turn := (r[|r| - 1], back[0]);
    assert ServicePath(bus) == r + back;
    assert Reverse(r) == [r[|r| - 1]] + back;
    LegsConcat(r, back);
    LegsConcat([r[|r| - 1]], back);
    assert Legs([r[|r| - 1]]) == [];
    assert Legs(Reverse(r)) == [turn] + Legs(back);
    assert Legs(r) + [turn] + Legs(back) == Legs(r) + ([turn] + Legs(back));
  }

  /** Distances that read the same both ways on every leg of the route. */
  predicate TwoWay(d: map<(StopId, StopId), int>, route: seq<StopId>) {
    forall i | 0 <= i < |route| - 1 :: Distance(d, route[i], route[i + 1]) == Distance(d, route[i + 1], route[i])
  }

  /** With the same distance both ways on every leg, the way back is as long
      as the way out, and a linear route is twice its listed length. */
  lemma {:induction false} WayBackAsLong(d: map<(StopId, StopId), int>, route: seq<StopId>)
    requires TwoWay(d, route)
    ensures LegsLength(d, Legs(Reverse(route))) == LegsLength(d, Legs(route))
    decreases |route|
  {
    if |route| > 1 {
      var p, x := route[..|route| - 1], route[|route| - 1];
      var y := p[|p| - 1];
      assert p + [x] == route;
      TwoWayPrefix(d, route);
      WayBackAsLong(d, p);
      var a := LegsLength(d, Legs(p));
      var one := LegsLength(d, [(y, x)]);
      assert one == LegsLength(d, [(x, y)]) by {
        assert route[|route| - 2] == y;
        LegsLengthOne(d, (x, y));
        LegsLengthOne(d, (y, x));
      }
      WayBackStep(d, p, x, a, one);
    }
  }

  lemma WayBackStep(d: map<(StopId, StopId), int>, p: seq<StopId>, x: StopId, a: Result<int, LookupError>, one: Result<int, LookupError>)
    requires p != []
    requires a == LegsLength(d, Legs(p)) == LegsLength(d, Legs(Reverse(p)))
    requires one == LegsLength(d, [(p[|p| - 1], x)]) == LegsLength(d, [(x, p[|p| - 1])])
    ensures LegsLength(d, Legs(Reverse(p + [x]))) == LegsLength(d, Legs(p + [x]))
  {
    var y := p[|p| - 1];
    LegsReverseSnoc(p, x);
    LegsLengthConcat(d, [(x, y)], Legs(Reverse(p)));
    PlusCommutes(one, a);
    LegsLengthConcat(d, Legs(p), [(y, x)]);
    LegsConcat(p, [x]);
    assert Legs([x]) == [];
    assert Legs(p) + [(y, x)] + Legs([x]) == Legs(p) + [(y, x)];
  }

  lemma PlusCommutes(a: Result<int, LookupError>, b: Result<int, LookupError>)
    ensures Plus(a, b) == Plus(b, a)
  {
    if a.Err? && b.Err? {
      assert a.error == OutOfRange == b.error;
    }
  }

  lemma TwoWayPrefix(d: map<(StopId, StopId), int>, route: seq<StopId>)
    requires |route| > 0 && TwoWay(d, route)
    ensures TwoWay(d, route[..|route| - 1])
  {
    var p := route[..|route| - 1];
    forall i | 0 <= i < |p| - 1
      ensures Distance(d, p[i], p[i + 1]) == Distance(d, p[i + 1], p[i])
    {
      assert p[i] == route[i] && p[i + 1] == route[i + 1];
    }
  }

  lemma LegsReverseSnoc(p: seq<StopId>, x: StopId)
    requires p != []
    ensures Reverse(p + [x]) == [x] + Reverse(p)
    ensures Legs(Reverse(p + [x])) == [(x, p[|p| - 1])] + Legs(Reverse(p))
  {
    assert Reverse(p + [x]) == [x] + Reverse(p);
    LegsConcat([x], Reverse(p));
  }

  lemma LegsLengthOne(d: map<(StopId, StopId), int>, l: (StopId, StopId))
    ensures LegsLength(d, [l]) == Plus(Ok(0), Distance(d, l.0, l.1))
  {
    assert [l][..0] == [];
  }

  lemma LinearIsTwiceOneWay(d: map<(StopId, StopId), int>, bus: Bus)
    requires bus.kind == Linear && TwoWay(d, bus.route)
    requires LegsLength(d, Legs(bus.route)).Ok?
    ensures RouteLength(d, bus) == Ok(2 * LegsLength(d, Legs(bus.route)).value)
  {
    WayBackAsLong(d, bus.route);
  }

  /** A linear route [A, B] with only A -> B = 100 stored is 200 long: the way
      back reuses the A -> B distance. */
  lemma LinearUsesReverseDistance()
    ensures RouteLength(map[(0, 1) := 100], Bus("1", Linear, [0, 1])) == Ok(200)
  {
    var d := map[(0, 1) := 100];
    assert Legs([0, 1]) == [(0, 1)];
    assert Reverse([0, 1]) == [1, 0];
    assert Legs([1, 0]) == [(1, 0)];
    assert [(0, 1)][..0] == [] && [(1, 0)][..0] == [];
  }

  /** A circular route [A, B] is the single leg A -> B long: no leg closes it
      back to A, even when B -> A is stored. */
  lemma CircularHasNoClosingLeg()
    ensures RouteLength(map[(0, 1) := 5, (1, 0) := 7], Bus("1", Circular, [0, 1])) == Ok(5)
  {
    assert Legs([0, 1]) == [(0, 1)];
    assert [(0, 1)][..0] == [];
  }

  // ----- The catalogue -----

  /** The stops of `route` all exist in a store of `n` stops. */
  predicate RouteIn(route: seq<StopId>, n: nat) {
    forall k | 0 <= k < |route| :: route[k] < n
  }

  /** The registered stops of `names`, in order. */
  function Resolve(index: map<string, StopId>, names: seq<string>): (r: seq<StopId>)
    requires forall n | n in names :: n in index
    ensures |r| == |names| && forall i | 0 <= i < |names| :: r[i] == index[names[i]]
  {
    seq(|names|, i requires 0 <= i < |names| => index[names[i]])
  }

  class TransportCatalogue {
    var stops: seq<Stop>                          // stops_
    var stopIndex: map<string, StopId>            // names_stops_
    var buses: seq<Bus>                           // buses_
    var busIndex: map<string, BusId>              // names_buses_
    var stopToBuses: map<StopId, seq<BusId>>      // stop_to_buses_
    var distances: map<(StopId, StopId), int>     // distance_to_stops_

    /** The invariant: each name index points at a stored stop or bus of that
        name, routes call only at stored stops, and the stop -> buses index
        is the one the buses so far build. */
    ghost predicate Valid()
      reads this
    {
      && (forall n | n in stopIndex :: stopIndex[n] < |stops| && stops[stopIndex[n]].name == n)
      && (forall n | n in busIndex :: busIndex[n] < |buses| && buses[busIndex[n]].name == n)
      && (forall b | 0 <= b < |buses| :: RouteIn(buses[b].route, |stops|))
      && stopToBuses == Visits(buses)
    }

    constructor ()
      ensures Valid()
      ensures stops == [] && stopIndex == map[] && buses == [] && busIndex == map[]
      ensures stopToBuses == map[] && distances == map[]
    {
      stops, stopIndex, buses, busIndex := [], map[], [], map[];
      stopToBuses, distances := map[], map[];
    }

    /** `GetStop`: the stop registered under `name`, or null. */
    function GetStop(name: string): (r: Option<StopId>)
      reads this
      ensures r.Some? <==> name in stopIndex
      ensures Valid() && r.Some? ==> r.value < |stops| && stops[r.value].name == name
    {
      if name in stopIndex then Some(stopIndex[name]) else None
    }

    /** `GetBus`: the bus registered under `name`, or null. */
    function GetBus(name: string): (r: Option<BusId>)
      reads this
      ensures r.Some? <==> name in busIndex
      ensures Valid() && r.Some? ==> r.value < |buses| && buses[r.value].name == name
    {
      if name in busIndex then Some(busIndex[name]) else None
    }

    /** `AddStop`: store a new stop at the back and point its name at it; a
        name registered before now points at the new stop. */
    method AddStop(name: string, coord: Coordinates)
      requires Valid()
      modifies this
      ensures Valid()
      ensures stops == old(stops) + [Stop(name, coord)]
      ensures stopIndex == old(stopIndex)[name := |old(stops)|]
      ensures buses == old(buses) && busIndex == old(busIndex)
      ensures stopToBuses == old(stopToBuses) && distances == old(distances)
      ensures GetStop(name) == Some(|old(stops)|) && stops[GetStop(name).value] == Stop(name, coord)
    {
      stops := stops + [Stop(name, coord)];
      stopIndex := stopIndex[name := |stops| - 1];
    }

    /** `AddBus`: resolve the stop names, store the bus at the back, point its
        name at it, and list it under each stop of its route, once per call. */
    method AddBus(name: string, stopNames: seq<string>, kind: RouteType)
      requires Valid()
      requires forall n | n in stopNames :: n in stopIndex
      modifies this
      ensures Valid()
      ensures stops == old(stops) && stopIndex == old(stopIndex) && distances == old(distances)
      ensures buses == old(buses) + [Bus(name, kind, Resolve(stopIndex, stopNames))]
      ensures busIndex == old(busIndex)[name := |old(buses)|]
      ensures stopToBuses == AddVisits(old(stopToBuses), Resolve(stopIndex, stopNames), |old(buses)|)
      ensures GetBus(name) == Some(|old(buses)|)
    {
      var route := ResolveRoute(stopNames);
      var id := |buses|;
      buses := buses + [Bus(name, kind, route)];
      busIndex := busIndex[name := id];
      ListUnderStops(route, id);
      assert buses[..|buses| - 1] == old(buses);
      assert stopToBuses == Visits(buses);
    }

    /** The first loop of `AddBus`: each stop name looked up in order. */
    method ResolveRoute(stopNames: seq<string>) returns (route: seq<StopId>)
      requires Valid()
      requires forall n | n in stopNames :: n in stopIndex
      ensures route == Resolve(stopIndex, stopNames)
      ensures RouteIn(route, |stops|)
    {
      route := [];
      var i := 0;
      while i < |stopNames|
        invariant 0 <= i <= |stopNames|
        invariant route == Resolve(stopIndex, stopNames[..i])
        invariant RouteIn(route, |stops|)
      {
        route := route + [stopIndex[stopNames[i]]];
        i := i + 1;
      }
      assert stopNames[..i] == stopNames;
    }

    /** The second loop of `AddBus`: list bus `id` under each stop of its
        route, once per call, in order. */
    method ListUnderStops(route: seq<StopId>, id: BusId)
      modifies this
      ensures stopToBuses == AddVisits(old(stopToBuses), route, id)
      ensures stops == old(stops) && stopIndex == old(stopIndex) && distances == old(distances)
      ensures buses == old(buses) && busIndex == old(busIndex)
    {
      var i := 0;
      while i < |route|
        invariant 0 <= i <= |route|
        invariant stopToBuses == AddVisits(old(stopToBuses), route[..i], id)
        invariant stops == old(stops) && stopIndex == old(stopIndex) && distances == old(distances)
        invariant buses == old(buses) && busIndex == old(busIndex)
      {
        var s := route[i];
        assert route[..i + 1][..i] == route[..i];
        stopToBuses := stopToBuses[s := Get(stopToBuses, s) + [id]];
        i := i + 1;
      }
      assert route[..i] == route;
    }

    /** `AddDistanceToStops`: store (or overwrite) the distance of the ordered
        pair (from, to) only. */
    method AddDistanceToStops(from: StopId, to: StopId, distance: int)
      requires Valid()
      modifies this
      ensures Valid()
      ensures distances == old(distances)[(from, to) := distance]
      ensures stops == old(stops) && stopIndex == old(stopIndex) && buses == old(buses)
      ensures busIndex == old(busIndex) && stopToBuses == old(stopToBuses)
    {
      distances := distances[(from, to) := distance];
    }

    /** `GetBusesContainingStop`: the names of the buses listed under the
        stop, each once. A null stop has no entry. */
    method GetBusesContainingStop(stop: Option<StopId>) returns (r: set<string>)
      requires Valid()
      ensures r == set b | 0 <= b < |buses| && stop.Some? && stop.value in buses[b].route :: buses[b].name
    {
      r := {};
      if stop.Some? && stop.value in stopToBuses {
        var s := stop.value;
        var list := stopToBuses[s];
        VisitsAreOccurrences(buses, s);
        forall j | 0 <= j < |list|
          ensures list[j] < |buses| && s in buses[list[j]].route
        {
          OccurrencesMembers(buses, s, list[j]);
        }
        var i := 0;
        while i < |list|
          invariant 0 <= i <= |list|
          invariant r == set j | 0 <= j < i :: buses[list[j]].name
        {
          r := r + {buses[list[i]].name};
          i := i + 1;
        }
        forall b | 0 <= b < |buses| && s in buses[b].route
          ensures buses[b].name in r
        {
          OccurrencesMembers(buses, s, b);
          var j :| 0 <= j < |list| && list[j] == b;
        }
      } else if stop.Some? {
        VisitsAreOccurrences(buses, stop.value);
      }
    }

    /** `GetRealLengthRoute`. */
    function GetRealLengthRoute(from: StopId, to: StopId): (r: Result<int, LookupError>)
      reads this
      ensures r == Distance(distances, from, to)
    {
      Distance(distances, from, to)
    }

    /** `GetLengthRoute`: sum the legs out, then, for a linear route, the legs
        back from the last stop; a missing distance throws out of the sum. */
    method GetLengthRoute(bus: Bus) returns (r: Result<int, LookupError>)
      requires |bus.route| > 0
      ensures r == RouteLength(distances, bus)
    {
      var forward := SumLegsOut(bus.route);
      if forward.Err? {
        return forward;
      }
      if bus.kind == Linear {
        var back := SumLegsBack(bus.route);
        if back.Err? {
          return back;
        }
        return Ok(forward.value + back.value);
      }
      r := forward;
    }

    /** The first loop of `GetLengthRoute`: from the first stop to the last. */
    method SumLegsOut(route: seq<StopId>) returns (r: Result<int, LookupError>)
      requires |route| > 0
      ensures r == LegsLength(distances, Legs(route))
    {
      var n := |route|;
      var legs := Legs(route);
      var length := 0;
      var i := 0;
      while i < n - 1
        invariant 0 <= i <= n - 1
        invariant LegsLength(distances, legs[..i]) == Ok(length)
      {
        var leg := GetRealLengthRoute(route[i], route[i + 1]);
        assert legs[i] == (route[i], route[i + 1]);
        LegsStep(distances, legs, i);
        if leg.Err? {
          LegsLengthOk(distances, legs);
          assert LegsLength(distances, legs).error == OutOfRange == leg.error;
          return Err(leg.error);
        }
        length := length + leg.value;
        i := i + 1;
      }
      assert legs[..i] == legs;
      r := Ok(length);
    }

    /** The second loop of `GetLengthRoute`: from the last stop back to the first. */
    method SumLegsBack(route: seq<StopId>) returns (r: Result<int, LookupError>)
      ensures r == LegsLength(distances, Legs(Reverse(route)))
    {
      var n := |route|;
      var back := Legs(Reverse(route));
      var length := 0;
      var j := n;
      while j > 1
        invariant 0 <= j <= n && (n > 0 ==> 1 <= j)
        invariant LegsLength(distances, back[..n - j]) == Ok(length)
      {
        var leg := GetRealLengthRoute(route[j - 1], route[j - 2]);
        assert back[n - j] == (route[j - 1], route[j - 2]);
        LegsStep(distances, back, n - j);
        if leg.Err? {
          LegsLengthOk(distances, back);
          assert LegsLength(distances, back).error == OutOfRange == leg.error;
          return Err(leg.error);
        }
        length := length + leg.value;
        j := j - 1;
      }
      assert back[..n - j] == back;
      r := Ok(length);
    }

    /** `GetBuses`: every stored bus, in insertion order. */
    method GetBuses() returns (r: seq<Bus>)
      ensures r == buses
    {
      r := [];
      var i := 0;
      while i < |buses|
        invariant 0 <= i <= |buses|
        invariant r == buses[..i]
      {
        r := r + [buses[i]];
        i := i + 1;
      }
    }

    /** A stop that some stored bus calls at. */
    ghost predicate Served(s: StopId)
      reads this
    {
      exists b | 0 <= b < |buses| :: s in buses[b].route
    }

    /** The (name, stop) pairs `GetStopsContainingAnyBus` must return: every
        registered name whose stop is served. */
    ghost function ServedEntries(): set<(string, StopId)>
      reads this
    {
      set n | n in stopIndex && Served(stopIndex[n]) :: (n, stopIndex[n])
    }

    /** `GetStopsContainingAnyBus`: the registered names whose stop some bus
        calls at, with their stops, as a `std::map` (sorted by name). */
    method GetStopsContainingAnyBus() returns (r: seq<(string, StopId)>)
      requires Valid()
      ensures SortedByName(r)
      ensures (set e | e in r) == ServedEntries()
    {
      r := [];
      var todo := stopIndex.Keys;
      while todo != {}
        invariant todo <= stopIndex.Keys
        invariant SortedByName(r)
        invariant forall e | e in r :: e.0 !in todo
        invariant (set e | e in r) == set n | n in stopIndex && n !in todo && Served(stopIndex[n]) :: (n, stopIndex[n])
        decreases todo
      {
        var name :| name in todo;
        var stop := stopIndex[name];
        var served := GetBusesContainingStop(Some(stop));
        if served != {} {
          r := InsertByName(r, (name, stop));
        } else {
          assert !Served(stop) by {
            if b :| 0 <= b < |buses| && stop in buses[b].route {
              assert buses[b].name in served;
            }
          }
        }
        todo := todo - {name};
      }
    }
  }

  /** One more leg adds its distance to the sum, or makes it throw. */
  lemma LegsStep(d: map<(StopId, StopId), int>, legs: seq<(StopId, StopId)>, i: nat)
    requires i < |legs|
    ensures LegsLength(d, legs[..i + 1]) == Plus(LegsLength(d, legs[..i]), Distance(d, legs[i].0, legs[i].1))
  {
    assert legs[..i + 1][..i] == legs[..i];
    assert legs[..i + 1][i] == legs[i];
  }

  /** Strictly increasing names, as the keys of a `std::map` iterate. */
  predicate SortedByName(r: seq<(string, StopId)>) {
    forall i, j | 0 <= i < j < |r| :: Below(r[i].0, r[j].0)
  }

  /** Insertion into a `std::map` from string: the entry goes where its name
      belongs. */
  function InsertByName(r: seq<(string, StopId)>, e: (string, StopId)): (r': seq<(string, StopId)>)
    requires SortedByName(r) && forall x | x in r :: x.0 != e.0
    ensures SortedByName(r')
    ensures (set x | x in r') == (set x | x in r) + {e}
    ensures forall x | x in r' :: x in r || x == e
  {
    if r == [] then [e]
    else if Below(e.0, r[0].0) then
      BelowAfterFirst(r, e.0);
      [e] + r
    else
      BelowTotal(e.0, r[0].0);
      var tail := InsertByName(r[1..], e);
      assert forall x | x in tail :: Below(r[0].0, x.0) by {
        forall x | x in tail
          ensures Below(r[0].0, x.0)
        {
          if x != e {
            var k :| 0 <= k < |r[1..]| && r[1..][k] == x;
            assert r[k + 1] == x;
          }
        }
      }
      assert forall x | x in r[1..] :: x in r;
      [r[0]] + tail
  }

  lemma BelowAfterFirst(r: seq<(string, StopId)>, name: string)
    requires SortedByName(r) && r != [] && Below(name, r[0].0)
    ensures forall x | x in r :: Below(name, x.0)
  {
    forall x | x in r
      ensures Below(name, x.0)
    {
      var k :| 0 <= k < |r| && r[k] == x;
      if k > 0 {
        BelowTransitive(name, r[0].0, x.0);
      }
    }
  }
}
