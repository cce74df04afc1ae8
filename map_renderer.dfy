/** Map composition (`renderer::MapRenderer`): the colour of each bus, the
    polyline of each route, the labels at route ends, and the symbol and label
    of each served stop, as SVG shapes.

    `SphereProjector` is double arithmetic; the renderer sees it only as a map
    `project` from coordinates to points. */
module MapRenderer {
  import opened Wrappers
  import opened Geo
  import opened Strings
  import opened Catalogue
  import opened Svg

  datatype SvgSettings = SvgSettings(width: Float64, height: Float64, padding: Float64)

  datatype LabelSettings = LabelSettings(fontSize: int, offset: Point)

  datatype BusSettings = BusSettings(lineWidth: Float64, textLabel: LabelSettings)

  datatype StopSettings = StopSettings(radius: Float64, textLabel: LabelSettings)

  datatype UnderlayerSettings = UnderlayerSettings(color: Color, width: Float64)

  datatype RenderSettings = RenderSettings(
    svg: SvgSettings,
    bus: BusSettings,
    stop: StopSettings,
    underlayer: UnderlayerSettings,
    palette: seq<Color>)

  /** A bus with the palette colour it is drawn in. */
  datatype BusColor = BusColor(bus: Bus, color: Color)

  /** The arguments a `SphereProjector` is constructed from. */
  datatype SphereProjector = SphereProjector(points: seq<Coordinates>, maxWidth: Float64, maxHeight: Float64, padding: Float64)

  /** The `int` font size of the settings passed where `uint32_t` is
      expected: the conversion keeps the value modulo 2^32. */
  function ToUint32(i: int): (r: Uint32)
    ensures 0 <= i < 0x1_0000_0000 ==> r == i
    ensures -0x1_0000_0000 <= i < 0 ==> r == i + 0x1_0000_0000
  {
    i % 0x1_0000_0000
  }

  // ----- Colours -----

  /** Every earlier name is not above every later one: what `std::sort` by
      name produces. */
  predicate SortedByBusName(bs: seq<Bus>) {
    forall i, j | 0 <= i < j < |bs| :: NotAbove(bs[i].name, bs[j].name)
  }

  predicate NeighboursSorted(bs: seq<Bus>) {
    forall k | 0 < k < |bs| :: NotAbove(bs[k - 1].name, bs[k].name)
  }

  lemma {:induction false} NeighboursSortedIsSorted(bs: seq<Bus>)
    requires NeighboursSorted(bs)
    ensures SortedByBusName(bs)
    decreases |bs|
  {
    if |bs| > 1 {
      var n := |bs|;
      var init := bs[..n - 1];
      assert NeighboursSorted(init) by {
        forall k | 0 < k < |init|
          ensures NotAbove(init[k - 1].name, init[k].name)
        {
          assert init[k - 1] == bs[k - 1] && init[k] == bs[k];
        }
      }
      NeighboursSortedIsSorted(init);
      forall i, j | 0 <= i < j < n
        ensures NotAbove(bs[i].name, bs[j].name)
      {
        if j < n - 1 {
          assert init[i] == bs[i] && init[j] == bs[j];
        } else if i < n - 2 {
          assert init[i] == bs[i] && init[n - 2] == bs[n - 2];
          NotAboveTransitive(bs[i].name, bs[n - 2].name, bs[n - 1].name);
        }
      }
    }
  }

  /** The `std::sort` of `GetBusLineColor`, as an insertion sort by name. */
  method SortByName(a: array<Bus>)
    modifies a
    ensures SortedByBusName(a[..])
    ensures multiset(a[..]) == multiset(old(a[..]))
  {
    var i := 0;
    while i < a.Length
      invariant 0 <= i <= a.Length
      invariant NeighboursSorted(a[..i])
      invariant multiset(a[..]) == multiset(old(a[..]))
    {
      InsertAt(a, i);
      i := i + 1;
    }
    assert a[..i] == a[..];
    NeighboursSortedIsSorted(a[..]);
  }

  /** One step of the insertion sort: sink `a[i]` into the sorted `a[..i]`. */
  method InsertAt(a: array<Bus>, i: nat)
    requires i < a.Length && NeighboursSorted(a[..i])
    modifies a
    ensures NeighboursSorted(a[..i + 1])
    ensures multiset(a[..]) == multiset(old(a[..]))
  {
    var j := i;
    assert Sinking(a[..], i, j);
    while 0 < j && Below(a[j].name, a[j - 1].name)
      invariant 0 <= j <= i
      invariant Sinking(a[..], i, j)
      invariant multiset(a[..]) == multiset(old(a[..]))
    {
      ghost var s := a[..];
      SinkStep(s, i, j);
      a[j - 1], a[j] := a[j], a[j - 1];
      assert a[..] == s[j - 1 := s[j]][j := s[j - 1]];
      j := j - 1;
    }
    SinkDone(a[..], i, j);
  }

  /** Once `a[j]` has stopped sinking, the first `i + 1` buses are in order. */
  lemma SinkDone(s: seq<Bus>, i: nat, j: nat)
    requires j <= i < |s| && Sinking(s, i, j)
    requires j == 0 || !Below(s[j].name, s[j - 1].name)
    ensures NeighboursSorted(s[..i + 1])
  {
    var t := s[..i + 1];
    forall k | 0 < k < |t|
      ensures NotAbove(t[k - 1].name, t[k].name)
    {
      assert t[k - 1] == s[k - 1] && t[k] == s[k];
    }
  }

  /** While `a[j]` sinks: the first `i + 1` buses are in order except
      between positions `j - 1` and `j`, and the bus below `j` is in order
      with the one above. */
  predicate Sinking(s: seq<Bus>, i: nat, j: nat)
    requires j <= i < |s|
  {
    && (forall k | 0 < k <= i && k != j :: NotAbove(s[k - 1].name, s[k].name))
    && (0 < j < i ==> NotAbove(s[j - 1].name, s[j + 1].name))
  }

  lemma SinkStep(s: seq<Bus>, i: nat, j: nat)
    requires 0 < j <= i < |s| && Sinking(s, i, j) && Below(s[j].name, s[j - 1].name)
    ensures Sinking(s[j - 1 := s[j]][j := s[j - 1]], i, j - 1)
    ensures multiset(s[j - 1 := s[j]][j := s[j - 1]]) == multiset(s)
  {
    var t := s[j - 1 := s[j]][j := s[j - 1]];
    BelowAsymmetric(s[j].name, s[j - 1].name);
    forall k | 0 < k <= i && k != j - 1
      ensures NotAbove(t[k - 1].name, t[k].name)
    {
      if k == j + 1 {
        assert t[k - 1] == s[j - 1] && t[k] == s[j + 1];
      } else if k != j {
        assert t[k - 1] == s[k - 1] && t[k] == s[k];
      }
    }
    if 0 < j - 1 {
      assert t[j - 2] == s[j - 2] && t[j] == s[j - 1];
    }
    SwapPermutes(s, j);
  }

  /** Swapping two neighbours permutes a sequence. */
  lemma SwapPermutes(s: seq<Bus>, j: nat)
    requires 0 < j < |s|
    ensures multiset(s[j - 1 := s[j]][j := s[j - 1]]) == multiset(s)
  {
    var t := s[j - 1 := s[j]][j := s[j - 1]];
    assert s == s[..j - 1] + [s[j - 1], s[j]] + s[j + 1..];
    assert t == s[..j - 1] + [s[j], s[j - 1]] + s[j + 1..];
  }

  /** The buses among `bs` that have at least one stop. */
  function NonEmptyCount(bs: seq<Bus>): (r: nat)
    ensures r <= |bs|
  {
    if bs == [] then 0
    else NonEmptyCount(bs[..|bs| - 1]) + (if bs[|bs| - 1].route != [] then 1 else 0)
  }

  /** The colours `GetBusLineColor` hands out: each bus takes the palette
      entry its counter points at, and only a bus with stops moves the
      counter on. */
  function Colored(bs: seq<Bus>, palette: seq<Color>): (r: seq<BusColor>)
    requires |palette| > 0
    ensures |r| == |bs|
    ensures forall i | 0 <= i < |bs| :: r[i].bus == bs[i] && r[i].color in palette
  {
    if bs == [] then []
    else
      var init := bs[..|bs| - 1];
      Colored(init, palette) + [BusColor(bs[|bs| - 1], palette[NonEmptyCount(init) % |palette|])]
  }

  /** Each entry keeps its bus, and its colour is the palette entry at the
      number of earlier buses with stops, wrapped round the palette. */
  lemma {:induction false} ColoredAt(bs: seq<Bus>, palette: seq<Color>, i: nat)
    requires |palette| > 0 && i < |bs|
    ensures Colored(bs, palette)[i] == BusColor(bs[i], palette[NonEmptyCount(bs[..i]) % |palette|])
    decreases |bs|
  {
    var init := bs[..|bs| - 1];
    if i < |bs| - 1 {
      ColoredAt(init, palette, i);
      assert init[..i] == bs[..i] && init[i] == bs[i];
    } else {
      assert init == bs[..i];
    }
  }

  /** The entries whose bus has stops: the ones that are drawn. */
  function Painted(cs: seq<BusColor>): (r: seq<BusColor>)
    ensures |r| <= |cs|
  {
    if cs == [] then []
    else Painted(cs[..|cs| - 1]) + (if cs[|cs| - 1].bus.route != [] then [cs[|cs| - 1]] else [])
  }

  /** Round-robin: the buses that are drawn, in name order, take the palette
      colours one after another, starting again at the first when the palette
      runs out. */
  lemma {:induction false} ColoredCycles(bs: seq<Bus>, palette: seq<Color>)
    requires |palette| > 0
    ensures |Painted(Colored(bs, palette))| == NonEmptyCount(bs)
    ensures forall k | 0 <= k < NonEmptyCount(bs) :: Painted(Colored(bs, palette))[k].color == palette[k % |palette|]
    decreases |bs|
  {
    if bs != [] {
      var init, last := bs[..|bs| - 1], bs[|bs| - 1];
      var cs, ci := Colored(bs, palette), Colored(init, palette);
      ColoredCycles(init, palette);
      var entry := BusColor(last, palette[NonEmptyCount(init) % |palette|]);
      assert cs == ci + [entry];
      assert cs[..|cs| - 1] == ci && cs[|cs| - 1] == entry;
      assert Painted(cs) == Painted(ci) + (if last.route != [] then [entry] else []);
    }
  }

  method GetBusLineColor(buses: array<Bus>, settings: RenderSettings) returns (r: seq<BusColor>)
    requires |settings.palette| > 0
    modifies buses
    ensures SortedByBusName(buses[..])
    ensures multiset(buses[..]) == multiset(old(buses[..]))
    ensures r == Colored(buses[..], settings.palette)
  {
    SortByName(buses);
    r := [];
    var count := 0;
    var i := 0;
    while i < buses.Length
      invariant 0 <= i <= buses.Length
      invariant count == NonEmptyCount(buses[..i])
      invariant r == Colored(buses[..i], settings.palette)
    {
      var index := count % |settings.palette|;
      if buses[i].route != [] {
        count := count + 1;
      }
      assert buses[..i + 1][..i] == buses[..i];
      r := r + [BusColor(buses[i], settings.palette[index])];
      i := i + 1;
    }
    assert buses[..i] == buses[..];
  }

  // ----- Route lines -----

  /** The projected positions of the stops `ids`. */
  function Positions(stops: seq<Stop>, ids: seq<StopId>, project: Coordinates -> Point): seq<Point>
    requires RouteIn(ids, |stops|)
  {
    seq(|ids|, k requires 0 <= k < |ids| => project(stops[ids[k]].coord))
  }

  /** The stroke of route lines and of underlays: rounded caps and joins. */
  function Stroke(fill: Option<Color>, color: Color, width: Float64): PathProps {
    PathProps(fill, Some(color), Some(width), Some(RoundCap), Some(RoundJoin))
  }

  /** The polyline of one bus: its stops in order, then, for a linear route
      of more than one stop, back again without repeating the far end. */
  function RouteLine(bc: BusColor, stops: seq<Stop>, project: Coordinates -> Point, settings: RenderSettings): (o: Object)
    requires RouteIn(bc.bus.route, |stops|)
    ensures o.PolylineShape?
    ensures |o.points| == if bc.bus.kind == Linear && |bc.bus.route| > 1 then 2 * |bc.bus.route| - 1 else |bc.bus.route|
    ensures o.props.fill == Some(Named("none")) && o.props.stroke == Some(bc.color)
    ensures o.props.width == Some(settings.bus.lineWidth)
    ensures o.props.cap == Some(RoundCap) && o.props.join == Some(RoundJoin)
  {
    var route := bc.bus.route;
    var back := if bc.bus.kind == Linear && |route| > 1 then Reverse(route)[1..] else [];
    assert RouteIn(back, |stops|) by {
      forall s | s in back
        ensures s < |stops|
      {
        var k :| 0 <= k < |back| && back[k] == s;
        assert s == route[|route| - 2 - k];
      }
    }
    PolylineShape(Positions(stops, route, project) + Positions(stops, back, project),
                  Stroke(Some(Named("none")), bc.color, settings.bus.lineWidth))
  }

  /** A route line visits the stops of the bus's service path, the same
      stops, in the same order, as the catalogue counts: n points for a
      circular route of n stops, 2n - 1 for a linear one. */
  lemma RouteLineFollowsServicePath(bc: BusColor, stops: seq<Stop>, project: Coordinates -> Point, settings: RenderSettings)
    requires RouteIn(bc.bus.route, |stops|) && bc.bus.route != []
    ensures RouteIn(ServicePath(bc.bus), |stops|)
    ensures RouteLine(bc, stops, project, settings).points == Positions(stops, ServicePath(bc.bus), project)
    ensures |RouteLine(bc, stops, project, settings).points| == CountStopsOnRoute(bc.bus)
  {
    var route := bc.bus.route;
    var path := ServicePath(bc.bus);
    assert RouteIn(path, |stops|) by {
      forall s | s in path
        ensures s < |stops|
      {
        var k :| 0 <= k < |path| && path[k] == s;
        if k >= |route| {
          assert s == route[|route| - 1 - (k - |route| + 1)];
        }
      }
    }
    StopCountIsServicePath(bc.bus);
  }

  predicate RoutesIn(cs: seq<BusColor>, n: nat) {
    forall i | 0 <= i < |cs| :: RouteIn(cs[i].bus.route, n)
  }

  lemma RoutesInInit(cs: seq<BusColor>, n: nat)
    requires RoutesIn(cs, n) && cs != []
    ensures RoutesIn(cs[..|cs| - 1], n)
  {
    var init := cs[..|cs| - 1];
    forall i | 0 <= i < |init| ensures RouteIn(init[i].bus.route, n) {
      assert init[i] == cs[i];
    }
  }

  lemma RoutesInConcat(a: seq<BusColor>, b: seq<BusColor>, n: nat)
    requires RoutesIn(a, n) && RoutesIn(b, n)
    ensures RoutesIn(a + b, n)
  {
    forall i | 0 <= i < |a + b| ensures RouteIn((a + b)[i].bus.route, n) {
      if i >= |a| {
        assert (a + b)[i] == b[i - |a|];
      } else {
        assert (a + b)[i] == a[i];
      }
    }
  }

  /** `GetRouteLines`. */
  function RouteLines(cs: seq<BusColor>, stops: seq<Stop>, project: Coordinates -> Point, settings: RenderSettings): (r: seq<Object>)
    requires RoutesIn(cs, |stops|)
    ensures |r| == |Painted(cs)|
  {
    if cs == [] then []
    else
      var last := cs[|cs| - 1];
      RouteLines(cs[..|cs| - 1], stops, project, settings)
      + (if last.bus.route != [] then [RouteLine(last, stops, project, settings)] else [])
  }

  /** One polyline per bus with stops, in the order of the buses, and
      nothing for a bus without stops. */
  lemma {:induction false} RouteLinesArePainted(cs: seq<BusColor>, stops: seq<Stop>, project: Coordinates -> Point, settings: RenderSettings)
    requires RoutesIn(cs, |stops|)
    ensures RoutesIn(Painted(cs), |stops|)
    ensures |RouteLines(cs, stops, project, settings)| == |Painted(cs)|
    ensures forall k | 0 <= k < |Painted(cs)| :: RouteLines(cs, stops, project, settings)[k] == RouteLine(Painted(cs)[k], stops, project, settings)
    decreases |cs|
  {
    if cs != [] {
      RoutesInInit(cs, |stops|);
      RouteLinesArePainted(cs[..|cs| - 1], stops, project, settings);
    }
  }

  // ----- Route labels -----

  /** The shape `GetRouteText` builds: the bus name in bold Verdana, filled
      with the bus colour. */
  function RouteText(bc: BusColor, coord: Point, textLabel: LabelSettings): Object {
    TextShape(coord, textLabel.offset, ToUint32(textLabel.fontSize), "Verdana", "bold", Escape(bc.bus.name),
              NoProps.(fill := Some(bc.color)))
  }

  /** The shape `GetRouteUnderlayerText` builds: the same text, filled and
      stroked in the underlayer colour. */
  function RouteUnderlayerText(bc: BusColor, coord: Point, textLabel: LabelSettings, underlayer: UnderlayerSettings): Object {
    TextShape(coord, textLabel.offset, ToUint32(textLabel.fontSize), "Verdana", "bold", Escape(bc.bus.name),
              Stroke(Some(underlayer.color), underlayer.color, underlayer.width))
  }

  /** `GetRouteText`, through the setters of `svg::Text`. */
  method GetRouteText(bc: BusColor, coord: Point, textLabel: LabelSettings) returns (text: Text)
    ensures fresh(text)
    ensures text.Value() == RouteText(bc, coord, textLabel)
  {
    text := new Text();
    var t := text.SetPosition(coord);
    t := t.SetOffset(textLabel.offset);
    t := t.SetFontSize(ToUint32(textLabel.fontSize));
    t := t.SetFontFamily("Verdana");
    t := t.SetFontWeight("bold");
    t := t.SetData(bc.bus.name);
    t := t.SetFillColor(bc.color);
  }

  /** `GetRouteUnderlayerText`, through the setters of `svg::Text`. */
  method GetRouteUnderlayerText(bc: BusColor, coord: Point, textLabel: LabelSettings, underlayer: UnderlayerSettings)
    returns (text: Text)
    ensures fresh(text)
    ensures text.Value() == RouteUnderlayerText(bc, coord, textLabel, underlayer)
  {
    text := new Text();
    var t := text.SetPosition(coord);
    t := t.SetOffset(textLabel.offset);
    t := t.SetFontSize(ToUint32(textLabel.fontSize));
    t := t.SetFontFamily("Verdana");
    t := t.SetFontWeight("bold");
    t := t.SetData(bc.bus.name);
    t := t.SetFillColor(underlayer.color);
    t := t.SetStrokeColor(underlayer.color);
    t := t.SetStrokeWidth(underlayer.width);
    t := t.SetStrokeLineCap(RoundCap);
    t := t.SetStrokeLineJoin(RoundJoin);
  }

  /** `GetRouteName`: the underlay, then the text. */
  function RouteName(bc: BusColor, coord: Point, settings: RenderSettings): seq<Object> {
    [RouteUnderlayerText(bc, coord, settings.bus.textLabel, settings.underlayer), RouteText(bc, coord, settings.bus.textLabel)]
  }

  /** A label pair names the bus: two texts with the same position and data,
      the escaped bus name, the underlay first. */
  predicate LabelPair(under: Object, text: Object, bc: BusColor, at: Point) {
    && under.TextShape? && text.TextShape?
    && under.position == at && text.position == at
    && under.data == Escape(bc.bus.name) && text.data == Escape(bc.bus.name)
    && text.props.fill == Some(bc.color) && text.props.stroke.None?
    && under.props.stroke.Some?
  }

  /** The labels of one bus with stops: at its first stop; for a linear
      route also at its last stop when that is a different stop. */
  function BusLabels(bc: BusColor, stops: seq<Stop>, project: Coordinates -> Point, settings: RenderSettings): seq<Object>
    requires RouteIn(bc.bus.route, |stops|) && bc.bus.route != []
  {
    var route := bc.bus.route;
    var first := route[0];
    var atFirst := RouteName(bc, project(stops[first].coord), settings);
    if bc.bus.kind == Circular then atFirst
    else
      var last := route[|route| - 1];
      if last != first then atFirst + RouteName(bc, project(stops[last].coord), settings) else atFirst
  }

  /** Two labels for a circular route, at its first stop; for a linear route
      two more at its last stop exactly when that is not the first stop. */
  lemma BusLabelsShape(bc: BusColor, stops: seq<Stop>, project: Coordinates -> Point, settings: RenderSettings)
    requires RouteIn(bc.bus.route, |stops|) && bc.bus.route != []
    ensures var ls := BusLabels(bc, stops, project, settings);
            var route := bc.bus.route;
            && |ls| == (if bc.bus.kind == Linear && route[|route| - 1] != route[0] then 4 else 2)
            && LabelPair(ls[0], ls[1], bc, project(stops[route[0]].coord))
            && (|ls| == 4 ==> LabelPair(ls[2], ls[3], bc, project(stops[route[|route| - 1]].coord)))
  {
  }

  /** Both labels of a bus read back as the bus name, in bold Verdana; the
      text is filled with the bus colour and not stroked, the underlay is
      filled and stroked in the underlayer colour and width with round caps
      and joins. */
  lemma RouteLabelStyles(bc: BusColor, coord: Point, textLabel: LabelSettings, underlayer: UnderlayerSettings)
    ensures var text, under := RouteText(bc, coord, textLabel), RouteUnderlayerText(bc, coord, textLabel, underlayer);
      && text.TextShape? && under.TextShape?
      && text.position == coord && under.position == coord
      && Unescape(text.data) == bc.bus.name && under.data == text.data
      && text.fontFamily == "Verdana" && text.fontWeight == "bold"
      && under.fontFamily == "Verdana" && under.fontWeight == "bold"
      && text.props.fill == Some(bc.color) && text.props.stroke.None?
      && under.props.fill == Some(underlayer.color) && under.props.stroke == Some(underlayer.color)
      && under.props.width == Some(underlayer.width)
      && under.props.cap == Some(RoundCap) && under.props.join == Some(RoundJoin)
  {
    EscapeRoundTrip(bc.bus.name);
  }

  /** `GetRouteNames`. */
  function RouteNames(cs: seq<BusColor>, stops: seq<Stop>, project: Coordinates -> Point, settings: RenderSettings): seq<Object>
    requires RoutesIn(cs, |stops|)
  {
    if cs == [] then []
    else
      var last := cs[|cs| - 1];
      RouteNames(cs[..|cs| - 1], stops, project, settings) + LabelsOf(last, stops, project, settings)
  }

  /** Each bus that is drawn gets one or two label pairs, and a bus without
      stops gets none. */
  lemma {:induction false} RouteNamesCount(cs: seq<BusColor>, stops: seq<Stop>, project: Coordinates -> Point, settings: RenderSettings)
    requires RoutesIn(cs, |stops|)
    ensures var n := |RouteNames(cs, stops, project, settings)|;
            n % 2 == 0 && 2 * |Painted(cs)| <= n <= 4 * |Painted(cs)|
    decreases |cs|
  {
    if cs != [] {
      var init, last := cs[..|cs| - 1], cs[|cs| - 1];
      RoutesInInit(cs, |stops|);
      RouteNamesCount(init, stops, project, settings);
      var before, labels := RouteNames(init, stops, project, settings), LabelsOf(last, stops, project, settings);
      assert |RouteNames(cs, stops, project, settings)| == |before| + |labels| by {
        RouteNamesLast(cs, stops, project, settings);
      }
      var q := if last.bus.route != [] then 1 else 0;
      assert |Painted(cs)| == |Painted(init)| + q;
      PairsAdd(|before|, |labels|, |Painted(init)|, q);
    }
  }

  /** Adding one bus's labels (none, one pair or two) to an even count keeps
      it even and within two to four labels per drawn bus. */
  lemma PairsAdd(a: nat, b: nat, p: nat, q: nat)
    requires a % 2 == 0 && 2 * p <= a <= 4 * p
    requires (q == 0 && b == 0) || (q == 1 && (b == 2 || b == 4))
    ensures (a + b) % 2 == 0 && 2 * (p + q) <= a + b <= 4 * (p + q)
  {
  }

  /** The labels of one bus: none for a bus without stops. */
  function LabelsOf(bc: BusColor, stops: seq<Stop>, project: Coordinates -> Point, settings: RenderSettings): (r: seq<Object>)
    requires RouteIn(bc.bus.route, |stops|)
    ensures r == [] <==> bc.bus.route == []
    ensures |r| == 0 || |r| == 2 || |r| == 4
  {
    if bc.bus.route != [] then
      BusLabelsShape(bc, stops, project, settings);
      BusLabels(bc, stops, project, settings)
    else []
  }

  lemma RouteNamesLast(cs: seq<BusColor>, stops: seq<Stop>, project: Coordinates -> Point, settings: RenderSettings)
    requires RoutesIn(cs, |stops|) && cs != []
    ensures RoutesIn(cs[..|cs| - 1], |stops|)
    ensures RouteNames(cs, stops, project, settings)
      == RouteNames(cs[..|cs| - 1], stops, project, settings) + LabelsOf(cs[|cs| - 1], stops, project, settings)
  {
    RoutesInInit(cs, |stops|);
  }

  /** The labels of consecutive runs of buses follow one another: labels come
      out in the order of the buses. */
  lemma {:induction false} RouteNamesConcat(a: seq<BusColor>, b: seq<BusColor>, stops: seq<Stop>, project: Coordinates -> Point, settings: RenderSettings)
    requires RoutesIn(a, |stops|) && RoutesIn(b, |stops|)
    ensures RoutesIn(a + b, |stops|)
    ensures RouteNames(a + b, stops, project, settings) == RouteNames(a, stops, project, settings) + RouteNames(b, stops, project, settings)
    decreases |b|
  {
    RoutesInConcat(a, b, |stops|);
    if b == [] {
      assert a + b == a;
    } else {
      var ab, init, last := a + b, b[..|b| - 1], b[|b| - 1];
      RoutesInInit(b, |stops|);
      RouteNamesConcat(a, init, stops, project, settings);
      assert ab[..|ab| - 1] == a + init && ab[|ab| - 1] == last;
      RouteNamesLast(ab, stops, project, settings);
      RouteNamesLast(b, stops, project, settings);
      var na, ni, nl := RouteNames(a, stops, project, settings), RouteNames(init, stops, project, settings), LabelsOf(last, stops, project, settings);
      assert na + ni + nl == na + (ni + nl);
    }
  }

  // ----- Stops -----

  /** The stops of a `std::map<std::string, const Stop*>`, in key order. */
  predicate EntriesIn(es: seq<(string, StopId)>, n: nat) {
    forall i | 0 <= i < |es| :: es[i].1 < n
  }

  /** The shape `GetStopSymbols` builds for one stop. */
  function StopSymbol(stop: Stop, project: Coordinates -> Point, settings: RenderSettings): (o: Object)
    ensures o.CircleShape? && o.center == project(stop.coord) && o.radius == settings.stop.radius
    ensures o.props.fill == Some(Named("white")) && o.props.stroke.None?
  {
    CircleShape(project(stop.coord), settings.stop.radius, NoProps.(fill := Some(Named("white"))))
  }

  /** `GetStopSymbols`. */
  function StopSymbols(es: seq<(string, StopId)>, stops: seq<Stop>, project: Coordinates -> Point, settings: RenderSettings): (r: seq<Object>)
    requires EntriesIn(es, |stops|)
    ensures |r| == |es|
  {
    if es == [] then []
    else StopSymbols(es[..|es| - 1], stops, project, settings) + [StopSymbol(stops[es[|es| - 1].1], project, settings)]
  }

  /** The underlay `GetStopNames` builds for one stop. */
  function StopUnderlayerText(stop: Stop, project: Coordinates -> Point, settings: RenderSettings): Object {
    TextShape(project(stop.coord), settings.stop.textLabel.offset, ToUint32(settings.stop.textLabel.fontSize), "Verdana", "",
              Escape(stop.name), Stroke(Some(settings.underlayer.color), settings.underlayer.color, settings.underlayer.width))
  }

  /** The black label `GetStopNames` builds for one stop. */
  function StopText(stop: Stop, project: Coordinates -> Point, settings: RenderSettings): Object {
    TextShape(project(stop.coord), settings.stop.textLabel.offset, ToUint32(settings.stop.textLabel.fontSize), "Verdana", "",
              Escape(stop.name), NoProps.(fill := Some(Named("black"))))
  }

  /** `GetStopNames`. */
  function StopNames(es: seq<(string, StopId)>, stops: seq<Stop>, project: Coordinates -> Point, settings: RenderSettings): (r: seq<Object>)
    requires EntriesIn(es, |stops|)
    ensures |r| == 2 * |es|
  {
    if es == [] then []
    else
      var stop := stops[es[|es| - 1].1];
      StopNames(es[..|es| - 1], stops, project, settings)
      + [StopUnderlayerText(stop, project, settings), StopText(stop, project, settings)]
  }

  /** The k-th circle is the k-th stop's symbol. */
  lemma {:induction false} SymbolsAt(es: seq<(string, StopId)>, stops: seq<Stop>, project: Coordinates -> Point, settings: RenderSettings)
    requires EntriesIn(es, |stops|)
    ensures |StopSymbols(es, stops, project, settings)| == |es|
    ensures forall k | 0 <= k < |es| ::
      StopSymbols(es, stops, project, settings)[k] == StopSymbol(stops[es[k].1], project, settings)
    decreases |es|
  {
    if es != [] {
      var init := es[..|es| - 1];
      SymbolsAt(init, stops, project, settings);
      var symbols := StopSymbols(es, stops, project, settings);
      assert symbols == StopSymbols(init, stops, project, settings) + [StopSymbol(stops[es[|es| - 1].1], project, settings)];
      forall k | 0 <= k < |init|
        ensures es[k] == init[k] && symbols[k] == StopSymbols(init, stops, project, settings)[k]
      {
      }
    }
  }

  /** The k-th label pair is the k-th stop's underlay, then its text. */
  lemma {:induction false} NamesAt(es: seq<(string, StopId)>, stops: seq<Stop>, project: Coordinates -> Point, settings: RenderSettings)
    requires EntriesIn(es, |stops|)
    ensures |StopNames(es, stops, project, settings)| == 2 * |es|
    ensures forall k | 0 <= k < |es| ::
      && StopNames(es, stops, project, settings)[2 * k] == StopUnderlayerText(stops[es[k].1], project, settings)
      && StopNames(es, stops, project, settings)[2 * k + 1] == StopText(stops[es[k].1], project, settings)
    decreases |es|
  {
    if es != [] {
      var init := es[..|es| - 1];
      NamesAt(init, stops, project, settings);
      var stop := stops[es[|es| - 1].1];
      var names, prev := StopNames(es, stops, project, settings), StopNames(init, stops, project, settings);
      assert names == prev + [StopUnderlayerText(stop, project, settings), StopText(stop, project, settings)];
      forall k | 0 <= k < |init|
        ensures es[k] == init[k] && names[2 * k] == prev[2 * k] && names[2 * k + 1] == prev[2 * k + 1]
      {
      }
    }
  }

  /** One white circle per stop and two labels per stop, in the order of the
      stops: the k-th circle and the k-th label pair belong to the k-th stop,
      the labels sit at the circle's centre, carry the stop's escaped name,
      and the underlay comes before the black text. */
  lemma StopLabelsOnSymbols(es: seq<(string, StopId)>, stops: seq<Stop>, project: Coordinates -> Point, settings: RenderSettings)
    requires EntriesIn(es, |stops|)
    ensures |StopSymbols(es, stops, project, settings)| == |es|
    ensures |StopNames(es, stops, project, settings)| == 2 * |es|
    ensures forall k | 0 <= k < |es| ::
      var circle, under, text := StopSymbols(es, stops, project, settings)[k],
        StopNames(es, stops, project, settings)[2 * k], StopNames(es, stops, project, settings)[2 * k + 1];
      && circle.CircleShape? && under.TextShape? && text.TextShape?
      && circle.center == project(stops[es[k].1].coord)
      && under.position == circle.center && text.position == circle.center
      && circle.props.fill == Some(Named("white")) && circle.radius == settings.stop.radius
      && under.data == Escape(stops[es[k].1].name) && text.data == under.data
      && under.props.stroke == Some(settings.underlayer.color) && text.props.fill == Some(Named("black"))
  {
    SymbolsAt(es, stops, project, settings);
    NamesAt(es, stops, project, settings);
    forall k | 0 <= k < |es|
      ensures
        var circle, under, text := StopSymbols(es, stops, project, settings)[k],
          StopNames(es, stops, project, settings)[2 * k], StopNames(es, stops, project, settings)[2 * k + 1];
        && circle.CircleShape? && under.TextShape? && text.TextShape?
        && circle.center == project(stops[es[k].1].coord)
        && under.position == circle.center && text.position == circle.center
        && circle.props.fill == Some(Named("white")) && circle.radius == settings.stop.radius
        && under.data == Escape(stops[es[k].1].name) && text.data == under.data
        && under.props.stroke == Some(settings.underlayer.color) && text.props.fill == Some(Named("black"))
    {
      StopShapes(stops[es[k].1], project, settings);
    }
  }

  lemma StopShapes(stop: Stop, project: Coordinates -> Point, settings: RenderSettings)
    ensures
      var circle, under, text := StopSymbol(stop, project, settings),
        StopUnderlayerText(stop, project, settings), StopText(stop, project, settings);
      && circle.CircleShape? && under.TextShape? && text.TextShape?
      && circle.center == project(stop.coord)
      && under.position == circle.center && text.position == circle.center
      && circle.props.fill == Some(Named("white")) && circle.radius == settings.stop.radius
      && under.data == Escape(stop.name) && text.data == under.data
      && under.props.stroke == Some(settings.underlayer.color) && text.props.fill == Some(Named("black"))
  {
  }

  /** Both labels of a stop read back as the stop name, in Verdana with no
      weight; the text is filled black and not stroked, the underlay is
      filled and stroked in the underlayer colour and width with round caps
      and joins. */
  lemma StopLabelStyles(stop: Stop, project: Coordinates -> Point, settings: RenderSettings)
    ensures var text, under := StopText(stop, project, settings), StopUnderlayerText(stop, project, settings);
      && text.TextShape? && under.TextShape?
      && Unescape(text.data) == stop.name && under.data == text.data
      && text.fontFamily == "Verdana" && text.fontWeight == ""
      && under.fontFamily == "Verdana" && under.fontWeight == ""
      && text.props.fill == Some(Named("black")) && text.props.stroke.None?
      && under.props.fill == Some(settings.underlayer.color) && under.props.stroke == Some(settings.underlayer.color)
      && under.props.width == Some(settings.underlayer.width)
      && under.props.cap == Some(RoundCap) && under.props.join == Some(RoundJoin)
  {
    EscapeRoundTrip(stop.name);
  }
}
