# Transport catalogue: a Dafny model

This project models the core of a C++ transport catalogue in Dafny and proves
properties of that model. The catalogue stores bus stops and bus routes,
answers questions about them, and draws a map of the network as SVG. The
model covers five parts.

- **The JSON builder** (`json::Builder` and its context classes) is a state
  machine. Its state is a root node, a stack of pointers to the open arrays
  and maps, an optional pending key and an "empty" flag.
  - `JsonBuilder.Builder` is a class with those four fields.
  - Each pointer on the stack is a *path* of array indices and map keys from
    the root (module `Json`).
  - Each method is proved against a pure transition function
    (`Open`, `Close`, `SetKey`, `AddValue`, `Apply`, `Built`).
  - A failed call throws `std::logic_error`. The model returns the error and
    leaves the state unchanged, because every throw in the source comes
    before any mutation.
  - The context classes become a `Context` value. `Exposes` says which calls
    each context makes public; `Returned` says which context each call
    returns.
- **The transport catalogue** (`TransportCatalogue`) is a class.
  - Stops and buses are append-only sequences, each with a name index.
  - A stop and a bus are identified by their position in those sequences;
    the source uses their addresses in a `std::deque`.
  - Further state: a stop-to-buses index with one entry per occurrence of the
    stop in a route, and a distance table keyed by ordered stop pairs.
  - Route length is a sum over legs. A missing distance falls back to the
    reverse direction; if that is missing too, the lookup fails with
    `out_of_range`.
- **The request handler** (`RequestHandler`) covers three operations.
  - Bus statistics: stop count, unique stops and road length.
  - The buses through a stop.
  - The layer order of the rendered map.
- **The map renderer** (`MapRenderer`):
  - sorts the buses by name in place;
  - gives each bus a colour from the palette in turn, advancing only for
    buses with stops;
  - builds the route polylines, the route labels, the stop circles and the
    stop labels.
- **The SVG writer** (`svg::*`) covers:
  - colours and stroke styles;
  - the optional path attributes;
  - escaping of text content with the five predefined entities of XML 1.0
    (section 4.6);
  - circle, polyline and text shapes with their setters;
  - a document that writes itself as text.

Some things are abstract in the model:

- **Doubles** are opaque 64-bit values (`Geo.Float64`). How a double is
  written is a parameter `fmt`.
- **The sphere projector** is a parameter
  `proj: SphereProjector -> Coordinates -> Point`. The model records which
  coordinates and sizes the projector is built from.
- **An output stream** is the string written to it.

## Model

| member | source | states |
|---|---|---|
| JsonBuilder.Insert | json_builder.cpp:164 | `insert` into a map keeps an existing key's value and adds a missing key; every other entry is unchanged |
| JsonBuilder.Open | json_builder.cpp:47-113 | `StartArray`/`StartDict`: on success the result is still well formed (nothing is set while the builder is empty; every stack entry is a prefix of the last one, the first is the root, and the last one leads to a node of the root) |
| JsonBuilder.Close | json_builder.cpp:76-84 | `EndArray`/`EndDict` keep the builder well formed |
| JsonBuilder.SetKey | json_builder.cpp:124-135 | `Key` keeps the builder well formed |
| JsonBuilder.AddValue | json_builder.cpp:137-172 | `Value` keeps the builder well formed |
| JsonBuilder.Apply | json_builder.cpp:47-172 | any call keeps the builder well formed |
| JsonBuilder.Run | json_builder.cpp:47-172 | a sequence of calls, stopping at the first throw, keeps the builder well formed |
| JsonBuilder.PushKeepsWellFormed | json_builder.cpp:56-70 | pushing the path to a child of the top node keeps the stack well formed: every entry is a prefix of the new last one, the first is the root, and the new last one leads to a node of the root |
| JsonBuilder.PopKeepsWellFormed | json_builder.cpp:82 | popping the top pointer (here in `EndArray`, and at line 120 in `EndDict`) keeps the invariant |
| JsonBuilder.RewriteTopKeepsWellFormed | json_builder.cpp:149-166 | changing the top composite in place, through its pointer, keeps the invariant |
| JsonBuilder.Builder.constructor | json_builder.h:27-31 | a new builder has a null root, no open composites, no pending key, and the empty flag set |
| JsonBuilder.Builder.StartArray | json_builder.cpp:47-74 | the new fields and the result (an `ArrayItemContext`, or the error) are exactly those of the `StartArray` transition; on error nothing changes |
| JsonBuilder.Builder.StartDict | json_builder.cpp:86-113 | the same, for `StartDict`, returning a `ValueDictItemContext` |
| JsonBuilder.Builder.Open | json_builder.cpp:47-113 | the shared body of `StartArray` and `StartDict` performs exactly the `Open` transition |
| JsonBuilder.Builder.EndArray | json_builder.cpp:76-84 | performs exactly the `EndArray` transition and returns the builder |
| JsonBuilder.Builder.EndDict | json_builder.cpp:114-122 | performs exactly the `EndDict` transition and returns the builder |
| JsonBuilder.Builder.Key | json_builder.cpp:124-135 | performs exactly the `Key` transition and returns a `KeyItemContext` |
| JsonBuilder.Builder.Value | json_builder.cpp:137-172 | performs exactly the `Value` transition and returns the builder |
| JsonBuilder.Builder.Build | json_builder.cpp:174-179 | succeeds iff something was started and nothing is left open, and then returns the root unchanged |
| JsonBuilder.Builder.Through | json_builder.cpp:5-45 | a call made through a context object forwards to the builder and returns the context type that the context's class declares |
| JsonBuilder.FreshInstallsRoot | json_builder.cpp:48-51 | on a fresh builder, `Value`, `StartArray` and `StartDict` install the root and clear the empty flag; the last two also push the root |
| JsonBuilder.CompleteRejectsEveryCall | json_builder.cpp:53-55 | once the root is complete, every call except `Build` throws, and `Build` returns the root |
| JsonBuilder.KeyExactly | json_builder.cpp:124-131 | `Key` succeeds iff the top is an open map with no pending key; it then only stores the key as pending |
| JsonBuilder.MapOnTop | json_builder.cpp:61-70 | with a map on top, `Value`/`StartArray`/`StartDict` throw iff no key is pending; otherwise they insert under the key (first wins) and clear it |
| JsonBuilder.ArrayOnTop | json_builder.cpp:56-60 | with an array on top, `Value`/`StartArray`/`StartDict` append exactly one element and keep the earlier ones; `Start*` also push the new child |
| JsonBuilder.EndExactly | json_builder.cpp:76-84 | `EndArray`/`EndDict` throw on an empty stack or when the top is the other kind; otherwise they pop one pointer and change no node |
| JsonBuilder.BuildExactly | json_builder.cpp:174-179 | `Build` succeeds iff the builder is not empty and its stack is empty, and it returns the root |
| JsonBuilder.RunConcat | json_builder.cpp:47-172 | running two call sequences one after the other is the same as running them joined |
| JsonBuilder.EndDictKeepsPendingKey | json_builder.cpp:114-122 | `StartArray, StartDict, Key("a"), EndDict` succeeds and leaves "a" pending; a map opened next in the array then takes `Value(2)` under "a" without a `Key` call, and `Build` returns `[{}, {"a": 2}]` |
| JsonBuilder.QuirkOpenAndClose | json_builder.cpp:114-122 | the exact state after `StartArray, StartDict, Key("a"), EndDict`: an array holding an empty map, only the array open, "a" still pending |
| JsonBuilder.QuirkReopen | json_builder.cpp:95-99 | from that state, `StartDict` into the array keeps "a" pending, and `Value(2), EndDict, EndArray` then completes `[{}, {"a": 2}]` |
| JsonBuilder.QuirkValue | json_builder.cpp:156-166 | `Value` in the new map is inserted under the key left pending by the earlier `EndDict` and clears it |
| JsonBuilder.ContextCallsSucceed | json_builder.h:50-72 | in a disciplined state (the top, if any, is an array or a map, and a pending key is not yet in the map on top), every call that a context exposes passes the builder's checks in the states that context is returned in |
| JsonBuilder.ContextReturnedFits | json_builder.h:50-72 | the context returned by such a call fits the new state, unless the call stakes a key the map already has or ends a map with a key pending |
| JsonBuilder.DuplicateKeyThroughContexts | json_builder.cpp:124-172 | the chain `StartDict`, `Key("a")`, `Value(1)`, `Key("a")`, `StartArray`, `Value(3)` uses only calls the returned context types expose; the first five pass and the sixth throws "Invalid Value" |
| JsonBuilder.Evict | json_builder.cpp:61-70 | taking the pending key's entry out of the map on top keeps the builder well formed and changes nothing else |
| JsonBuilder.LastWinsReplaces | json_builder.cpp:164 | with a later value replacing the earlier one, a value under a key the map already has replaces the old entry |
| JsonBuilder.LastWinsContextsSucceed | json_builder.h:50-72 | with a later value replacing the earlier one, every call a context exposes passes and the context it returns fits the new state, duplicate keys included |
| JsonBuilder.BuildReturnsSpelledTree | json_builder.cpp:47-179 | every JSON tree can be spelled as builder calls that succeed, and `Build` then returns exactly that tree |
| JsonBuilder.OpenFillClose | json_builder.cpp:56-122 | opening a composite, filling it and closing it writes the filled composite in place of the empty one |
| JsonBuilder.EmitInto | json_builder.cpp:149-166 | spelling a tree into an open array or map puts exactly that tree in the next slot |
| JsonBuilder.EmitItemsInto | json_builder.cpp:56-60 | spelling array items appends exactly those items |
| JsonBuilder.EmitEntriesInto | json_builder.cpp:61-70 | spelling map entries with new keys adds exactly those entries |
| JsonBuilder.KeyThenEmit | json_builder.cpp:124-166 | `Key(k)` followed by the spelling of `v` adds the entry `k: v` and leaves no key pending |
| JsonBuilder.RootFillClose | json_builder.cpp:48-51 | opening the root, filling it and closing it leaves the filled root and an empty stack |
| Catalogue.Distance | transport_catalogue.cpp:58-63 | the stored (a,b) distance if present, otherwise the stored (b,a) distance; fails iff neither exists |
| Catalogue.DistanceAfterStore | transport_catalogue.cpp:31-33 | storing (a,b) answers (a,b) with the new value, answers (b,a) with it only when (b,a) is not stored, and leaves every other pair's answer unchanged |
| Catalogue.LegsLengthOk | transport_catalogue.cpp:65-76 | a sum over legs succeeds iff every leg's distance is found |
| Catalogue.LegsLengthConcat | transport_catalogue.cpp:65-76 | the length of two runs of legs is the sum of their lengths |
| Catalogue.CountStopsOnRoute | transport_catalogue.cpp:24-29 | n stops for a circular route, 2n−1 for a linear one |
| Catalogue.StopCountIsServicePath | transport_catalogue.cpp:24-29 | the stop count is the number of stops a bus visits: forward, then back for a linear route |
| Catalogue.RouteLengthAlongServicePath | transport_catalogue.cpp:65-76 | the road length is the sum of distances along that visit sequence |
| Catalogue.WayBackAsLong | transport_catalogue.cpp:65-76 | where every leg's distance is the same in both directions, the way back is as long as the way out |
| Catalogue.LinearIsTwiceOneWay | transport_catalogue.cpp:71-75 | a linear route over such legs is twice its one-way length |
| Catalogue.LinearUsesReverseDistance | transport_catalogue.cpp:58-76 | linear [A,B] with only A→B = 100 stored is 200 long |
| Catalogue.CircularHasNoClosingLeg | transport_catalogue.cpp:65-76 | a circular route adds no leg from its last stop back to its first |
| Catalogue.AddVisitsAt | transport_catalogue.cpp:19-21 | adding a bus appends it to a stop's list once per occurrence of the stop in the route, and changes no other stop's list |
| Catalogue.VisitsAreOccurrences | transport_catalogue.h:33 | the stop-to-buses index equals the list of bus ids, once per occurrence, in insertion order; a stop has an entry iff some route calls there |
| Catalogue.OccurrencesMembers | transport_catalogue.cpp:19-21 | a bus is listed at a stop iff its route contains that stop |
| Catalogue.OccurrencesCount | transport_catalogue.h:33 | a bus is listed at a stop exactly as many times as the stop occurs in its route |
| Catalogue.Resolve | transport_catalogue.cpp:12-14 | stop names resolve, in order, to the stops that carry them |
| Catalogue.TransportCatalogue.constructor | transport_catalogue.h:29-34 | a new catalogue has all stores empty |
| Catalogue.TransportCatalogue.AddStop | transport_catalogue.cpp:4-8 | appends the stop, points its name at it, and leaves every other store unchanged; `GetStop(name)` then returns a stop with that name and coordinate |
| Catalogue.TransportCatalogue.AddBus | transport_catalogue.cpp:10-22 | appends a bus whose route is the named stops in order with the given type, indexes its name, and adds it to each stop's list once per occurrence |
| Catalogue.TransportCatalogue.ResolveRoute | transport_catalogue.cpp:13-15 | the first loop of `AddBus` turns the stop names, in order, into the stops that carry them, all of them stored stops |
| Catalogue.TransportCatalogue.ListUnderStops | transport_catalogue.cpp:19-21 | the second loop of `AddBus` appends the bus to the list of each stop of its route, once per occurrence, and changes nothing else |
| Catalogue.TransportCatalogue.AddDistanceToStops | transport_catalogue.cpp:31-33 | overwrites the entry for its ordered pair only |
| Catalogue.TransportCatalogue.GetStop | transport_catalogue.cpp:42-46 | returns a stop iff the name is registered, and that stop carries the name |
| Catalogue.TransportCatalogue.GetBus | transport_catalogue.cpp:35-40 | returns a bus iff the name is registered, and that bus carries the name |
| Catalogue.TransportCatalogue.GetBusesContainingStop | transport_catalogue.cpp:48-56 | exactly the names of the buses whose route contains the stop, with no duplicates; nothing for a null stop |
| Catalogue.TransportCatalogue.GetRealLengthRoute | transport_catalogue.cpp:58-63 | the directed distance with the reverse-direction fallback |
| Catalogue.TransportCatalogue.GetLengthRoute | transport_catalogue.cpp:65-76 | the road length of the bus: the legs out, plus for a linear route the legs back; the first missing distance is the result |
| Catalogue.TransportCatalogue.SumLegsOut | transport_catalogue.cpp:66-69 | the first loop sums the distances of the legs from the first stop to the last, or fails at the first missing one |
| Catalogue.TransportCatalogue.SumLegsBack | transport_catalogue.cpp:70-74 | the second loop sums the distances of the legs of the reversed route, from the last stop to the first, or fails at the first missing one |
| Catalogue.ServicePath | transport_catalogue.cpp:65-76 | the stops a bus visits start with its route and end at its last stop (circular) or back at its first (linear) |
| Catalogue.ServicePathLegs | transport_catalogue.cpp:65-76 | the legs a linear bus travels are its legs out followed by the legs of its reversed route |
| Catalogue.TransportCatalogue.GetBuses | transport_catalogue.cpp:89-95 | the buses in insertion order |
| Catalogue.TransportCatalogue.GetStopsContainingAnyBus | transport_catalogue.cpp:97-104 | exactly the registered stops served by at least one bus, keyed by name and in name order |
| Catalogue.InsertByName | transport_catalogue.cpp:101 | inserting a new name into a name-ordered map keeps it ordered and adds exactly that entry |
| Strings.BelowIrreflexive | map_renderer.cpp:13 | no name sorts before itself |
| Strings.BelowAsymmetric | map_renderer.cpp:13 | two names never sort before each other |
| Strings.BelowTotal | transport_catalogue.cpp:97-104 | `std::string` comparison orders any two different names |
| Strings.BelowTransitive | map_renderer.cpp:13 | `std::string` comparison is transitive, so sorting by name is well defined |
| Strings.Decimal | svg.cpp:18-25 | a channel is written as a non-empty run of digits with no leading zero |
| Strings.DecimalRoundTrip | svg.cpp:18-21 | a non-negative integer written in decimal reads back as itself |
| RequestHandler.UniqueStopsBounds | request_handler.cpp:18-22 | a non-empty route of n stops has between 1 and n distinct stops |
| RequestHandler.GetBusStat | request_handler.cpp:11-28 | nothing iff the bus name is unknown; otherwise the stop count, the distinct-stop count and the road length, or the failure of a missing distance |
| RequestHandler.GetBusesByStop | request_handler.cpp:30-33 | the names of the buses through the named stop; empty for an unknown stop name |
| RequestHandler.GetStopCoordinates | request_handler.cpp:35-41 | the coordinates of the given stops, in map order |
| RequestHandler.RenderMap | request_handler.cpp:43-73 | buses sorted by name and coloured; the projector built from the served stops' coordinates in name order; the document is all route lines, then all route labels, then all stop circles, then all stop labels |
| RequestHandler.AddAll | request_handler.cpp:60-71 | each layer's shapes are appended in order after those already in the document |
| RequestHandler.ColoredRoutesIn | request_handler.cpp:44-45 | sorting the catalogue's buses keeps every route within the registered stops |
| MapRenderer.ToUint32 | map_renderer.cpp:58 | the `int font_size` of the label settings passed to `SetFontSize(uint32_t)` (here and at lines 72, 147 and 159) keeps in-range values and wraps negative ones modulo 2^32 |
| MapRenderer.SortByName | map_renderer.cpp:13 | sorts the buses in place by name, as a permutation |
| MapRenderer.InsertAt | map_renderer.cpp:13 | one insertion step keeps a sorted prefix sorted and the array a permutation |
| MapRenderer.NeighboursSortedIsSorted | map_renderer.cpp:13 | neighbours in name order imply every pair in name order |
| MapRenderer.Colored | map_renderer.cpp:14-21 | one entry per bus, in order, each with that bus and a colour from the palette |
| MapRenderer.ColoredAt | map_renderer.cpp:14-20 | the i-th bus in name order gets `palette[k mod |palette|]`, where k counts the earlier buses with stops |
| MapRenderer.ColoredCycles | map_renderer.cpp:14-20 | the buses with stops take the palette colours in turn, starting again after the last |
| MapRenderer.GetBusLineColor | map_renderer.cpp:10-23 | sorts the caller's buses in place by name, as a permutation, and returns one coloured entry per bus, including buses without stops |
| MapRenderer.RouteLineFollowsServicePath | map_renderer.cpp:32-42 | a polyline's points are the projected stops a bus visits: n for a circular route, 2n−1 for a linear route (forward, then back without repeating the turn stop) |
| MapRenderer.RouteLine | map_renderer.cpp:29-47 | a polyline through n points for a circular route or a one-stop route and 2n−1 for a longer linear route, stroked in the bus colour at the line width, not filled, with round caps and joins |
| MapRenderer.RouteLines | map_renderer.cpp:26-51 | as many polylines as buses with stops |
| MapRenderer.RouteLinesArePainted | map_renderer.cpp:26-51 | one polyline per bus with stops, in input order |
| MapRenderer.GetRouteText | map_renderer.cpp:52-64 | the label built through the text setters is the bus's colour, Verdana bold, at the stop, with the escaped bus name |
| MapRenderer.GetRouteUnderlayerText | map_renderer.cpp:65-82 | the same label in the underlayer colour and width, with round caps and joins |
| MapRenderer.BusLabelsShape | map_renderer.cpp:91-125 | 2 labels at the first stop; 2 more at the last stop iff the route is linear and its last stop differs from its first; each pair is the underlay, then the text |
| MapRenderer.RouteNamesConcat | map_renderer.cpp:91-125 | the labels of two runs of buses are those of the first followed by those of the second |
| MapRenderer.RouteNamesCount | map_renderer.cpp:91-125 | an even number of labels, between two and four for each bus with stops |
| MapRenderer.LabelsOf | map_renderer.cpp:93-122 | no labels for a bus without stops; otherwise one or two pairs |
| MapRenderer.RouteLabelStyles | map_renderer.cpp:52-90 | both labels of a bus read back as its name in bold Verdana; the text is filled with the bus colour and not stroked; the underlay is filled and stroked in the underlayer colour and width, with round caps and joins |
| MapRenderer.StopLabelsOnSymbols | map_renderer.cpp:127-168 | one white circle of the stop radius per stop, in name order; two labels per stop, the underlay and then the black text, at that stop's position with its name |
| MapRenderer.SymbolsAt | map_renderer.cpp:127-137 | the k-th stop circle is the circle of the k-th stop in name order, and there is one per stop |
| MapRenderer.NamesAt | map_renderer.cpp:139-168 | the stop labels come in pairs, the underlay then the text of the k-th stop in name order |
| MapRenderer.StopSymbol | map_renderer.cpp:129-134 | a white circle of the stop radius centred on the projected stop, with no stroke |
| MapRenderer.StopSymbols | map_renderer.cpp:127-137 | one circle per stop |
| MapRenderer.StopNames | map_renderer.cpp:139-168 | two labels per stop |
| MapRenderer.StopLabelStyles | map_renderer.cpp:144-162 | both labels of a stop read back as its name in Verdana with no weight; the text is filled black and not stroked; the underlay is filled and stroked in the underlayer colour and width, with round caps and joins |
| Svg.MakeRgb | svg.h:23-27 | the RGB constructor makes an RGB colour |
| Svg.RgbChannels | svg.h:23-27 | each channel is stored modulo 256 |
| Svg.MakeRgba | svg.h:34-46 | the RGBA constructor keeps the opacity and casts each channel to `uint8_t` exactly as the RGB constructor does |
| Svg.ColorTextKinds | svg.cpp:10-26 | no colour prints as `none`, a colour name as itself, and an RGB colour never prints like an RGBA one |
| Svg.RgbTextRoundTrip | svg.cpp:18-21 | `rgb(r,g,b)` is printed with decimal channels that read back as the colour |
| Svg.RgbTextInjective | svg.cpp:18-21 | two different RGB colours print differently |
| Svg.LineCapText | svg.h:73-86 | each line cap prints as its own keyword (butt, round, square), which reads back as that cap |
| Svg.LineJoinText | svg.h:94-113 | each line join prints as its own keyword (arcs, bevel, miter, miter-clip, round), which reads back as that join |
| Svg.AttrsEmpty | svg.h:169-189 | no attribute is written iff none is set |
| Svg.FillFirst | svg.h:169-189 | a set fill comes first |
| Svg.JoinLast | svg.h:169-189 | a set line join comes last |
| Svg.EscapeChar | svg.cpp:107-128 | exactly the five special characters become an entity `&...;`; every other character is kept |
| Svg.EscapeConcat | svg.cpp:105-132 | escaping distributes over concatenation |
| Svg.EscapeHasNoRawSpecials | svg.cpp:107-129 | escaped text has no raw `"`, `'`, `<` or `>` |
| Svg.EscapeIdentity | svg.cpp:107-130 | text with none of the five special characters is stored unchanged |
| Svg.EscapeRoundTrip | svg.cpp:105-132 | unescaping the stored text gives back the original |
| Svg.UnescapeOne | svg.cpp:107-129 | each character's entity reads back as that character |
| Svg.Circle.constructor | svg.h:247-248 | a new circle is at (0,0) with radius 1 and no attributes |
| Svg.Circle.SetCenter | svg.cpp:38-41 | changes only the centre and returns the same circle |
| Svg.Circle.SetRadius | svg.cpp:43-46 | changes only the radius and returns the same circle |
| Svg.Circle.SetFillColor | svg.h:145-148 | changes only the fill and returns the same object |
| Svg.Circle.SetStrokeColor | svg.h:149-152 | changes only the stroke and returns the same object |
| Svg.Circle.SetStrokeWidth | svg.h:153-156 | changes only the stroke width and returns the same object |
| Svg.Circle.SetStrokeLineCap | svg.h:157-160 | changes only the line cap and returns the same object |
| Svg.Circle.SetStrokeLineJoin | svg.h:161-164 | changes only the line join and returns the same object |
| Svg.Polyline.constructor | svg.h:255-267 | a new polyline has no points and no attributes |
| Svg.Polyline.AddPoint | svg.cpp:60-63 | appends one point and keeps the earlier ones |
| Svg.Polyline.SetFillColor | svg.h:145-148 | changes only the fill and returns the same object |
| Svg.Polyline.SetStrokeColor | svg.h:149-152 | changes only the stroke and returns the same object |
| Svg.Polyline.SetStrokeWidth | svg.h:153-156 | changes only the stroke width and returns the same object |
| Svg.Polyline.SetStrokeLineCap | svg.h:157-160 | changes only the line cap and returns the same object |
| Svg.Polyline.SetStrokeLineJoin | svg.h:161-164 | changes only the line join and returns the same object |
| Svg.Text.constructor | svg.h:296-301 | a new text is at (0,0) with offset (0,0), font size 1, empty font and data, and no attributes |
| Svg.Text.SetPosition | svg.cpp:80-83 | changes only the position |
| Svg.Text.SetOffset | svg.cpp:85-88 | changes only the offset |
| Svg.Text.SetFontSize | svg.cpp:90-93 | changes only the font size |
| Svg.Text.SetFontFamily | svg.cpp:95-98 | changes only the font family |
| Svg.Text.SetFontWeight | svg.cpp:100-103 | changes only the font weight |
| Svg.Text.SetData | svg.cpp:105-132 | the loop stores the escaped text and changes nothing else |
| Svg.Text.SetFillColor | svg.h:145-148 | changes only the fill and returns the same object |
| Svg.Text.SetStrokeColor | svg.h:149-152 | changes only the stroke and returns the same object |
| Svg.Text.SetStrokeWidth | svg.h:153-156 | changes only the stroke width and returns the same object |
| Svg.Text.SetStrokeLineCap | svg.h:157-160 | changes only the line cap and returns the same object |
| Svg.Text.SetStrokeLineJoin | svg.h:161-164 | changes only the line join and returns the same object |
| Svg.PointsSeparated | svg.cpp:65-76 | points are written as `x,y` joined by single spaces, with no separator at either end |
| Svg.RenderPoints | svg.cpp:65-76 | the loop with its delimiter writes exactly that point list |
| Svg.TextFontAttributes | svg.cpp:141-146 | a text element carries `font-family` and `font-weight` only when they are not empty |
| Svg.ObjectTextElement | svg.cpp:49-56 | each shape writes one element of its kind; a circle is `<circle .../>` |
| Svg.PolylineElement | svg.cpp:65-76 | a polyline is `<polyline .../>` |
| Svg.TextElement | svg.cpp:134-150 | a text is `<text ...>` closed by `</text>` |
| Svg.Indented | svg.h:127-129 | `Indented` keeps the step and adds it to the indent |
| Svg.IndentedAddsStep | svg.h:127-135 | one level deeper writes the current indent followed by one step of spaces |
| Svg.IndentSpaces | svg.h:131-135 | the indent is exactly `indent` spaces |
| Svg.RenderIndent | svg.h:131-135 | the loop writes exactly that indent |
| Svg.LinesConcat | svg.cpp:152-161 | a document's shapes are written in insertion order: the lines of two runs are those of the first, then those of the second |
| Svg.Document.constructor | svg.h:305-324 | a new document is empty |
| Svg.Document.AddPtr | svg.h:314-316 | appends one shape at the end and keeps the earlier ones |
| Svg.Document.Render | svg.cpp:152-161 | writes the XML declaration line, the SVG 1.1 root line, each shape on its own line at indent 2, then `</svg>` |

## Left out

- `GetCurvature` (transport_catalogue.cpp:78-87) is left out because it is floating-point arithmetic. So is the geographic distance it needs; geo.h is not part of this model.
- `RequestHandler.GetBusStat` does not return the curvature, for the same reason.
- `SphereProjector` (map_renderer.h:64-115) is double arithmetic with an epsilon test. It is a parameter `proj` of `RequestHandler.RenderMap`, which records only what the projector is built from.
- The writing of doubles in SVG output, including the RGBA opacity, is a parameter `fmt`.
- `CreateStar` (svg.cpp:163-175) is left out because it is trigonometry.
- json_reader.cpp, json_reader.h and main.cpp are input and output glue, left out. json.h is not part of this model; `Json.Node` stands in for its node type, with doubles opaque.
- The hash functors (domain.h:26-30, request_handler.cpp:5-9) are left out: sets and maps take their place.
- `Catalogue.TransportCatalogue.AddBus` requires every stop name to be registered. On an unknown name the source inserts a null stop pointer through `operator[]`; the model does not capture that.
- `Catalogue.TransportCatalogue.GetLengthRoute` requires a non-empty route, because the source's `route.size() - 1` underflows on an empty one.
- `Catalogue.TransportCatalogue.SumLegsOut` requires a non-empty route for the same reason: it is the loop whose bound underflows.
- `Catalogue.CountStopsOnRoute` requires a non-empty route, for the same reason.
- `RequestHandler.GetBusStat` requires a non-empty route for a known bus, for the same reason.
- `RequestHandler.GetBusStat` gives the road length as an unbounded integer; the source's 32-bit `int` overflow is not modelled.
- `Catalogue.TransportCatalogue.GetLengthRoute` sums into an unbounded integer; the source accumulates into a 32-bit `int length` (transport_catalogue.cpp:66), whose overflow on very long routes is not modelled.
- `MapRenderer.GetBusLineColor` requires a non-empty palette, because the source divides by the palette size.
- `RequestHandler.RenderMap` requires a non-empty palette, for the same reason.
- `MapRenderer.SortByName` is an insertion sort standing in for `std::sort`. It promises what `std::sort` promises (sorted by name, a permutation) and nothing about the order of buses with equal names.
- `RequestHandler.RenderMap` returns the sorted buses and the served stops as ghost results only, so that its contract can name them.
- `RequestHandler.AddAll` stands for the four loops at request_handler.cpp:60-71; it is one method called four times.
- The document holds shape values, not `unique_ptr`s. Shapes are copied into it when added, so a later change to a shape object does not reach the document; the source moves them in, so this cannot be observed.
- The setters return `this`; the model states `r == this` and does not model the chaining syntax.
- Virtual dispatch over `svg::Object` is a datatype `Svg.Object` with one case per shape.
- Inserting a key that a JSON map already has keeps the old value (`insert` is first-wins, json_builder.cpp:164). `StartArray`/`StartDict` then push a pointer to that old value. When that value is not a composite, a later `StartArray`/`StartDict`/`EndArray`/`EndDict` does nothing or throws exactly as the source does.
- `Catalogue.TransportCatalogue.AddStop` with a name already used appends a second stop and points the name at it, as the source does.

## Findings

| source | as written | input that shows it | evidently intended | confidence | as-written member | corrected member |
|---|---|---|---|---|---|---|
| json_builder.cpp:124-135 | `Key` accepts a key the open map already has, and `insert` (json_builder.cpp:61-70, 164) keeps the old value, so the context types (json_builder.h:50-72) let a call chain through that throws at run time | `StartDict().Key("a").Value(1).Key("a").StartArray().Value(3)`: every call is exposed by the type the previous one returns; `StartArray` pushes a pointer to the integer 1, so `Value(3)` throws "Invalid Value" | a chain the context types accept does not throw; a later value under a key replaces the earlier one | not executed | JsonBuilder.DuplicateKeyThroughContexts | JsonBuilder.LastWinsContextsSucceed |

The builder class `JsonBuilder.Builder` and the transitions it is proved
against keep the behaviour as written, so that every other row describes
the program as it is. The corrected behaviour is the transition
`JsonBuilder.ApplyLastWins`: a call that puts something under the pending
key first removes the entry already there (`JsonBuilder.Evict`).
`JsonBuilder.LastWinsReplaces` and `JsonBuilder.LastWinsContextsSucceed`
are proved about it.
