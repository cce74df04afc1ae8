/** The SVG writer (`svg::*`): colours, stroke styles, the optional path
    attributes every shape carries, the circle, polyline and text shapes with
    their setters, and a document that renders its shapes in insertion order.

    An `ostream` is modelled by the text written to it. How a `double` is
    written is not modelled: every rendering function takes that formatting as
    a parameter `fmt`. */
module Svg {
  import opened Wrappers
  import opened Geo
  import opened Strings

  datatype Point = Point(x: Float64, y: Float64)

  /** An `uint8_t`. */
  type Byte = x: int | 0 <= x < 256
  /** An `unsigned` (32 bits). */
  type Uint32 = x: int | 0 <= x < 0x1_0000_0000

  /** `svg::Color`, a variant of nothing (`monostate`), an RGB triple, an RGBA
      quadruple or a colour name. */
  datatype Color =
    | NoColor
    | Rgb(red: Byte, green: Byte, blue: Byte)
    | Rgba(red: Byte, green: Byte, blue: Byte, opacity: Float64)
    | Named(name: string)

  /** The `Rgb(unsigned, unsigned, unsigned)` constructor: each channel is
      cast to `uint8_t`, which keeps it modulo 256. */
  function MakeRgb(r: Uint32, g: Uint32, b: Uint32): (c: Color)
    ensures c.Rgb?
  {
    Rgb(r % 256, g % 256, b % 256)
  }

  /** The `Rgba` constructor, with the same casts. */
  function MakeRgba(r: Uint32, g: Uint32, b: Uint32, opacity: Float64): (c: Color)
    ensures c.Rgba? && c.opacity == opacity
    ensures Rgb(c.red, c.green, c.blue) == MakeRgb(r, g, b)
  {
    Rgba(r % 256, g % 256, b % 256, opacity)
  }

  /** Channels that already fit a byte are stored as given, and adding 256 to
      a channel changes nothing. */
  lemma RgbChannels(r: Uint32, g: Uint32, b: Uint32)
    ensures r < 256 && g < 256 && b < 256 ==> MakeRgb(r, g, b) == Rgb(r, g, b)
    ensures r + 256 < 0x1_0000_0000 ==> MakeRgb(r + 256, g, b) == MakeRgb(r, g, b)
    ensures MakeRgb(r, g, b) == MakeRgb(r % 256, g % 256, b % 256)
  {
  }

  /** `OstreamColorPrinter`: `none` for no colour, the name verbatim, and the
      channels of `rgb(...)`/`rgba(...)` as decimal integers. */
  function ColorText(c: Color, fmt: Float64 -> string): string {
    match c
    case NoColor => "none"
    case Named(name) => name
    case Rgb(r, g, b) => "rgb(" + Decimal(r) + "," + Decimal(g) + "," + Decimal(b) + ")"
    case Rgba(r, g, b, o) => "rgba(" + Decimal(r) + "," + Decimal(g) + "," + Decimal(b) + "," + fmt(o) + ")"
  }

  /** No colour prints as `none` and a colour name as itself; an RGB colour
      never prints like an RGBA one, since only the latter has `a` after
      `rgb`. */
  lemma ColorTextKinds(c: Color, d: Color, fmt: Float64 -> string)
    ensures c.NoColor? ==> ColorText(c, fmt) == "none"
    ensures c.Named? ==> ColorText(c, fmt) == c.name
    ensures c.Rgb? && d.Rgba? ==> ColorText(c, fmt) != ColorText(d, fmt)
  {
    if c.Rgb? && d.Rgba? {
      var a, b := ColorText(c, fmt), ColorText(d, fmt);
      RgbShape(c.red, c.green, c.blue, fmt);
      RgbaShape(d, fmt);
      assert a[3] == a[..4][3] == '(';
      assert b[3] == b[..5][3] == 'a';
    }
  }

  lemma RgbaShape(d: Color, fmt: Float64 -> string)
    requires d.Rgba?
    ensures var s := ColorText(d, fmt); |s| >= 5 && s[..5] == "rgba("
  {
    var inner := Decimal(d.red) + "," + Decimal(d.green) + "," + Decimal(d.blue) + "," + fmt(d.opacity);
    assert ColorText(d, fmt) == "rgba(" + inner + ")" by {
      Regroup4("rgba(", Decimal(d.red), ",", Decimal(d.green), "," + Decimal(d.blue) + "," + fmt(d.opacity));
    }
    Enclosed("rgba(", inner, ")");
  }

  /** The pieces of `s` between the `sep` characters. */
  function Split(s: string, sep: char): (r: seq<string>)
    ensures |r| > 0
  {
    if s == [] then [[]]
    else if s[0] == sep then [[]] + Split(s[1..], sep)
    else var rest := Split(s[1..], sep); [[s[0]] + rest[0]] + rest[1..]
  }

  lemma {:induction false} SplitNone(a: string, sep: char)
    requires sep !in a
    ensures Split(a, sep) == [a]
  {
    if a != [] {
      SplitNone(a[1..], sep);
      assert [a[0]] + a[1..] == a;
    }
  }

  lemma {:induction false} SplitFirst(a: string, sep: char, b: string)
    requires sep !in a
    ensures Split(a + [sep] + b, sep) == [a] + Split(b, sep)
  {
    if a == [] {
      assert a + [sep] + b == [sep] + b;
      assert ([sep] + b)[1..] == b;
    } else {
      assert (a + [sep] + b)[1..] == a[1..] + [sep] + b;
      SplitFirst(a[1..], sep, b);
      assert [a[0]] + a[1..] == a;
    }
  }

  /** Reading `rgb(r,g,b)` back into its channels. */
  function ParseRgb(s: string): Option<(nat, nat, nat)> {
    if |s| >= 5 && s[..4] == "rgb(" && s[|s| - 1] == ')' then
      var parts := Split(s[4..|s| - 1], ',');
      if |parts| == 3 then Some((ParseDecimal(parts[0]), ParseDecimal(parts[1]), ParseDecimal(parts[2])))
      else None
    else None
  }

  lemma DecimalHasNoComma(n: nat)
    ensures ',' !in Decimal(n)
  {
    var s := Decimal(n);
    assert forall i | 0 <= i < |s| :: s[i] != ',';
  }

  /** An RGB colour prints so that its three channels can be read back. */
  lemma RgbTextRoundTrip(r: Byte, g: Byte, b: Byte, fmt: Float64 -> string)
    ensures ParseRgb(ColorText(Rgb(r, g, b), fmt)) == Some((r, g, b))
  {
    var dr, dg, db := Decimal(r), Decimal(g), Decimal(b);
    RgbShape(r, g, b, fmt);
    DecimalHasNoComma(r);
    DecimalHasNoComma(g);
    DecimalHasNoComma(b);
    SplitThree(dr, dg, db);
    DecimalRoundTrip(r);
    DecimalRoundTrip(g);
    DecimalRoundTrip(b);
  }

  lemma RgbShape(r: Byte, g: Byte, b: Byte, fmt: Float64 -> string)
    ensures var s := ColorText(Rgb(r, g, b), fmt);
      && |s| >= 5 && s[..4] == "rgb(" && s[|s| - 1] == ')'
      && s[4..|s| - 1] == Decimal(r) + [','] + (Decimal(g) + [','] + Decimal(b))
  {
    var inner := Decimal(r) + [','] + (Decimal(g) + [','] + Decimal(b));
    assert ColorText(Rgb(r, g, b), fmt) == "rgb(" + inner + ")";
    Enclosed("rgb(", inner, ")");
  }

  /** The pieces of a string put together from three pieces. */
  lemma Enclosed(open: string, inner: string, close: string)
    requires |close| == 1
    ensures var s := open + inner + close;
      && s[..|open|] == open && s[|s| - 1] == close[0] && s[|open|..|s| - 1] == inner
  {
  }

  lemma SplitThree(a: string, b: string, c: string)
    requires ',' !in a && ',' !in b && ',' !in c
    ensures Split(a + [','] + (b + [','] + c), ',') == [a, b, c]
  {
    SplitFirst(a, ',', b + [','] + c);
    SplitFirst(b, ',', c);
    SplitNone(c, ',');
  }

  /** Two RGB colours print alike only when they are the same colour. */
  lemma RgbTextInjective(c: Color, d: Color, fmt: Float64 -> string)
    requires c.Rgb? && d.Rgb? && ColorText(c, fmt) == ColorText(d, fmt)
    ensures c == d
  {
    RgbTextRoundTrip(c.red, c.green, c.blue, fmt);
    RgbTextRoundTrip(d.red, d.green, d.blue, fmt);
  }

  datatype StrokeLineCap = Butt | RoundCap | Square

  datatype StrokeLineJoin = Arcs | Bevel | Miter | MiterClip | RoundJoin

  /** `operator<<` for `StrokeLineCap`: a distinct keyword per cap, which
      reads back as that cap. */
  function LineCapText(c: StrokeLineCap): (r: string)
    ensures ParseLineCap(r) == Some(c)
  {
    match c
    case Butt => "butt"
    case RoundCap => "round"
    case Square => "square"
  }

  /** `operator<<` for `StrokeLineJoin`: a distinct keyword per join, which
      reads back as that join. */
  function LineJoinText(j: StrokeLineJoin): (r: string)
    ensures ParseLineJoin(r) == Some(j)
  {
    match j
    case Arcs => "arcs"
    case Bevel => "bevel"
    case Miter => "miter"
    case MiterClip => "miter-clip"
    case RoundJoin => "round"
  }

  function ParseLineCap(s: string): Option<StrokeLineCap> {
    if s == "butt" then Some(Butt)
    else if s == "round" then Some(RoundCap)
    else if s == "square" then Some(Square)
    else None
  }

  function ParseLineJoin(s: string): Option<StrokeLineJoin> {
    if s == "arcs" then Some(Arcs)
    else if s == "bevel" then Some(Bevel)
    else if s == "miter" then Some(Miter)
    else if s == "miter-clip" then Some(MiterClip)
    else if s == "round" then Some(RoundJoin)
    else None
  }

  /** The optional attributes of `PathProps`. */
  datatype PathProps = PathProps(
    fill: Option<Color>,
    stroke: Option<Color>,
    width: Option<Float64>,
    cap: Option<StrokeLineCap>,
    join: Option<StrokeLineJoin>)

  const NoProps := PathProps(None, None, None, None, None)

  /** ` name="value"`. */
  function Attr(name: string, value: string): string {
    " " + name + "=\"" + value + "\""
  }

  /** `RenderAttrs`: the attributes that are set, in the fixed order fill,
      stroke, stroke-width, stroke-linecap, stroke-linejoin. */
  function AttrsText(p: PathProps, fmt: Float64 -> string): string {
    FillAttr(p.fill, fmt) + StrokeAttr(p.stroke, fmt) + WidthAttr(p.width, fmt)
    + CapAttr(p.cap) + JoinAttr(p.join)
  }

  function FillAttr(fill: Option<Color>, fmt: Float64 -> string): string {
    if fill.Some? then Attr("fill", ColorText(fill.value, fmt)) else ""
  }

  function StrokeAttr(stroke: Option<Color>, fmt: Float64 -> string): string {
    if stroke.Some? then Attr("stroke", ColorText(stroke.value, fmt)) else ""
  }

  function WidthAttr(width: Option<Float64>, fmt: Float64 -> string): string {
    if width.Some? then Attr("stroke-width", fmt(width.value)) else ""
  }

  function CapAttr(cap: Option<StrokeLineCap>): string {
    if cap.Some? then Attr("stroke-linecap", LineCapText(cap.value)) else ""
  }

  function JoinAttr(join: Option<StrokeLineJoin>): string {
    if join.Some? then Attr("stroke-linejoin", LineJoinText(join.value)) else ""
  }

  /** Nothing is written exactly when no attribute was set. */
  lemma AttrsEmpty(p: PathProps, fmt: Float64 -> string)
    ensures AttrsText(p, fmt) == "" <==> p == NoProps
  {
    var a, b, c := FillAttr(p.fill, fmt), StrokeAttr(p.stroke, fmt), WidthAttr(p.width, fmt);
    var d, e := CapAttr(p.cap), JoinAttr(p.join);
    assert |AttrsText(p, fmt)| == |a| + |b| + |c| + |d| + |e|;
    assert a == "" <==> p.fill.None?;
    assert b == "" <==> p.stroke.None?;
    assert c == "" <==> p.width.None?;
    assert d == "" <==> p.cap.None?;
    assert e == "" <==> p.join.None?;
  }

  /** Setting the fill puts its attribute first, whatever else is set. */
  lemma FillFirst(p: PathProps, c: Color, fmt: Float64 -> string)
    ensures AttrsText(p.(fill := Some(c)), fmt) == Attr("fill", ColorText(c, fmt)) + AttrsText(p.(fill := None), fmt)
  {
    var b, w := StrokeAttr(p.stroke, fmt), WidthAttr(p.width, fmt);
    var d, e := CapAttr(p.cap), JoinAttr(p.join);
    var a := Attr("fill", ColorText(c, fmt));
    assert AttrsText(p.(fill := Some(c)), fmt) == a + (b + w + d + e) by {
      Regroup(a, b, w, d, e);
    }
    assert AttrsText(p.(fill := None), fmt) == b + w + d + e by {
      assert FillAttr(None, fmt) == "";
      Regroup("", b, w, d, e);
    }
  }

  /** Moving the first of five pieces out of a concatenation. */
  lemma Regroup(a: string, b: string, c: string, d: string, e: string)
    ensures a + b + c + d + e == a + (b + c + d + e)
  {
  }

  /** Setting the line join puts its attribute last, whatever else is set. */
  lemma JoinLast(p: PathProps, j: StrokeLineJoin, fmt: Float64 -> string)
    ensures AttrsText(p.(join := Some(j)), fmt) == AttrsText(p.(join := None), fmt) + Attr("stroke-linejoin", LineJoinText(j))
  {
    var a, b, w := FillAttr(p.fill, fmt), StrokeAttr(p.stroke, fmt), WidthAttr(p.width, fmt);
    var front := a + b + w + CapAttr(p.cap);
    assert AttrsText(p.(join := Some(j)), fmt) == front + Attr("stroke-linejoin", LineJoinText(j));
    assert AttrsText(p.(join := None), fmt) == front by {
      assert JoinAttr(None) == "";
      assert front + "" == front;
    }
  }

  // ----- Text escaping -----

  /** What `SetData` writes for one character: an entity `&...;` for each of
      the five special characters, the character itself otherwise. */
  function EscapeChar(c: char): (r: string)
    ensures Special(c) <==> r != [c]
    ensures Special(c) ==> |r| >= 4 && r[0] == '&' && r[|r| - 1] == ';'
  {
    if c == '"' then "&quot;"
    else if c == '\'' then "&apos;"
    else if c == '<' then "&lt;"
    else if c == '>' then "&gt;"
    else if c == '&' then "&amp;"
    else [c]
  }

  /** The text `SetData` stores: every character escaped in turn. */
  function Escape(s: string): string {
    if s == [] then [] else EscapeChar(s[0]) + Escape(s[1..])
  }

  lemma {:induction false} EscapeConcat(a: string, b: string)
    ensures Escape(a + b) == Escape(a) + Escape(b)
  {
    if a == [] {
      assert a + b == b;
    } else {
      assert (a + b)[0] == a[0] && (a + b)[1..] == a[1..] + b;
      EscapeConcat(a[1..], b);
    }
  }

  predicate Special(c: char) {
    c == '"' || c == '\'' || c == '<' || c == '>' || c == '&'
  }

  /** Stored text holds no raw quote, apostrophe or angle bracket. */
  lemma {:induction false} EscapeHasNoRawSpecials(s: string)
    ensures forall i | 0 <= i < |Escape(s)| :: Escape(s)[i] !in "\"'<>"
  {
    if s != [] {
      EscapeHasNoRawSpecials(s[1..]);
      var e, rest := EscapeChar(s[0]), Escape(s[1..]);
      EscapeCharHasNoRawSpecials(s[0]);
      forall i | 0 <= i < |e + rest|
        ensures (e + rest)[i] !in "\"'<>"
      {
        if i >= |e| {
          assert (e + rest)[i] == rest[i - |e|];
        } else {
          assert (e + rest)[i] == e[i];
        }
      }
    }
  }

  lemma EscapeCharHasNoRawSpecials(c: char)
    ensures forall i | 0 <= i < |EscapeChar(c)| :: EscapeChar(c)[i] !in "\"'<>"
  {
  }

  /** Text with none of the five characters is stored unchanged. */
  lemma {:induction false} EscapeIdentity(s: string)
    requires forall i | 0 <= i < |s| :: !Special(s[i])
    ensures Escape(s) == s
  {
    if s != [] {
      EscapeIdentity(s[1..]);
      assert [s[0]] + s[1..] == s;
    }
  }

  /** Reading the entities back. */
  function Unescape(s: string): string
    decreases |s|
  {
    if s == [] then []
    else if s[0] != '&' then [s[0]] + Unescape(s[1..])
    else if |s| >= 6 && s[..6] == "&quot;" then "\"" + Unescape(s[6..])
    else if |s| >= 6 && s[..6] == "&apos;" then "'" + Unescape(s[6..])
    else if |s| >= 4 && s[..4] == "&lt;" then "<" + Unescape(s[4..])
    else if |s| >= 4 && s[..4] == "&gt;" then ">" + Unescape(s[4..])
    else if |s| >= 5 && s[..5] == "&amp;" then "&" + Unescape(s[5..])
    else [s[0]] + Unescape(s[1..])
  }

  /** Reading back one escaped character gives that character. */
  lemma UnescapeOne(c: char, rest: string)
    ensures Unescape(EscapeChar(c) + rest) == [c] + Unescape(rest)
  {
    if !Special(c) {
      assert EscapeChar(c) + rest == [c] + rest;
    } else if c == '"' {
      UnescapeQuot(rest);
    } else if c == '\'' {
      UnescapeApos(rest);
    } else if c == '<' {
      UnescapeLt(rest);
    } else if c == '>' {
      UnescapeGt(rest);
    } else {
      UnescapeAmp(rest);
    }
  }

  lemma UnescapeQuot(rest: string)
    ensures Unescape("&quot;" + rest) == "\"" + Unescape(rest)
  {
    var t := "&quot;" + rest;
    assert t[..6] == "&quot;" && t[6..] == rest;
  }

  lemma UnescapeApos(rest: string)
    ensures Unescape("&apos;" + rest) == "'" + Unescape(rest)
  {
    var t := "&apos;" + rest;
    assert t[..6] == "&apos;" && t[1] == 'a' && t[6..] == rest;
  }

  lemma UnescapeLt(rest: string)
    ensures Unescape("&lt;" + rest) == "<" + Unescape(rest)
  {
    var t := "&lt;" + rest;
    assert t[..4] == "&lt;" && t[1] == 'l' && t[4..] == rest;
  }

  lemma UnescapeGt(rest: string)
    ensures Unescape("&gt;" + rest) == ">" + Unescape(rest)
  {
    var t := "&gt;" + rest;
    assert t[..4] == "&gt;" && t[1] == 'g' && t[4..] == rest;
  }

  lemma UnescapeAmp(rest: string)
    ensures Unescape("&amp;" + rest) == "&" + Unescape(rest)
  {
    var t := "&amp;" + rest;
    assert t[..5] == "&amp;" && t[1] == 'a' && t[2] == 'm' && t[5..] == rest;
  }

  /** Escaping loses nothing: the stored text reads back as the data given. */
  lemma {:induction false} EscapeRoundTrip(s: string)
    ensures Unescape(Escape(s)) == s
  {
    if s != [] {
      var rest := Escape(s[1..]);
      assert Escape(s) == EscapeChar(s[0]) + rest;
      EscapeRoundTrip(s[1..]);
      UnescapeOne(s[0], rest);
      assert [s[0]] + s[1..] == s;
    }
  }

  // ----- Shapes -----

  /** A shape as `Document` stores it: the union of the three subclasses of
      `svg::Object`. */
  datatype Object =
    | CircleShape(center: Point, radius: Float64, props: PathProps)
    | PolylineShape(points: seq<Point>, props: PathProps)
    | TextShape(position: Point, offset: Point, fontSize: Uint32, fontFamily: string,
                fontWeight: string, data: string, props: PathProps)

  class Circle {
    var center: Point
    var radius: Float64
    var props: PathProps

    constructor ()
      ensures center == Point(Zero, Zero) && radius == One && props == NoProps
    {
      center, radius, props := Point(Zero, Zero), One, NoProps;
    }

    function Value(): Object
      reads this
    {
      CircleShape(center, radius, props)
    }

    method SetCenter(c: Point) returns (r: Circle)
      modifies this
      ensures center == c && radius == old(radius) && props == old(props) && r == this
    {
      center := c;
      r := this;
    }

    method SetRadius(x: Float64) returns (r: Circle)
      modifies this
      ensures radius == x && center == old(center) && props == old(props) && r == this
    {
      radius := x;
      r := this;
    }

    method SetFillColor(c: Color) returns (r: Circle)
      modifies this
      ensures props == old(props).(fill := Some(c)) && center == old(center) && radius == old(radius) && r == this
    {
      props := props.(fill := Some(c));
      r := this;
    }

    method SetStrokeColor(c: Color) returns (r: Circle)
      modifies this
      ensures props == old(props).(stroke := Some(c)) && center == old(center) && radius == old(radius) && r == this
    {
      props := props.(stroke := Some(c));
      r := this;
    }

    method SetStrokeWidth(w: Float64) returns (r: Circle)
      modifies this
      ensures props == old(props).(width := Some(w)) && center == old(center) && radius == old(radius) && r == this
    {
      props := props.(width := Some(w));
      r := this;
    }

    method SetStrokeLineCap(c: StrokeLineCap) returns (r: Circle)
      modifies this
      ensures props == old(props).(cap := Some(c)) && center == old(center) && radius == old(radius) && r == this
    {
      props := props.(cap := Some(c));
      r := this;
    }

    method SetStrokeLineJoin(j: StrokeLineJoin) returns (r: Circle)
      modifies this
      ensures props == old(props).(join := Some(j)) && center == old(center) && radius == old(radius) && r == this
    {
      props := props.(join := Some(j));
      r := this;
    }
  }

  class Polyline {
    var points: seq<Point>
    var props: PathProps

    constructor ()
      ensures points == [] && props == NoProps
    {
      points, props := [], NoProps;
    }

    function Value(): Object
      reads this
    {
      PolylineShape(points, props)
    }

    /** `AddPoint`: one more vertex at the end. */
    method AddPoint(p: Point) returns (r: Polyline)
      modifies this
      ensures points == old(points) + [p] && props == old(props) && r == this
    {
      points := points + [p];
      r := this;
    }

    method SetFillColor(c: Color) returns (r: Polyline)
      modifies this
      ensures props == old(props).(fill := Some(c)) && points == old(points) && r == this
    {
      props := props.(fill := Some(c));
      r := this;
    }

    method SetStrokeColor(c: Color) returns (r: Polyline)
      modifies this
      ensures props == old(props).(stroke := Some(c)) && points == old(points) && r == this
    {
      props := props.(stroke := Some(c));
      r := this;
    }

    method SetStrokeWidth(w: Float64) returns (r: Polyline)
      modifies this
      ensures props == old(props).(width := Some(w)) && points == old(points) && r == this
    {
      props := props.(width := Some(w));
      r := this;
    }

    method SetStrokeLineCap(c: StrokeLineCap) returns (r: Polyline)
      modifies this
      ensures props == old(props).(cap := Some(c)) && points == old(points) && r == this
    {
      props := props.(cap := Some(c));
      r := this;
    }

    method SetStrokeLineJoin(j: StrokeLineJoin) returns (r: Polyline)
      modifies this
      ensures props == old(props).(join := Some(j)) && points == old(points) && r == this
    {
      props := props.(join := Some(j));
      r := this;
    }
  }

  class Text {
    var position: Point
    var offset: Point
    var fontSize: Uint32
    var fontFamily: string
    var fontWeight: string
    var data: string
    var props: PathProps

    constructor ()
      ensures position == Point(Zero, Zero) && offset == Point(Zero, Zero) && fontSize == 1
      ensures fontFamily == "" && fontWeight == "" && data == "" && props == NoProps
    {
      position, offset, fontSize := Point(Zero, Zero), Point(Zero, Zero), 1;
      fontFamily, fontWeight, data, props := "", "", "", NoProps;
    }

    function Value(): Object
      reads this
    {
      TextShape(position, offset, fontSize, fontFamily, fontWeight, data, props)
    }

    method SetPosition(p: Point) returns (r: Text)
      modifies this
      ensures Value() == TextShape(p, old(offset), old(fontSize), old(fontFamily), old(fontWeight), old(data), old(props)) && r == this
    {
      position := p;
      r := this;
    }

    method SetOffset(p: Point) returns (r: Text)
      modifies this
      ensures Value() == TextShape(old(position), p, old(fontSize), old(fontFamily), old(fontWeight), old(data), old(props)) && r == this
    {
      offset := p;
      r := this;
    }

    method SetFontSize(size: Uint32) returns (r: Text)
      modifies this
      ensures Value() == TextShape(old(position), old(offset), size, old(fontFamily), old(fontWeight), old(data), old(props)) && r == this
    {
      fontSize := size;
      r := this;
    }

    method SetFontFamily(family: string) returns (r: Text)
      modifies this
      ensures Value() == TextShape(old(position), old(offset), old(fontSize), family, old(fontWeight), old(data), old(props)) && r == this
    {
      fontFamily := family;
      r := this;
    }

    method SetFontWeight(weight: string) returns (r: Text)
      modifies this
      ensures Value() == TextShape(old(position), old(offset), old(fontSize), old(fontFamily), weight, old(data), old(props)) && r == this
    {
      fontWeight := weight;
      r := this;
    }

    /** `SetData`: store the text with its XML specials escaped. */
    method SetData(s: string) returns (r: Text)
      modifies this
      ensures Value() == TextShape(old(position), old(offset), old(fontSize), old(fontFamily), old(fontWeight), Escape(s), old(props)) && r == this
    {
      var result := "";
      var i := 0;
      while i < |s|
        invariant 0 <= i <= |s|
        invariant result == Escape(s[..i])
        invariant Value() == old(Value())
      {
        EscapeConcat(s[..i], [s[i]]);
        assert s[..i + 1] == s[..i] + [s[i]];
        assert Escape([s[i]]) == EscapeChar(s[i]);
        result := result + EscapeChar(s[i]);
        i := i + 1;
      }
      assert s[..i] == s;
      data := result;
      r := this;
    }

    method SetFillColor(c: Color) returns (r: Text)
      modifies this
      ensures Value() == TextShape(old(position), old(offset), old(fontSize), old(fontFamily), old(fontWeight), old(data), old(props).(fill := Some(c))) && r == this
    {
      props := props.(fill := Some(c));
      r := this;
    }

    method SetStrokeColor(c: Color) returns (r: Text)
      modifies this
      ensures Value() == TextShape(old(position), old(offset), old(fontSize), old(fontFamily), old(fontWeight), old(data), old(props).(stroke := Some(c))) && r == this
    {
      props := props.(stroke := Some(c));
      r := this;
    }

    method SetStrokeWidth(w: Float64) returns (r: Text)
      modifies this
      ensures Value() == TextShape(old(position), old(offset), old(fontSize), old(fontFamily), old(fontWeight), old(data), old(props).(width := Some(w))) && r == this
    {
      props := props.(width := Some(w));
      r := this;
    }

    method SetStrokeLineCap(c: StrokeLineCap) returns (r: Text)
      modifies this
      ensures Value() == TextShape(old(position), old(offset), old(fontSize), old(fontFamily), old(fontWeight), old(data), old(props).(cap := Some(c))) && r == this
    {
      props := props.(cap := Some(c));
      r := this;
    }

    method SetStrokeLineJoin(j: StrokeLineJoin) returns (r: Text)
      modifies this
      ensures Value() == TextShape(old(position), old(offset), old(fontSize), old(fontFamily), old(fontWeight), old(data), old(props).(join := Some(j))) && r == this
    {
      props := props.(join := Some(j));
      r := this;
    }
  }

  // ----- Rendering -----

  /** `x,y` for one vertex. */
  function PointText(p: Point, fmt: Float64 -> string): string {
    fmt(p.x) + "," + fmt(p.y)
  }

  /** The vertices of a polyline, a single space between two, none before the
      first or after the last. */
  function PointsText(ps: seq<Point>, fmt: Float64 -> string): string
    decreases |ps|
  {
    if ps == [] then ""
    else if |ps| == 1 then PointText(ps[0], fmt)
    else PointsText(ps[..|ps| - 1], fmt) + " " + PointText(ps[|ps| - 1], fmt)
  }

  /** The spaces in `s`. */
  function SpaceCount(s: string): nat {
    multiset(s)[' ']
  }

  /** When numbers print without spaces, the vertex list has exactly one
      space per gap between vertices, and none at either end. */
  lemma {:induction false} PointsSeparated(ps: seq<Point>, fmt: Float64 -> string)
    requires forall x :: ' ' !in fmt(x)
    ensures ps != [] ==> SpaceCount(PointsText(ps, fmt)) == |ps| - 1
    ensures ps != [] ==> var t := PointsText(ps, fmt); t[0] != ' ' && t[|t| - 1] != ' '
    decreases |ps|
  {
    if ps != [] {
      var last := PointText(ps[|ps| - 1], fmt);
      assert ' ' !in fmt(ps[|ps| - 1].x) && ' ' !in fmt(ps[|ps| - 1].y);
      assert SpaceCount(last) == 0 by {
        assert multiset(last) == multiset(fmt(ps[|ps| - 1].x)) + multiset{','} + multiset(fmt(ps[|ps| - 1].y));
      }
      assert last[|last| - 1] != ' ';
      if |ps| > 1 {
        PointsSeparated(ps[..|ps| - 1], fmt);
        var init := PointsText(ps[..|ps| - 1], fmt);
        assert multiset(init + " " + last) == multiset(init) + multiset{' '} + multiset(last);
      } else {
        assert last[0] != ' ' by {
          var fx := fmt(ps[0].x);
          if fx != [] { assert fx[0] in fx; } else { assert last[0] == ','; }
        }
      }
      var t := PointsText(ps, fmt);
      if |ps| > 1 {
        var init := PointsText(ps[..|ps| - 1], fmt);
        assert t[0] == init[0];
      }
    }
  }

  /** `RenderContext`: the indent of the current element and the step one
      nesting level adds. */
  datatype RenderContext = RenderContext(indentStep: int, indent: int)

  /** `Indented`: one level deeper, same step. */
  function Indented(c: RenderContext): (r: RenderContext)
    ensures r.indentStep == c.indentStep && r.indent - c.indent == c.indentStep
  {
    RenderContext(c.indentStep, c.indent + c.indentStep)
  }

  /** `RenderIndent`: `indent` spaces, none when the indent is not positive. */
  function IndentText(c: RenderContext): string {
    Spaces(if c.indent > 0 then c.indent else 0)
  }

  /** One level deeper writes the current indent followed by one step of
      spaces. */
  lemma IndentedAddsStep(c: RenderContext)
    requires c.indent >= 0 && c.indentStep >= 0
    ensures IndentText(Indented(c)) == IndentText(c) + Spaces(c.indentStep)
  {
    var deeper, current, step := IndentText(Indented(c)), IndentText(c), Spaces(c.indentStep);
    IndentSpaces(c);
    IndentSpaces(Indented(c));
    assert |deeper| == |current + step|;
    forall i | 0 <= i < |deeper|
      ensures deeper[i] == (current + step)[i]
    {
      if i < |current| {
        assert (current + step)[i] == current[i];
      } else {
        assert (current + step)[i] == step[i - |current|];
      }
    }
  }

  /** The indent is exactly `indent` spaces, or nothing when it is not positive. */
  lemma IndentSpaces(c: RenderContext)
    ensures |IndentText(c)| == (if c.indent > 0 then c.indent else 0)
    ensures forall i | 0 <= i < |IndentText(c)| :: IndentText(c)[i] == ' '
  {
  }

  /** `RenderObject` of each shape. */
  function ObjectText(o: Object, fmt: Float64 -> string): string {
    match o
    case CircleShape(center, radius, props) =>
      "<circle" + CircleAttrs(center, radius, props, fmt) + "/>"
    case PolylineShape(points, props) =>
      "<polyline" + " points=\"" + PointsText(points, fmt) + "\"" + AttrsText(props, fmt) + "/>"
    case TextShape(position, offset, size, family, weight, data, props) =>
      TextHead(position, offset, size, props, fmt) + FontAttrs(family, weight) + TextTail(data)
  }

  /** The attributes of a circle: centre, radius, then the path attributes. */
  function CircleAttrs(center: Point, radius: Float64, props: PathProps, fmt: Float64 -> string): string {
    " cx=\"" + fmt(center.x) + "\" cy=\"" + fmt(center.y) + "\" " + "r=\"" + fmt(radius) + "\"" + AttrsText(props, fmt)
  }

  /** Each shape writes one element of its own kind: a self-closing
      `<circle .../>` or `<polyline .../>`, or `<text ...>` closed by
      `</text>`. */
  lemma ObjectTextElement(o: Object, fmt: Float64 -> string)
    ensures var r := ObjectText(o, fmt);
      match o
      case CircleShape(_, _, _) => |r| >= 9 && r[..7] == "<circle" && r[|r| - 2..] == "/>"
      case PolylineShape(_, _) => |r| >= 11 && r[..9] == "<polyline" && r[|r| - 2..] == "/>"
      case TextShape(_, _, _, _, _, _, _) => |r| >= 12 && r[..5] == "<text" && r[|r| - 7..] == "</text>"
  {
    match o
    case CircleShape(center, radius, props) =>
      Frame("<circle", CircleAttrs(center, radius, props, fmt), "/>");
    case PolylineShape(points, props) =>
      PolylineElement(points, props, fmt);
    case TextShape(position, offset, size, family, weight, data, props) =>
      TextElement(o, fmt);
  }

  lemma PolylineElement(points: seq<Point>, props: PathProps, fmt: Float64 -> string)
    ensures var r := ObjectText(PolylineShape(points, props), fmt);
      |r| >= 11 && r[..9] == "<polyline" && r[|r| - 2..] == "/>"
  {
    var attrs := " points=\"" + PointsText(points, fmt) + "\"" + AttrsText(props, fmt);
    Regroup4("<polyline", " points=\"", PointsText(points, fmt), "\"", AttrsText(props, fmt));
    Frame("<polyline", attrs, "/>");
  }

  lemma TextElement(o: Object, fmt: Float64 -> string)
    requires o.TextShape?
    ensures var r := ObjectText(o, fmt);
      |r| >= 12 && r[..5] == "<text" && r[|r| - 7..] == "</text>"
  {
    var placement := TextPlacement(o.position, o.offset, o.fontSize, o.props, fmt);
    var font := FontAttrs(o.fontFamily, o.fontWeight);
    ReframeText("<text", placement, font, ">" + o.data, "</text>");
    Frame("<text", placement + font + (">" + o.data), "</text>");
  }

  /** A string made of an opening, a middle and a closing begins with the
      opening and ends with the closing. */
  lemma Frame(open: string, middle: string, close: string)
    ensures var r := open + middle + close;
      |r| >= |open| + |close| && r[..|open|] == open && r[|r| - |close|..] == close
  {
  }

  lemma Regroup4(a: string, b: string, c: string, d: string, e: string)
    ensures a + b + c + d + e == a + (b + c + d + e)
  {
  }

  lemma ReframeText(open: string, placement: string, font: string, data: string, close: string)
    ensures (open + placement) + font + (data + close) == open + (placement + font + data) + close
  {
  }

  /** `font-family` and `font-weight`, each only when it is not empty. */
  function FontAttrs(family: string, weight: string): string {
    (if family != "" then Attr("font-family", family) else "")
    + (if weight != "" then Attr("font-weight", weight) else "")
  }

  /** The end of a text element: its (already escaped) data and closing tag. */
  function TextTail(data: string): string {
    ">" + data + "</text>"
  }

  /** The attributes every text element carries, up to its font size. */
  function TextHead(position: Point, offset: Point, size: Uint32, props: PathProps, fmt: Float64 -> string): string {
    "<text" + TextPlacement(position, offset, size, props, fmt)
  }

  /** The path attributes, position, offset and font size of a text element. */
  function TextPlacement(position: Point, offset: Point, size: Uint32, props: PathProps, fmt: Float64 -> string): string {
    AttrsText(props, fmt)
    + " x=\"" + fmt(position.x) + "\" y=\"" + fmt(position.y) + "\" "
    + "dx=\"" + fmt(offset.x) + "\" dy=\"" + fmt(offset.y) + "\" "
    + "font-size=\"" + Decimal(size) + "\""
  }

  /** A text element carries `font-family` and `font-weight` only when they
      are not empty: its rendering is that of the same text without them, with
      each non-empty one inserted just before the closing `>`. */
  lemma TextFontAttributes(o: Object, fmt: Float64 -> string)
    requires o.TextShape?
    ensures var bare := ObjectText(o.(fontFamily := "", fontWeight := ""), fmt);
      var tail := ">" + o.data + "</text>";
      && |tail| <= |bare|
      && ObjectText(o, fmt) == bare[..|bare| - |tail|]
           + (if o.fontFamily != "" then Attr("font-family", o.fontFamily) else "")
           + (if o.fontWeight != "" then Attr("font-weight", o.fontWeight) else "")
           + tail
  {
    var head := TextHead(o.position, o.offset, o.fontSize, o.props, fmt);
    var tail := TextTail(o.data);
    var family := if o.fontFamily != "" then Attr("font-family", o.fontFamily) else "";
    var weight := if o.fontWeight != "" then Attr("font-weight", o.fontWeight) else "";
    BareText(o, fmt);
    DropSuffix(head, tail);
    assert ObjectText(o, fmt) == head + FontAttrs(o.fontFamily, o.fontWeight) + tail;
    assert head + FontAttrs(o.fontFamily, o.fontWeight) == head + family + weight by {
      Assoc(head, family, weight);
    }
  }

  lemma DropSuffix(a: string, b: string)
    ensures |b| <= |a + b| && (a + b)[..|a + b| - |b|] == a
  {
  }

  lemma Assoc(a: string, b: string, c: string)
    ensures a + (b + c) == a + b + c
  {
  }

  lemma BareText(o: Object, fmt: Float64 -> string)
    requires o.TextShape?
    ensures ObjectText(o.(fontFamily := "", fontWeight := ""), fmt)
      == TextHead(o.position, o.offset, o.fontSize, o.props, fmt) + TextTail(o.data)
  {
    var b := o.(fontFamily := "", fontWeight := "");
    var head := TextHead(o.position, o.offset, o.fontSize, o.props, fmt);
    assert ObjectText(b, fmt) == head + FontAttrs("", "") + TextTail(o.data);
    assert FontAttrs("", "") == "";
    assert head + "" == head;
  }

  /** `Object::Render`: the indent, the element, a newline. */
  function RenderedLine(o: Object, c: RenderContext, fmt: Float64 -> string): string {
    IndentText(c) + ObjectText(o, fmt) + "\n"
  }

  /** The shapes of a document, one line each at the document's indent. */
  function Lines(objects: seq<Object>, fmt: Float64 -> string): string
    decreases |objects|
  {
    if objects == [] then ""
    else Lines(objects[..|objects| - 1], fmt) + RenderedLine(objects[|objects| - 1], RenderContext(2, 2), fmt)
  }

  const XmlDeclaration := "<?xml version=\"1.0\" encoding=\"UTF-8\" ?>"
  const SvgOpen := "<svg xmlns=\"http://www.w3.org/2000/svg\" version=\"1.1\">"

  /** `Document::Render`: the XML declaration, the `<svg>` tag, each shape on
      its own line indented by two, and the closing tag. */
  function DocumentText(objects: seq<Object>, fmt: Float64 -> string): string {
    XmlDeclaration + "\n" + SvgOpen + "\n" + Lines(objects, fmt) + "</svg>"
  }

  /** The lines of two runs of shapes are the lines of the first followed by
      those of the second: a document renders its shapes in insertion order. */
  lemma {:induction false} LinesConcat(a: seq<Object>, b: seq<Object>, fmt: Float64 -> string)
    ensures Lines(a + b, fmt) == Lines(a, fmt) + Lines(b, fmt)
    decreases |b|
  {
    if b == [] {
      assert a + b == a;
    } else {
      var ab, init, last := a + b, b[..|b| - 1], b[|b| - 1];
      assert ab[..|ab| - 1] == a + init && ab[|ab| - 1] == last;
      var line := RenderedLine(last, RenderContext(2, 2), fmt);
      LinesLast(ab, fmt);
      LinesLast(b, fmt);
      LinesConcat(a, init, fmt);
      var la, li := Lines(a, fmt), Lines(init, fmt);
      assert Lines(ab, fmt) == Lines(a + init, fmt) + line;
      assert Lines(a + init, fmt) == la + li;
      assert Lines(b, fmt) == li + line;
      ConcatAssoc(la, li, line);
    }
  }

  lemma ConcatAssoc(x: string, y: string, z: string)
    ensures x + y + z == x + (y + z)
  {
  }

  lemma LinesLast(objects: seq<Object>, fmt: Float64 -> string)
    requires objects != []
    ensures Lines(objects, fmt) == Lines(objects[..|objects| - 1], fmt) + RenderedLine(objects[|objects| - 1], RenderContext(2, 2), fmt)
  {
  }

  lemma LinesSnoc(objects: seq<Object>, i: nat, fmt: Float64 -> string)
    requires i < |objects|
    ensures Lines(objects[..i + 1], fmt) == Lines(objects[..i], fmt) + RenderedLine(objects[i], RenderContext(2, 2), fmt)
  {
    assert objects[..i + 1][..i] == objects[..i];
  }

  class Document {
    var objects: seq<Object>

    constructor ()
      ensures objects == []
    {
      objects := [];
    }

    /** `AddPtr`: one more shape at the end. */
    method AddPtr(o: Object)
      modifies this
      ensures objects == old(objects) + [o]
    {
      objects := objects + [o];
    }

    /** `Render`: write the document, shape by shape. */
    method Render(fmt: Float64 -> string) returns (out: string)
      ensures out == DocumentText(objects, fmt)
    {
      var head := XmlDeclaration + "\n" + SvgOpen + "\n";
      out := head;
      var ctx := RenderContext(2, 2);
      var i := 0;
      while i < |objects|
        invariant 0 <= i <= |objects|
        invariant out == head + Lines(objects[..i], fmt)
      {
        var indent := RenderIndent(ctx);
        var line := indent + ObjectText(objects[i], fmt) + "\n";
        assert line == RenderedLine(objects[i], ctx, fmt);
        LinesSnoc(objects, i, fmt);
        ConcatAssoc(head, Lines(objects[..i], fmt), line);
        out := out + line;
        i := i + 1;
      }
      assert objects[..i] == objects;
      out := out + "</svg>";
    }
  }

  /** `RenderIndent`, space by space. */
  method RenderIndent(c: RenderContext) returns (out: string)
    ensures out == IndentText(c)
  {
    out := "";
    var i := 0;
    while i < c.indent
      invariant 0 <= i && (c.indent > 0 ==> i <= c.indent) && (c.indent <= 0 ==> i == 0)
      invariant out == Spaces(i)
    {
      out := out + " ";
      i := i + 1;
    }
  }

  /** `Polyline::RenderObject`'s loop over the vertices, with its delimiter
      that is empty before the first vertex and a space after. */
  method RenderPoints(ps: seq<Point>, fmt: Float64 -> string) returns (out: string)
    ensures out == PointsText(ps, fmt)
  {
    out := "";
    var delimiter := "";
    var i := 0;
    while i < |ps|
      invariant 0 <= i <= |ps|
      invariant out == PointsText(ps[..i], fmt)
      invariant delimiter == if i == 0 then "" else " "
    {
      assert ps[..i + 1][..i] == ps[..i];
      out := out + delimiter + fmt(ps[i].x) + "," + fmt(ps[i].y);
      delimiter := " ";
      i := i + 1;
    }
    assert ps[..i] == ps;
  }
}
