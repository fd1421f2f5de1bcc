/** The segmented line: a polyline drawn one stroke per segment, each stroke
    starting where the previous one ended, with per-segment style and shadow keys
    that fall back on the line's defaults. */
module SegmentedLines {
  import opened Js
  import opened Geometry

  /** An entry of `segments`: the end point and the optional per-segment keys. */
  datatype SegmentPoint = SegmentPoint(
    x2: real,
    y2: real,
    color: Opt<string>,
    lineWidth: Opt<real>,
    cap: Opt<string>,
    join: Opt<string>,
    shadow: Opt<bool>,
    shadowColor: Opt<string>,
    shadowBlur: Opt<real>,
    shadowOffsetX: Opt<real>,
    shadowOffsetY: Opt<real>)

  /** `defaultShadow`: `{ color, blur, offsetX, offsetY }`. */
  datatype ShadowConfig = ShadowConfig(color: string, blur: real, offsetX: real, offsetY: real)

  /** The canvas shadow state once it has been cleared. */
  const Transparent := ShadowConfig("transparent", 0.0, 0.0, 0.0)

  /** The canvas stroke state for a segment. */
  datatype StrokeStyle = StrokeStyle(color: string, lineWidth: real, cap: string, join: string)

  /** One `stroke()` of `draw`: the line from the pen to the segment's end point,
      and the state it was stroked with. */
  datatype Stroke = Stroke(from: Point, to: Point, style: StrokeStyle, shadow: ShadowConfig)

  /** The destructured second argument of the constructor. */
  datatype LineOptions = LineOptions(
    defaultColor: Option<string>,
    defaultWidth: Option<real>,
    shadow: Option<bool>,
    defaultShadow: Option<ShadowConfig>)

  const NoLineOptions := LineOptions(None, None, None, None)

  /** The keys of the `style` setter. */
  datatype StyleKeys = StyleKeys(color: Opt<string>, width: Opt<real>, shadow: Opt<bool>, shadowConfig: Opt<ShadowConfig>)

  /** What the `style` getter returns. */
  datatype LineStyle = LineStyle(color: string, width: real, shadow: bool, shadowConfig: ShadowConfig)

  /** The stroke state of a segment: each key falls back on any falsy value, so a
      0 width becomes the default width and the cap and join default to "round". */
  function SegmentStyle(p: SegmentPoint, defaultColor: string, defaultWidth: real): (s: StrokeStyle)
    ensures p.color.Given? && p.color.value != "" ==> s.color == p.color.value
    ensures p.color.IsNullish() || p.color == Given("") ==> s.color == defaultColor
    ensures p.lineWidth.Given? && p.lineWidth.value != 0.0 ==> s.lineWidth == p.lineWidth.value
    ensures p.lineWidth.IsNullish() || p.lineWidth == Given(0.0) ==> s.lineWidth == defaultWidth
    ensures p.cap.Given? && p.cap.value != "" ==> s.cap == p.cap.value
    ensures p.cap.IsNullish() || p.cap == Given("") ==> s.cap == "round"
    ensures p.join.Given? && p.join.value != "" ==> s.join == p.join.value
    ensures p.join.IsNullish() || p.join == Given("") ==> s.join == "round"
  {
    StrokeStyle(OrString(p.color, defaultColor), OrNumber(p.lineWidth, defaultWidth),
                OrString(p.cap, "round"), OrString(p.join, "round"))
  }

  /** The shadow state of a segment: with the line's or the segment's flag set,
      each field comes from the segment or else (falsy fallback) from the line's
      default shadow; otherwise the shadow is cleared. */
  function SegmentShadow(lineShadow: bool, p: SegmentPoint, d: ShadowConfig): (s: ShadowConfig)
    ensures !lineShadow && !Truthy(p.shadow) ==> s == Transparent
    ensures lineShadow || Truthy(p.shadow) ==>
      && (p.shadowColor.Given? && p.shadowColor.value != "" ==> s.color == p.shadowColor.value)
      && (p.shadowColor.IsNullish() || p.shadowColor == Given("") ==> s.color == d.color)
      && (p.shadowBlur.Given? && p.shadowBlur.value != 0.0 ==> s.blur == p.shadowBlur.value)
      && (p.shadowBlur.IsNullish() || p.shadowBlur == Given(0.0) ==> s.blur == d.blur)
      && (p.shadowOffsetX.Given? && p.shadowOffsetX.value != 0.0 ==> s.offsetX == p.shadowOffsetX.value)
      && (p.shadowOffsetX.IsNullish() || p.shadowOffsetX == Given(0.0) ==> s.offsetX == d.offsetX)
      && (p.shadowOffsetY.Given? && p.shadowOffsetY.value != 0.0 ==> s.offsetY == p.shadowOffsetY.value)
      && (p.shadowOffsetY.IsNullish() || p.shadowOffsetY == Given(0.0) ==> s.offsetY == d.offsetY)
    ensures (&& (lineShadow || Truthy(p.shadow)) && p.shadowColor.IsNullish() && p.shadowBlur.IsNullish()
             && p.shadowOffsetX.IsNullish() && p.shadowOffsetY.IsNullish()) ==> s == d
  {
    if lineShadow || Truthy(p.shadow) then
      ShadowConfig(OrString(p.shadowColor, d.color), OrNumber(p.shadowBlur, d.blur),
                   OrNumber(p.shadowOffsetX, d.offsetX), OrNumber(p.shadowOffsetY, d.offsetY))
    else
      Transparent
  }

  /** The pen position before segment `k`: the start point, then each end point. */
  function PenBefore(start: Point, segments: seq<SegmentPoint>, k: int): Point
    requires 0 <= k <= |segments|
  {
    if k == 0 then start else Point(segments[k - 1].x2, segments[k - 1].y2)
  }

  /** Stroke `k` of a line starting at `start`. */
  function StrokeOf(start: Point, segments: seq<SegmentPoint>, k: int,
                    defaultColor: string, defaultWidth: real, lineShadow: bool, d: ShadowConfig): Stroke
    requires 0 <= k < |segments|
  {
    Stroke(PenBefore(start, segments, k), Point(segments[k].x2, segments[k].y2),
           SegmentStyle(segments[k], defaultColor, defaultWidth), SegmentShadow(lineShadow, segments[k], d))
  }

  /** The `style` setter on a line style: `??` on every key. */
  function MergeStyle(s: LineStyle, o: StyleKeys): (r: LineStyle)
    ensures o.color.Given? ==> r.color == o.color.value
    ensures o.color.IsNullish() ==> r.color == s.color
    ensures o.width.Given? ==> r.width == o.width.value
    ensures o.width.IsNullish() ==> r.width == s.width
    ensures o.shadow.Given? ==> r.shadow == o.shadow.value
    ensures o.shadow.IsNullish() ==> r.shadow == s.shadow
    ensures o.shadowConfig.Given? ==> r.shadowConfig == o.shadowConfig.value
    ensures o.shadowConfig.IsNullish() ==> r.shadowConfig == s.shadowConfig
  {
    LineStyle(Coalesce(o.color, s.color), Coalesce(o.width, s.width),
              Coalesce(o.shadow, s.shadow), Coalesce(o.shadowConfig, s.shadowConfig))
  }

  /** Setting a style and reading it back gives the keys that were provided. */
  lemma MergeStyleRoundTrip(s: LineStyle, t: LineStyle)
    ensures MergeStyle(s, StyleKeys(Given(t.color), Given(t.width), Given(t.shadow), Given(t.shadowConfig))) == t
  {
  }

  class SegmentedLine {
    var x1: real
    var y1: real
    var segments: seq<SegmentPoint>
    var defaultColor: string
    var defaultWidth: real
    var shadow: bool
    var defaultShadow: ShadowConfig

    constructor (x1: real, y1: real, segments: Option<seq<SegmentPoint>>, options: LineOptions)
      ensures this.x1 == x1 && this.y1 == y1
      ensures this.segments == Default(segments, [])
      ensures Style() == LineStyle(Default(options.defaultColor, "black"), Default(options.defaultWidth, 1.0),
        Default(options.shadow, false),
        Default(options.defaultShadow, ShadowConfig("rgba(0, 0, 0, 0.5)", 4.0, 2.0, 2.0)))
    {
      this.x1 := x1;
      this.y1 := y1;
      this.segments := Default(segments, []);
      defaultColor := Default(options.defaultColor, "black");
      defaultWidth := Default(options.defaultWidth, 1.0);
      shadow := Default(options.shadow, false);
      defaultShadow := Default(options.defaultShadow, ShadowConfig("rgba(0, 0, 0, 0.5)", 4.0, 2.0, 2.0));
    }

    /** The `style` getter. */
    function Style(): LineStyle
      reads this
    {
      LineStyle(defaultColor, defaultWidth, shadow, defaultShadow)
    }

    /** `draw()`: the pen starts at (x1, y1); every segment strokes from the pen to
        its end point and moves the pen there. */
    method Draw() returns (strokes: seq<Stroke>)
      ensures |strokes| == |segments|
      ensures forall k :: 0 <= k < |strokes| ==>
                strokes[k] == StrokeOf(Point(x1, y1), segments, k, defaultColor, defaultWidth, shadow, defaultShadow)
      ensures |strokes| > 0 ==> strokes[0].from == Point(x1, y1)
      ensures forall k :: 0 < k < |strokes| ==> strokes[k].from == strokes[k - 1].to
    {
      strokes := [];
      var pen := Point(x1, y1);
      var i := 0;
      while i < |segments|
        invariant 0 <= i <= |segments|
        invariant |strokes| == i
        invariant pen == PenBefore(Point(x1, y1), segments, i)
        invariant forall k :: 0 <= k < i ==>
                    strokes[k] == StrokeOf(Point(x1, y1), segments, k, defaultColor, defaultWidth, shadow, defaultShadow)
      {
        var point := segments[i];
        var style := SegmentStyle(point, defaultColor, defaultWidth);
        var shade := SegmentShadow(shadow, point, defaultShadow);
        var end := Point(point.x2, point.y2);
        strokes := strokes + [Stroke(pen, end, style, shade)];
        pen := end;
        i := i + 1;
      }
    }

    method SetSegments(segments: seq<SegmentPoint>)
      modifies this`segments
      ensures this.segments == segments
    {
      this.segments := segments;
    }

    method SetStart(x: real, y: real)
      modifies this`x1, this`y1
      ensures x1 == x && y1 == y
    {
      x1 := x;
      y1 := y;
    }

    /** The `style` setter. */
    method SetStyle(o: StyleKeys)
      modifies this`defaultColor, this`defaultWidth, this`shadow, this`defaultShadow
      ensures Style() == MergeStyle(old(Style()), o)
    {
      defaultColor := Coalesce(o.color, defaultColor);
      defaultWidth := Coalesce(o.width, defaultWidth);
      shadow := Coalesce(o.shadow, shadow);
      defaultShadow := Coalesce(o.shadowConfig, defaultShadow);
    }
  }
}
