/** The rectangle filled with a linear gradient: the gradient line chosen by the
    direction name, the colour stops added in order, the constructor's mixed
    defaults and the setters. */
module GradientRectangles {
  import opened Js
  import opened Geometry
  import opened Styles

  /** An entry of `colorStops`: `{ offset, color }`. */
  datatype ColorStop = ColorStop(offset: real, color: string)

  /** What `draw` hands to the canvas: the gradient line, its stops in the order they
      were added, the rectangle filled, and whether the shadow was applied. */
  datatype GradientFill = GradientFill(line: Segment, stops: seq<ColorStop>, rect: Rect, shadowed: bool)

  /** The end points passed to `createLinearGradient` for a direction name. */
  function GradientLine(x: real, y: real, width: real, height: real, direction: string): (s: Segment)
    ensures s.from == Point(x, y)
    ensures direction == "vertical" ==> s.to == Point(x, y + height)
    ensures direction == "diagonal" ==> s.to == Point(x + width, y + height)
    ensures direction != "vertical" && direction != "diagonal" ==> s.to == Point(x + width, y)
  {
    var to :=
      if direction == "vertical" then Point(x, y + height)
      else if direction == "diagonal" then Point(x + width, y + height)
      else Point(x + width, y);
    Segment(Point(x, y), to)
  }

  /** Any name other than "vertical" and "diagonal" (a misspelling, the empty
      string) gives the horizontal gradient. */
  lemma UnknownDirectionIsHorizontal(x: real, y: real, width: real, height: real, direction: string)
    requires direction != "vertical" && direction != "diagonal"
    ensures GradientLine(x, y, width, height, direction) == GradientLine(x, y, width, height, "horizontal")
  {
  }

  /** The gradient line always ends on a corner of the rectangle other than its
      starting corner, for a rectangle of positive size. */
  lemma GradientLineEndsOnCorner(x: real, y: real, width: real, height: real, direction: string)
    requires width > 0.0 && height > 0.0
    ensures var s := GradientLine(x, y, width, height, direction);
      s.to != s.from && s.to.x in {x, x + width} && s.to.y in {y, y + height}
  {
  }

  /** The constructor's shadow: the flag and colour fall back on any falsy value,
      blur and offsets only on nullish ones, so a 0 blur is kept. */
  function InitialShadow(o: ShadowOptions): (s: Shadow)
    ensures s.on <==> o.shadow == Given(true)
    ensures o.shadowColor.Given? && o.shadowColor.value != "" ==> s.color == o.shadowColor.value
    ensures o.shadowColor.IsNullish() || o.shadowColor == Given("") ==> s.color == "#000"
    ensures o.shadowBlur.Given? ==> s.blur == o.shadowBlur.value
    ensures o.shadowBlur.IsNullish() ==> s.blur == 10.0
    ensures o.shadowOffsetX.Given? ==> s.offsetX == o.shadowOffsetX.value
    ensures o.shadowOffsetX.IsNullish() ==> s.offsetX == 4.0
    ensures o.shadowOffsetY.Given? ==> s.offsetY == o.shadowOffsetY.value
    ensures o.shadowOffsetY.IsNullish() ==> s.offsetY == 4.0
  {
    Shadow(OrBool(o.shadow, false), OrString(o.shadowColor, "#000"),
           Coalesce(o.shadowBlur, 10.0), Coalesce(o.shadowOffsetX, 4.0), Coalesce(o.shadowOffsetY, 4.0))
  }

  lemma DefaultShadow()
    ensures InitialShadow(NoShadow) == Shadow(false, "#000", 10.0, 4.0, 4.0)
  {
  }

  class GradientRectangle {
    var x: real
    var y: real
    var width: real
    var height: real
    var colorStops: seq<ColorStop>
    var direction: string
    var shadow: bool
    var shadowColor: string
    var shadowBlur: real
    var shadowOffsetX: real
    var shadowOffsetY: real

    constructor (x: real, y: real, width: real, height: real, colorStops: Option<seq<ColorStop>>,
                 direction: Option<string>, options: ShadowOptions)
      ensures this.x == x && this.y == y && this.width == width && this.height == height
      ensures this.colorStops == Default(colorStops, [])
      ensures this.direction == Default(direction, "horizontal")
      ensures ShadowState() == InitialShadow(options)
    {
      this.x := x;
      this.y := y;
      this.width := width;
      this.height := height;
      this.colorStops := Default(colorStops, []);
      this.direction := Default(direction, "horizontal");
      shadow := OrBool(options.shadow, false);
      shadowColor := OrString(options.shadowColor, "#000");
      shadowBlur := Coalesce(options.shadowBlur, 10.0);
      shadowOffsetX := Coalesce(options.shadowOffsetX, 4.0);
      shadowOffsetY := Coalesce(options.shadowOffsetY, 4.0);
    }

    function ShadowState(): Shadow
      reads this
    {
      Shadow(shadow, shadowColor, shadowBlur, shadowOffsetX, shadowOffsetY)
    }

    /** `draw()`: the gradient line for the direction, every colour stop added in
        array order, then one `fillRect` over the rectangle. */
    method Draw() returns (fill: GradientFill)
      ensures fill.line == GradientLine(x, y, width, height, direction)
      ensures fill.stops == colorStops
      ensures fill.rect == Rect(x, y, width, height)
      ensures fill.shadowed == shadow
    {
      var line := GradientLine(x, y, width, height, direction);
      var added: seq<ColorStop> := [];
      var i := 0;
      while i < |colorStops|
        invariant 0 <= i <= |colorStops|
        invariant added == colorStops[..i]
      {
        added := added + [colorStops[i]];
        i := i + 1;
      }
      fill := GradientFill(line, added, Rect(x, y, width, height), shadow);
    }

    method SetPosition(x: real, y: real)
      modifies this`x, this`y
      ensures this.x == x && this.y == y
    {
      this.x := x;
      this.y := y;
    }

    method SetSize(width: real, height: real)
      modifies this`width, this`height
      ensures this.width == width && this.height == height
    {
      this.width := width;
      this.height := height;
    }

    method SetColorStops(colorStops: seq<ColorStop>)
      modifies this`colorStops
      ensures this.colorStops == colorStops
    {
      this.colorStops := colorStops;
    }

    method SetDirection(direction: string)
      modifies this`direction
      ensures this.direction == direction
    {
      this.direction := direction;
    }

    /** `setShadow({ shadow = true, ... })`: the flag defaults to true only when the
        key is missing (a `null` key is stored and reads as off); the other fields
        change only when given. */
    method SetShadow(options: ShadowOptions)
      modifies this`shadow, this`shadowColor, this`shadowBlur, this`shadowOffsetX, this`shadowOffsetY
      ensures ShadowState() == MergeShadow(old(ShadowState()), options, DefaultedFlag(options.shadow, true))
    {
      shadow := DefaultedFlag(options.shadow, true);
      shadowColor := Coalesce(options.shadowColor, shadowColor);
      shadowBlur := Coalesce(options.shadowBlur, shadowBlur);
      shadowOffsetX := Coalesce(options.shadowOffsetX, shadowOffsetX);
      shadowOffsetY := Coalesce(options.shadowOffsetY, shadowOffsetY);
    }
  }
}
