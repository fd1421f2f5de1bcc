/** The grid that covers the canvas: the two loops of its `draw` that step a
    coordinate by the spacing and emit one line per step, and its setters. */
module Grids {
  import opened Js
  import opened Geometry
  import opened Styles

  /** The coordinate of line `k`: the loop variable after `k` steps of `spacing`. */
  function Tick(k: int, spacing: real): real
  {
    Times(k as real, spacing)
  }

  lemma TickStep(k: int, spacing: real)
    ensures Tick(k + 1, spacing) == Tick(k, spacing) + spacing
  {
    assert (k + 1) as real * spacing == k as real * spacing + spacing;
  }

  /** The number of lines a loop `for (v = 0; v <= extent; v += spacing)` emits. */
  function LineCount(extent: real, spacing: real): nat
    requires spacing > 0.0
  {
    if extent < 0.0 then 0 else Floor(extent / spacing) + 1
  }

  /** Line `k` is emitted exactly when its coordinate does not pass the extent. */
  lemma LineCountCounts(extent: real, spacing: real, k: int)
    requires spacing > 0.0 && k >= 0
    ensures k < LineCount(extent, spacing) <==> Tick(k, spacing) <= extent
  {
    var t := Tick(k, spacing);
    assert t >= 0.0 by {
      MulMonotone(0.0, k as real, spacing);
    }
    if extent >= 0.0 {
      var q := extent / spacing;
      assert q * spacing == extent;
      var n := Floor(q);
      if k <= n {
        MulMonotone(k as real, q, spacing);
      } else {
        assert q < k as real;
        assert extent < t by {
          MulStrict(q, k as real, spacing);
        }
      }
    }
  }

  lemma MulStrict(a: real, b: real, c: real)
    requires a < b && c > 0.0
    ensures a * c < b * c
  {
    assert b * c - a * c == (b - a) * c;
  }

  /** `segs` are the vertical lines of a `width` x `height` canvas, left to right. */
  predicate VerticalGrid(segs: seq<Segment>, width: real, height: real, spacing: real)
    requires spacing > 0.0
  {
    && |segs| == LineCount(width, spacing)
    && forall k :: 0 <= k < |segs| ==>
         segs[k] == Segment(Point(Tick(k, spacing), 0.0), Point(Tick(k, spacing), height))
  }

  /** `segs` are the horizontal lines of a `width` x `height` canvas, top to bottom. */
  predicate HorizontalGrid(segs: seq<Segment>, width: real, height: real, spacing: real)
    requires spacing > 0.0
  {
    && |segs| == LineCount(height, spacing)
    && forall k :: 0 <= k < |segs| ==>
         segs[k] == Segment(Point(0.0, Tick(k, spacing)), Point(width, Tick(k, spacing)))
  }

  /** Every end point of the vertical lines lies on the canvas. */
  lemma VerticalGridInBox(segs: seq<Segment>, width: real, height: real, spacing: real, k: int)
    requires spacing > 0.0 && 0.0 <= height
    requires VerticalGrid(segs, width, height, spacing) && 0 <= k < |segs|
    ensures InBox(segs[k].from, width, height) && InBox(segs[k].to, width, height)
  {
    LineCountCounts(width, spacing, k);
    MulMonotone(0.0, k as real, spacing);
  }

  /** Every end point of the horizontal lines lies on the canvas. */
  lemma HorizontalGridInBox(segs: seq<Segment>, width: real, height: real, spacing: real, k: int)
    requires spacing > 0.0 && 0.0 <= width
    requires HorizontalGrid(segs, width, height, spacing) && 0 <= k < |segs|
    ensures InBox(segs[k].from, width, height) && InBox(segs[k].to, width, height)
  {
    LineCountCounts(height, spacing, k);
    MulMonotone(0.0, k as real, spacing);
  }

  /** The first loop of `draw`: `x` runs from 0 while `x <= width`, by `spacing`.
      An unguarded spacing of 0 or less would never leave the loop. */
  method VerticalLines(width: real, height: real, spacing: real) returns (segs: seq<Segment>)
    requires spacing > 0.0
    ensures VerticalGrid(segs, width, height, spacing)
  {
    segs := [];
    var x := 0.0;
    while x <= width
      invariant x == Tick(|segs|, spacing)
      invariant |segs| <= LineCount(width, spacing)
      invariant forall k :: 0 <= k < |segs| ==>
                  segs[k] == Segment(Point(Tick(k, spacing), 0.0), Point(Tick(k, spacing), height))
      decreases LineCount(width, spacing) - |segs|
    {
      LineCountCounts(width, spacing, |segs|);
      segs := segs + [Segment(Point(x, 0.0), Point(x, height))];
      TickStep(|segs| - 1, spacing);
      x := x + spacing;
    }
    LineCountCounts(width, spacing, |segs|);
  }

  /** The second loop of `draw`: `y` runs from 0 while `y <= height`, by `spacing`. */
  method HorizontalLines(width: real, height: real, spacing: real) returns (segs: seq<Segment>)
    requires spacing > 0.0
    ensures HorizontalGrid(segs, width, height, spacing)
  {
    segs := [];
    var y := 0.0;
    while y <= height
      invariant y == Tick(|segs|, spacing)
      invariant |segs| <= LineCount(height, spacing)
      invariant forall k :: 0 <= k < |segs| ==>
                  segs[k] == Segment(Point(0.0, Tick(k, spacing)), Point(width, Tick(k, spacing)))
      decreases LineCount(height, spacing) - |segs|
    {
      LineCountCounts(height, spacing, |segs|);
      segs := segs + [Segment(Point(0.0, y), Point(width, y))];
      TickStep(|segs| - 1, spacing);
      y := y + spacing;
    }
    LineCountCounts(height, spacing, |segs|);
  }

  /** The fields the `style` getter returns. */
  datatype GridStyle = GridStyle(strokeColor: string, lineWidth: real, shadow: Shadow)

  /** The `style` setter on a grid's style: only non-nullish keys replace fields.
      (`fillColor` is not a key of the grid.) */
  function MergeStyle(s: GridStyle, o: StyleOptions): (r: GridStyle)
    ensures o.strokeColor.Given? ==> r.strokeColor == o.strokeColor.value
    ensures o.strokeColor.IsNullish() ==> r.strokeColor == s.strokeColor
    ensures o.lineWidth.Given? ==> r.lineWidth == o.lineWidth.value
    ensures o.lineWidth.IsNullish() ==> r.lineWidth == s.lineWidth
    ensures o.shadow.Given? ==> r.shadow.on == o.shadow.value
    ensures o.shadow.IsNullish() ==> r.shadow.on == s.shadow.on
    ensures o.shadowColor.Given? ==> r.shadow.color == o.shadowColor.value
    ensures o.shadowColor.IsNullish() ==> r.shadow.color == s.shadow.color
    ensures o.shadowBlur.Given? ==> r.shadow.blur == o.shadowBlur.value
    ensures o.shadowBlur.IsNullish() ==> r.shadow.blur == s.shadow.blur
    ensures o.shadowOffsetX.Given? ==> r.shadow.offsetX == o.shadowOffsetX.value
    ensures o.shadowOffsetX.IsNullish() ==> r.shadow.offsetX == s.shadow.offsetX
    ensures o.shadowOffsetY.Given? ==> r.shadow.offsetY == o.shadowOffsetY.value
    ensures o.shadowOffsetY.IsNullish() ==> r.shadow.offsetY == s.shadow.offsetY
  {
    GridStyle(Coalesce(o.strokeColor, s.strokeColor), Coalesce(o.lineWidth, s.lineWidth),
      MergeShadow(s.shadow,
        ShadowOptions(o.shadow, o.shadowColor, o.shadowBlur, o.shadowOffsetX, o.shadowOffsetY),
        Coalesce(o.shadow, s.shadow.on)))
  }

  /** An empty options object leaves the style as it was. */
  lemma MergeStyleEmpty(s: GridStyle)
    ensures MergeStyle(s, NoStyle) == s
  {
    MergeShadowEmpty(s.shadow, s.shadow.on);
  }

  class Grid {
    var spacing: real
    var strokeColor: string
    var lineWidth: real
    var shadow: bool
    var shadowColor: string
    var shadowBlur: real
    var shadowOffsetX: real
    var shadowOffsetY: real

    constructor (spacing: real, options: StyleOptions)
      ensures this.spacing == spacing
      ensures Style() == GridStyle(Coalesce(options.strokeColor, "#ccc"), Coalesce(options.lineWidth, 1.0),
        Shadow(Coalesce(options.shadow, false), Coalesce(options.shadowColor, "rgba(0,0,0,0.1)"),
               Coalesce(options.shadowBlur, 2.0), Coalesce(options.shadowOffsetX, 1.0),
               Coalesce(options.shadowOffsetY, 1.0)))
    {
      this.spacing := spacing;
      strokeColor := Coalesce(options.strokeColor, "#ccc");
      lineWidth := Coalesce(options.lineWidth, 1.0);
      shadow := Coalesce(options.shadow, false);
      shadowColor := Coalesce(options.shadowColor, "rgba(0,0,0,0.1)");
      shadowBlur := Coalesce(options.shadowBlur, 2.0);
      shadowOffsetX := Coalesce(options.shadowOffsetX, 1.0);
      shadowOffsetY := Coalesce(options.shadowOffsetY, 1.0);
    }

    /** The `style` getter. */
    function Style(): GridStyle
      reads this
    {
      GridStyle(strokeColor, lineWidth, Shadow(shadow, shadowColor, shadowBlur, shadowOffsetX, shadowOffsetY))
    }

    /** The lines `draw` adds to its path on a `width` x `height` canvas: the
        vertical ones, then the horizontal ones. */
    method Draw(width: real, height: real) returns (lines: seq<Segment>)
      requires spacing > 0.0
      ensures |lines| == LineCount(width, spacing) + LineCount(height, spacing)
      ensures VerticalGrid(lines[..LineCount(width, spacing)], width, height, spacing)
      ensures HorizontalGrid(lines[LineCount(width, spacing)..], width, height, spacing)
    {
      var vertical := VerticalLines(width, height, spacing);
      var horizontal := HorizontalLines(width, height, spacing);
      lines := vertical + horizontal;
      assert lines[..|vertical|] == vertical;
      assert lines[|vertical|..] == horizontal;
    }

    /** The `style` setter. */
    method SetStyle(options: StyleOptions)
      modifies this`strokeColor, this`lineWidth, this`shadow, this`shadowColor,
               this`shadowBlur, this`shadowOffsetX, this`shadowOffsetY
      ensures Style() == MergeStyle(old(Style()), options)
    {
      strokeColor := Coalesce(options.strokeColor, strokeColor);
      lineWidth := Coalesce(options.lineWidth, lineWidth);
      shadow := Coalesce(options.shadow, shadow);
      shadowColor := Coalesce(options.shadowColor, shadowColor);
      shadowBlur := Coalesce(options.shadowBlur, shadowBlur);
      shadowOffsetX := Coalesce(options.shadowOffsetX, shadowOffsetX);
      shadowOffsetY := Coalesce(options.shadowOffsetY, shadowOffsetY);
    }

    method SetSpacing(spacing: real)
      modifies this`spacing
      ensures this.spacing == spacing
    {
      this.spacing := spacing;
    }
  }
}
