/** The four quadrants drawn over the canvas: two dividers through the centre and,
    when labels are shown, the Roman numerals I to IV at the centre of each
    quadrant, counted counter-clockwise from the top right as on the Cartesian
    plane (the canvas y axis points down). */
module Quadrants {
  import opened Js
  import opened Geometry

  /** One `fillText` call of `draw`. */
  datatype Label = Label(text: string, at: Point)

  /** What `draw` hands to the canvas: the stroke state and the two dividers, then
      the text state and the labels (none when they are hidden). */
  datatype Drawing = Drawing(
    strokeColor: string,
    lineWidth: real,
    dividers: seq<Segment>,
    font: string,
    textColor: string,
    labels: seq<Label>)

  /** The constructor's options object. */
  datatype QuadrantOptions = QuadrantOptions(
    strokeColor: Opt<string>,
    lineWidth: Opt<real>,
    showLabels: Opt<bool>,
    font: Opt<string>,
    textColor: Opt<string>)

  const NoQuadrantOptions := QuadrantOptions(Undefined, Undefined, Undefined, Undefined, Undefined)

  const Names: seq<string> := ["I", "II", "III", "IV"]

  /** Quadrant `q` (0 for I, ..., 3 for IV) of a `width` x `height` canvas. */
  function QuadrantRect(q: int, width: real, height: real): Rect
    requires 0 <= q < 4
  {
    var mx := width / 2.0;
    var my := height / 2.0;
    if q == 0 then Rect(mx, 0.0, mx, my)
    else if q == 1 then Rect(0.0, 0.0, mx, my)
    else if q == 2 then Rect(0.0, my, mx, my)
    else Rect(mx, my, mx, my)
  }

  /** The centre of a rectangle. */
  function Centre(r: Rect): Point
  {
    Point(r.x + r.width / 2.0, r.y + r.height / 2.0)
  }

  /** `p` lies strictly inside `r`. */
  predicate Within(p: Point, r: Rect)
  {
    r.x < p.x < r.x + r.width && r.y < p.y < r.y + r.height
  }

  /** The two dividers: the vertical one at half the width, top to bottom, then the
      horizontal one at half the height, left to right. */
  function Dividers(width: real, height: real): (ds: seq<Segment>)
    ensures |ds| == 2
    ensures ds[0].from.x == ds[0].to.x == width / 2.0
    ensures ds[0].from.y == 0.0 && ds[0].to.y == height
    ensures ds[1].from.y == ds[1].to.y == height / 2.0
    ensures ds[1].from.x == 0.0 && ds[1].to.x == width
  {
    var midX := width / 2.0;
    var midY := height / 2.0;
    [Segment(Point(midX, 0.0), Point(midX, height)), Segment(Point(0.0, midY), Point(width, midY))]
  }

  /** The labels at the positions `draw` computes from the midpoints. */
  function Labels(width: real, height: real): seq<Label>
  {
    var midX := width / 2.0;
    var midY := height / 2.0;
    [Label("I", Point(3.0 * midX / 2.0, midY / 2.0)),
     Label("II", Point(midX / 2.0, midY / 2.0)),
     Label("III", Point(midX / 2.0, 3.0 * midY / 2.0)),
     Label("IV", Point(3.0 * midX / 2.0, 3.0 * midY / 2.0))]
  }

  /** Each label is named after its quadrant and sits at that quadrant's centre. */
  lemma LabelsAreQuadrantCentres(width: real, height: real)
    ensures |Labels(width, height)| == 4
    ensures forall q :: 0 <= q < 4 ==>
      Labels(width, height)[q] == Label(Names[q], Centre(QuadrantRect(q, width, height)))
  {
  }

  /** The centre of a rectangle of positive size lies strictly inside it. */
  lemma CentreWithin(r: Rect)
    requires r.width > 0.0 && r.height > 0.0
    ensures Within(Centre(r), r)
  {
  }

  /** On a canvas of positive size every label lies strictly inside its own
      quadrant, and so on its own side of both dividers. */
  lemma LabelsInOwnQuadrant(width: real, height: real, q: int)
    requires width > 0.0 && height > 0.0 && 0 <= q < 4
    ensures Within(Labels(width, height)[q].at, QuadrantRect(q, width, height))
    ensures var p := Labels(width, height)[q].at;
      && (q == 0 || q == 3 <==> p.x > width / 2.0)
      && (q == 0 || q == 1 <==> p.y < height / 2.0)
      && 0.0 < p.x < width && 0.0 < p.y < height
  {
    LabelsAreQuadrantCentres(width, height);
    CentreWithin(QuadrantRect(q, width, height));
  }

  class QuadrantGrid {
    var strokeColor: string
    var lineWidth: real
    var showLabels: bool
    var font: string
    var textColor: string

    /** Every option falls back on its default only when nullish. */
    constructor (options: QuadrantOptions)
      ensures strokeColor == Coalesce(options.strokeColor, "#000")
      ensures lineWidth == Coalesce(options.lineWidth, 1.0)
      ensures showLabels == Coalesce(options.showLabels, true)
      ensures font == Coalesce(options.font, "16px Arial")
      ensures textColor == Coalesce(options.textColor, "#000")
    {
      strokeColor := Coalesce(options.strokeColor, "#000");
      lineWidth := Coalesce(options.lineWidth, 1.0);
      showLabels := Coalesce(options.showLabels, true);
      font := Coalesce(options.font, "16px Arial");
      textColor := Coalesce(options.textColor, "#000");
    }

    /** `draw()` on a `width` x `height` canvas: the dividers always, the labels
        exactly when `showLabels` is on. */
    function Draw(width: real, height: real): (d: Drawing)
      reads this
      ensures d.dividers == Dividers(width, height)
      ensures showLabels ==> d.labels == Labels(width, height)
      ensures !showLabels ==> d.labels == []
      ensures d.strokeColor == strokeColor && d.lineWidth == lineWidth
      ensures d.font == font && d.textColor == textColor
    {
      Drawing(strokeColor, lineWidth, Dividers(width, height), font, textColor,
              if showLabels then Labels(width, height) else [])
    }

    method SetStrokeColor(color: string)
      modifies this`strokeColor
      ensures strokeColor == color
    {
      strokeColor := color;
    }

    method SetTextColor(color: string)
      modifies this`textColor
      ensures textColor == color
    {
      textColor := color;
    }

    /** `toggleLabels(show = true)`: no argument shows the labels; a `null` one
        hides them. */
    method ToggleLabels(show: Opt<bool>)
      modifies this`showLabels
      ensures showLabels == DefaultedFlag(show, true)
    {
      showLabels := DefaultedFlag(show, true);
    }

    method SetFont(font: string)
      modifies this`font
      ensures this.font == font
    {
      this.font := font;
    }

    method SetLineWidth(width: real)
      modifies this`lineWidth
      ensures lineWidth == width
    {
      lineWidth := width;
    }
  }
}
