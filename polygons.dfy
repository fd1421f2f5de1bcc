/** The regular polygon: a constructor that refuses fewer than three sides, setters
    that keep that invariant, and the closed vertex path its `draw` loop traces. */
module Polygons {
  import opened Js
  import opened Geometry
  import opened Styles

  /** `Math.PI` as a double, written out. */
  const Pi: real := 3.141592653589793

  /** The options of the constructor, each read with `??`. */
  datatype PolygonOptions = PolygonOptions(
    rotation: Opt<real>,
    fillColor: Opt<string>,
    strokeColor: Opt<string>,
    lineWidth: Opt<real>,
    shadow: Opt<bool>,
    shadowColor: Opt<string>,
    shadowBlur: Opt<real>,
    shadowOffsetX: Opt<real>,
    shadowOffsetY: Opt<real>)

  const NoPolygonOptions := PolygonOptions(Undefined, Undefined, Undefined, Undefined,
                                           Undefined, Undefined, Undefined, Undefined, Undefined)

  /** The error the constructor throws below three sides. */
  const TooFewSides := "O polígono precisa de pelo menos 3 lados."

  /** The outcome of `new RegularPolygon(...)`: the thrown error or the object. */
  datatype Construction = Thrown(message: string) | Built(polygon: RegularPolygon)

  /** The angle of vertex `i` in the `draw` loop: `i * 2 * PI / sides + rotation`. */
  function VertexAngle(i: int, sides: int, rotation: real): real
    requires sides != 0
  {
    (i as real * 2.0 * Pi / sides as real) + rotation
  }

  /** Consecutive vertices are a full turn divided by the number of sides apart. */
  lemma VertexAnglesEvenlySpaced(i: int, sides: int, rotation: real)
    requires sides != 0
    ensures VertexAngle(i + 1, sides, rotation) - VertexAngle(i, sides, rotation) == 2.0 * Pi / sides as real
  {
    var n := sides as real;
    assert (i + 1) as real * 2.0 * Pi / n == i as real * 2.0 * Pi / n + 2.0 * Pi / n;
  }

  /** The last vertex the loop visits (i = sides) is a full turn past the first. */
  lemma LastAngleIsFullTurn(sides: int, rotation: real)
    requires sides != 0
    ensures VertexAngle(sides, sides, rotation) == VertexAngle(0, sides, rotation) + 2.0 * Pi
  {
    var n := sides as real;
    assert n * 2.0 * Pi / n == 2.0 * Pi;
  }

  /** `(x + radius * cos(angle), y + radius * sin(angle))` for vertex `i`. */
  function Vertex(center: Point, radius: real, sides: int, rotation: real, i: int,
                  cos: real -> real, sin: real -> real): Point
    requires sides != 0
  {
    var angle := VertexAngle(i, sides, rotation);
    Point(center.x + Times(radius, cos(angle)), center.y + Times(radius, sin(angle)))
  }

  /** With a cosine and sine of period 2 pi the traced path is closed: the last
      vertex coincides with the first. */
  lemma PathIsClosed(center: Point, radius: real, sides: int, rotation: real,
                     cos: real -> real, sin: real -> real)
    requires sides != 0
    requires forall a :: cos(a + 2.0 * Pi) == cos(a)
    requires forall a :: sin(a + 2.0 * Pi) == sin(a)
    ensures Vertex(center, radius, sides, rotation, sides, cos, sin)
         == Vertex(center, radius, sides, rotation, 0, cos, sin)
  {
    LastAngleIsFullTurn(sides, rotation);
    var a0 := VertexAngle(0, sides, rotation);
    assert cos(a0 + 2.0 * Pi) == cos(a0) && sin(a0 + 2.0 * Pi) == sin(a0);
  }

  class RegularPolygon {
    var x: real
    var y: real
    var radius: real
    var sides: int
    var rotation: real
    var fillColor: Nullable<string>
    var strokeColor: string
    var lineWidth: real
    var shadow: bool
    var shadowColor: string
    var shadowBlur: real
    var shadowOffsetX: real
    var shadowOffsetY: real

    /** The invariant the constructor guard establishes and `setSides` keeps. */
    predicate Valid()
      reads this
    {
      sides >= 3
    }

    /** The body of the constructor after its guard. */
    constructor (x: real, y: real, radius: real, sides: int, options: PolygonOptions)
      requires sides >= 3
      ensures Valid()
      ensures this.x == x && this.y == y && this.radius == radius && this.sides == sides
      ensures rotation == Coalesce(options.rotation, 0.0)
      ensures fillColor == CoalesceNullable(options.fillColor, Nil)
      ensures strokeColor == Coalesce(options.strokeColor, "black")
      ensures lineWidth == Coalesce(options.lineWidth, 1.0)
      ensures ShadowState() == Shadow(
        Coalesce(options.shadow, false),
        Coalesce(options.shadowColor, "rgba(0, 0, 0, 0.5)"),
        Coalesce(options.shadowBlur, 4.0),
        Coalesce(options.shadowOffsetX, 2.0),
        Coalesce(options.shadowOffsetY, 2.0))
    {
      this.x := x;
      this.y := y;
      this.radius := radius;
      this.sides := sides;
      rotation := Coalesce(options.rotation, 0.0);
      fillColor := CoalesceNullable(options.fillColor, Nil);
      strokeColor := Coalesce(options.strokeColor, "black");
      lineWidth := Coalesce(options.lineWidth, 1.0);
      shadow := Coalesce(options.shadow, false);
      shadowColor := Coalesce(options.shadowColor, "rgba(0, 0, 0, 0.5)");
      shadowBlur := Coalesce(options.shadowBlur, 4.0);
      shadowOffsetX := Coalesce(options.shadowOffsetX, 2.0);
      shadowOffsetY := Coalesce(options.shadowOffsetY, 2.0);
    }

    function ShadowState(): Shadow
      reads this
    {
      Shadow(shadow, shadowColor, shadowBlur, shadowOffsetX, shadowOffsetY)
    }

    /** The `moveTo`/`lineTo` calls of the `draw` loop, `cos` and `sin` standing for
        `Math.cos` and `Math.sin`: vertices 0 to `sides` inclusive, the first one a
        `moveTo`, the rest `lineTo`s. */
    method Path(cos: real -> real, sin: real -> real) returns (ops: seq<PathOp>)
      requires Valid()
      ensures |ops| == sides + 1
      ensures forall i :: 0 <= i < |ops| ==>
                ops[i].at == Vertex(Point(x, y), radius, sides, rotation, i, cos, sin)
      ensures forall i :: 0 <= i < |ops| ==> (ops[i].MoveTo? <==> i == 0)
    {
      ops := [];
      var i := 0;
      while i <= sides
        invariant 0 <= i <= sides + 1
        invariant |ops| == i
        invariant forall k :: 0 <= k < i ==>
                    ops[k].at == Vertex(Point(x, y), radius, sides, rotation, k, cos, sin)
        invariant forall k :: 0 <= k < i ==> (ops[k].MoveTo? <==> k == 0)
      {
        var angle := (i as real * 2.0 * Pi / sides as real) + rotation;
        var px := x + Times(radius, cos(angle));
        var py := y + Times(radius, sin(angle));
        if i == 0 {
          ops := ops + [MoveTo(Point(px, py))];
        } else {
          ops := ops + [LineTo(Point(px, py))];
        }
        i := i + 1;
      }
    }

    /** `setSides(sides)`: a count below three is ignored. */
    method SetSides(sides: int)
      requires Valid()
      modifies this`sides
      ensures Valid()
      ensures this.sides == if sides < 3 then old(this.sides) else sides
    {
      if sides < 3 {
        return;
      }
      this.sides := sides;
    }

    method SetRotation(rotation: real)
      modifies this`rotation
      ensures this.rotation == rotation
    {
      this.rotation := rotation;
    }

    method SetFillColor(color: Nullable<string>)
      modifies this`fillColor
      ensures fillColor == color
    {
      fillColor := color;
    }

    method SetStrokeColor(color: string)
      modifies this`strokeColor
      ensures strokeColor == color
    {
      strokeColor := color;
    }

    /** `setShadow(options)`: the shadow is switched on unless `options.shadow` says
        otherwise; the other shadow fields change only when given. */
    method SetShadow(options: ShadowOptions)
      modifies this`shadow, this`shadowColor, this`shadowBlur, this`shadowOffsetX, this`shadowOffsetY
      ensures ShadowState() == MergeShadow(old(ShadowState()), options, Coalesce(options.shadow, true))
    {
      shadow := Coalesce(options.shadow, true);
      shadowColor := Coalesce(options.shadowColor, shadowColor);
      shadowBlur := Coalesce(options.shadowBlur, shadowBlur);
      shadowOffsetX := Coalesce(options.shadowOffsetX, shadowOffsetX);
      shadowOffsetY := Coalesce(options.shadowOffsetY, shadowOffsetY);
    }

    method SetPosition(x: real, y: real)
      modifies this`x, this`y
      ensures this.x == x && this.y == y
    {
      this.x := x;
      this.y := y;
    }

    method SetRadius(radius: real)
      modifies this`radius
      ensures this.radius == radius
    {
      this.radius := radius;
    }
  }

  /** `new RegularPolygon(x, y, radius, sides, options)`: throws below three sides,
      otherwise builds a valid polygon with exactly the given sides. */
  method NewRegularPolygon(x: real, y: real, radius: real, sides: int, options: PolygonOptions)
    returns (r: Construction)
    ensures r.Thrown? <==> sides < 3
    ensures r.Thrown? ==> r.message == TooFewSides
    ensures r.Built? ==> fresh(r.polygon) && r.polygon.Valid() && r.polygon.sides == sides
    ensures r.Built? ==> r.polygon.x == x && r.polygon.y == y && r.polygon.radius == radius
  {
    if sides < 3 {
      return Thrown(TooFewSides);
    }
    var p := new RegularPolygon(x, y, radius, sides, options);
    return Built(p);
  }

  /** `setShadow()` with no options turns the shadow on and keeps its other fields. */
  lemma SetShadowDefaultTurnsOn(s: Shadow)
    ensures MergeShadow(s, NoShadow, Coalesce(NoShadow.shadow, true)) == s.(on := true)
  {
  }
}
