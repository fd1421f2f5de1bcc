/** The particle that orbits a centre point: its angle accumulator, the position it
    takes from that angle, its random helper and its option-merging style setter. */
module Particles {
  import opened Js
  import opened Geometry
  import opened Styles

  /** The options of `animationCircular`, destructured with defaults. */
  datatype CircularOptions = CircularOptions(velocity: Option<real>, center: Option<Point>)

  const NoCircularOptions := CircularOptions(None, None)

  /** The angle after one `animationCircular` call: an undefined angle starts at 0. */
  function Turn(radians: Option<real>, velocity: real): (r: real)
    ensures radians.None? ==> r == velocity
  {
    Default(radians, 0.0) + velocity
  }

  /** The angle after `n` calls with the same angular velocity. */
  function Turns(r0: real, velocity: real, n: nat): real
  {
    if n == 0 then r0 else Turn(Some(Turns(r0, velocity, n - 1)), velocity)
  }

  /** The accumulator is linear in the number of calls. */
  lemma {:induction false} TurnsLinear(r0: real, velocity: real, n: nat)
    ensures Turns(r0, velocity, n) == r0 + n as real * velocity
  {
    if n > 0 {
      TurnsLinear(r0, velocity, n - 1);
      assert (n - 1) as real * velocity + velocity == n as real * velocity;
    }
  }

  /** A position on the ellipse with half-axes `dx`, `dy` around `center`, for the
      given cosine and sine. */
  function Orbit(center: Point, angle: real, dx: real, dy: real, cos: real -> real, sin: real -> real): (p: Point)
    ensures p.x - center.x == Times(cos(angle), dx) && p.y - center.y == Times(sin(angle), dy)
  {
    Point(center.x + Times(cos(angle), dx), center.y + Times(sin(angle), dy))
  }

  /** Whatever the cosine and sine, a particle with both distances 0 sits on the centre. */
  lemma OrbitOfZeroDistance(center: Point, angle: real, cos: real -> real, sin: real -> real)
    ensures Orbit(center, angle, 0.0, 0.0, cos, sin) == center
  {
    assert Times(cos(angle), 0.0) == 0.0 && Times(sin(angle), 0.0) == 0.0;
  }

  /** With equal distances R and a cosine and sine that satisfy cos^2 + sin^2 = 1
      at the angle, the particle lies at distance R from the centre: the ellipse
      is a circle. */
  lemma OrbitOnCircle(center: Point, angle: real, r: real, cos: real -> real, sin: real -> real)
    requires Times(cos(angle), cos(angle)) + Times(sin(angle), sin(angle)) == 1.0
    ensures var p := Orbit(center, angle, r, r, cos, sin);
      Times(p.x - center.x, p.x - center.x) + Times(p.y - center.y, p.y - center.y) == Times(r, r)
  {
    var c, s := cos(angle), sin(angle);
    assert (c * r) * (c * r) == (c * c) * (r * r);
    assert (s * r) * (s * r) == (s * s) * (r * r);
    assert (c * c) * (r * r) + (s * s) * (r * r) == (c * c + s * s) * (r * r);
  }

  /** `randomBetween(min, max)` with `rand` the value of `Math.random()`. */
  function RandomBetween(min: real, max: real, rand: real): real
  {
    Times(rand, max - min) + min
  }

  /** `Math.random()` lies in [0, 1), so the result lies in [min, max): `max` itself
      is never returned. */
  lemma RandomBetweenInRange(min: real, max: real, rand: real)
    requires 0.0 <= rand < 1.0
    ensures min < max ==> min <= RandomBetween(min, max, rand) < max
    ensures min == max ==> RandomBetween(min, max, rand) == min
    ensures max < min ==> max < RandomBetween(min, max, rand) <= min
  {
    if min < max {
      ScaleBelow(rand, max - min);
    } else if max < min {
      ScaleBelow(rand, min - max);
      assert Times(rand, max - min) == -Times(rand, min - max);
    }
  }

  /** A draw in [0, 1) scales a positive span to a part of it. */
  lemma ScaleBelow(rand: real, d: real)
    requires 0.0 <= rand < 1.0 && 0.0 < d
    ensures 0.0 <= Times(rand, d) < d
  {
    MulMonotone(0.0, rand, d);
    assert d - rand * d == (1.0 - rand) * d;
  }

  /** Every value in [min, max) is reached by some random draw. */
  lemma RandomBetweenReaches(min: real, max: real, v: real)
    requires min <= v < max
    ensures var rand := (v - min) / (max - min);
      0.0 <= rand < 1.0 && RandomBetween(min, max, rand) == v
  {
    var d := max - min;
    var rand := (v - min) / d;
    assert rand * d == v - min;
    FractionBelowOne(v - min, d);
  }

  /** A part of a positive span, divided by the span, is a draw in [0, 1). */
  lemma FractionBelowOne(a: real, d: real)
    requires 0.0 <= a < d
    ensures 0.0 <= a / d < 1.0
  {
  }

  /** The fields the `style` getter returns. `strokeColor` and `lineWidth` are never
      set by the constructor, so they read as `undefined` (`Nil`) until a setter
      provides them. */
  datatype ParticleStyle = ParticleStyle(
    fillColor: string,
    strokeColor: Nullable<string>,
    lineWidth: Nullable<real>,
    shadow: bool,
    shadowColor: string,
    shadowBlur: real,
    shadowOffsetX: real,
    shadowOffsetY: real)

  /** The `style` setter on a particle's style: each non-nullish key replaces its field. */
  function MergeStyle(s: ParticleStyle, o: StyleOptions): (r: ParticleStyle)
    ensures o.fillColor.Given? ==> r.fillColor == o.fillColor.value
    ensures o.fillColor.IsNullish() ==> r.fillColor == s.fillColor
    ensures o.strokeColor.Given? ==> r.strokeColor == NonNull(o.strokeColor.value)
    ensures o.strokeColor.IsNullish() ==> r.strokeColor == s.strokeColor
    ensures o.lineWidth.Given? ==> r.lineWidth == NonNull(o.lineWidth.value)
    ensures o.lineWidth.IsNullish() ==> r.lineWidth == s.lineWidth
    ensures o.shadow.Given? ==> r.shadow == o.shadow.value
    ensures o.shadow.IsNullish() ==> r.shadow == s.shadow
    ensures o.shadowColor.Given? ==> r.shadowColor == o.shadowColor.value
    ensures o.shadowColor.IsNullish() ==> r.shadowColor == s.shadowColor
    ensures o.shadowBlur.Given? ==> r.shadowBlur == o.shadowBlur.value
    ensures o.shadowBlur.IsNullish() ==> r.shadowBlur == s.shadowBlur
    ensures o.shadowOffsetX.Given? ==> r.shadowOffsetX == o.shadowOffsetX.value
    ensures o.shadowOffsetX.IsNullish() ==> r.shadowOffsetX == s.shadowOffsetX
    ensures o.shadowOffsetY.Given? ==> r.shadowOffsetY == o.shadowOffsetY.value
    ensures o.shadowOffsetY.IsNullish() ==> r.shadowOffsetY == s.shadowOffsetY
  {
    ParticleStyle(
      Coalesce(o.fillColor, s.fillColor),
      CoalesceNullable(o.strokeColor, s.strokeColor),
      CoalesceNullable(o.lineWidth, s.lineWidth),
      Coalesce(o.shadow, s.shadow),
      Coalesce(o.shadowColor, s.shadowColor),
      Coalesce(o.shadowBlur, s.shadowBlur),
      Coalesce(o.shadowOffsetX, s.shadowOffsetX),
      Coalesce(o.shadowOffsetY, s.shadowOffsetY))
  }

  /** Setting the same options twice is the same as setting them once. */
  lemma MergeStyleIdempotent(s: ParticleStyle, o: StyleOptions)
    ensures MergeStyle(MergeStyle(s, o), o) == MergeStyle(s, o)
  {
  }

  /** An empty options object changes nothing. */
  lemma MergeStyleEmpty(s: ParticleStyle)
    ensures MergeStyle(s, NoStyle) == s
  {
  }

  class Particle {
    var x: real
    var y: real
    var innerRadius: real
    /** `undefined` until the first `animationCircular` call when not given. */
    var radians: Option<real>
    var distanceFromCenterX: real
    var distanceFromCenterY: real

    var fillColor: string
    var strokeColor: Nullable<string>
    var lineWidth: Nullable<real>
    var shadow: bool
    var shadowColor: string
    var shadowBlur: real
    var shadowOffsetX: real
    var shadowOffsetY: real

    var vx: real
    var vy: real

    constructor (x: real, y: real, innerRadius: real, radians: Option<real>,
                 distanceFromCenterX: real, distanceFromCenterY: real, options: StyleOptions)
      ensures this.x == x && this.y == y && this.innerRadius == innerRadius
      ensures this.radians == radians
      ensures this.distanceFromCenterX == distanceFromCenterX
      ensures this.distanceFromCenterY == distanceFromCenterY
      ensures Style() == ParticleStyle(
        Coalesce(options.fillColor, "black"), Nil, Nil,
        Coalesce(options.shadow, false),
        Coalesce(options.shadowColor, "rgba(0,0,0,0.5)"),
        Coalesce(options.shadowBlur, 4.0),
        Coalesce(options.shadowOffsetX, 2.0),
        Coalesce(options.shadowOffsetY, 2.0))
      ensures vx == 1.0 && vy == 0.0
    {
      this.x := x;
      this.y := y;
      this.innerRadius := innerRadius;
      this.radians := radians;
      this.distanceFromCenterX := distanceFromCenterX;
      this.distanceFromCenterY := distanceFromCenterY;
      fillColor := Coalesce(options.fillColor, "black");
      strokeColor := Nil;
      lineWidth := Nil;
      shadow := Coalesce(options.shadow, false);
      shadowColor := Coalesce(options.shadowColor, "rgba(0,0,0,0.5)");
      shadowBlur := Coalesce(options.shadowBlur, 4.0);
      shadowOffsetX := Coalesce(options.shadowOffsetX, 2.0);
      shadowOffsetY := Coalesce(options.shadowOffsetY, 2.0);
      vx := 1.0;
      vy := 0.0;
    }

    /** The `style` getter. */
    function Style(): ParticleStyle
      reads this
    {
      ParticleStyle(fillColor, strokeColor, lineWidth, shadow, shadowColor, shadowBlur, shadowOffsetX, shadowOffsetY)
    }

    /** The `style` setter: only the non-nullish keys replace their fields. */
    method SetStyle(options: StyleOptions)
      modifies this`fillColor, this`strokeColor, this`lineWidth, this`shadow,
               this`shadowColor, this`shadowBlur, this`shadowOffsetX, this`shadowOffsetY
      ensures Style() == MergeStyle(old(Style()), options)
    {
      fillColor := Coalesce(options.fillColor, fillColor);
      strokeColor := CoalesceNullable(options.strokeColor, strokeColor);
      lineWidth := CoalesceNullable(options.lineWidth, lineWidth);
      shadow := Coalesce(options.shadow, shadow);
      shadowColor := Coalesce(options.shadowColor, shadowColor);
      shadowBlur := Coalesce(options.shadowBlur, shadowBlur);
      shadowOffsetX := Coalesce(options.shadowOffsetX, shadowOffsetX);
      shadowOffsetY := Coalesce(options.shadowOffsetY, shadowOffsetY);
    }

    /** `animationCircular(options)` with `cos`/`sin` standing for `Math.cos` and
        `Math.sin`: the angle advances by the velocity (default 0.01) and the
        particle moves to its point of the orbit around the centre (default
        (300, 400)). The distances from the centre are not touched. */
    method AnimationCircular(options: CircularOptions, cos: real -> real, sin: real -> real)
      modifies this`radians, this`x, this`y
      ensures radians == Some(Turn(old(radians), Default(options.velocity, 0.01)))
      ensures Point(x, y) == Orbit(Default(options.center, Point(300.0, 400.0)), radians.value,
                                   distanceFromCenterX, distanceFromCenterY, cos, sin)
    {
      var velocity := Default(options.velocity, 0.01);
      var center := Default(options.center, Point(300.0, 400.0));
      if radians.None? {
        radians := Some(0.0);
      }
      radians := Some(radians.value + velocity);
      x := center.x + Times(cos(radians.value), distanceFromCenterX);
      y := center.y + Times(sin(radians.value), distanceFromCenterY);
    }
  }
}
