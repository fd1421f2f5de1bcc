/** The ring shape and its per-tick motion and interaction rules: bouncing inside
    the canvas, growing and shrinking near the pointer, gravity with a damped
    bounce, and the pointer collision that recolours and pushes the ring. */
module Rings {
  import opened Js
  import opened Geometry
  import opened Styles

  /** One axis of motion: a coordinate and its velocity. */
  datatype Axis = Axis(pos: real, vel: real)

  /** A velocity vector. */
  datatype Velocity = Velocity(vx: real, vy: real)

  // ---------------------------------------------------------------------------
  // moveAndBounceInCanvas

  /** One axis of `moveAndBounceInCanvas`: advance by the velocity; when the new
      coordinate leaves [lo, hi], negate the velocity and clamp the coordinate
      with `Math.max(lo, Math.min(p, hi))`. */
  function Bounce(pos: real, vel: real, lo: real, hi: real): (r: Axis)
    ensures lo <= r.pos
    ensures lo <= hi ==> r.pos <= hi
    ensures lo <= pos + vel <= hi ==> r == Axis(pos + vel, vel)
    ensures !(lo <= pos + vel <= hi) ==>
              r.vel == -vel && r.pos == (if pos + vel < lo then lo else Max(lo, hi))
    ensures Abs(r.vel) == Abs(vel)
  {
    var p := pos + vel;
    if p > hi || p < lo then Axis(Max(lo, Min(p, hi)), vel * -1.0) else Axis(p, vel)
  }

  /** `n` successive calls of `moveAndBounceInCanvas` on one axis. */
  function BounceTicks(a: Axis, lo: real, hi: real, n: nat): Axis
  {
    if n == 0 then a else
      var b := BounceTicks(a, lo, hi, n - 1);
      Bounce(b.pos, b.vel, lo, hi)
  }

  /** A ring that starts inside [lo, hi] stays inside after any number of ticks,
      and bouncing never changes its speed. */
  lemma {:induction false} BounceTicksStayInside(a: Axis, lo: real, hi: real, n: nat)
    requires lo <= a.pos <= hi
    ensures lo <= BounceTicks(a, lo, hi, n).pos <= hi
    ensures Abs(BounceTicks(a, lo, hi, n).vel) == Abs(a.vel)
  {
    if n > 0 {
      BounceTicksStayInside(a, lo, hi, n - 1);
    }
  }

  // ---------------------------------------------------------------------------
  // updateSizeForMouse

  /** The options of `updateSizeForMouse`, each read with `??`. */
  datatype SizeOptions = SizeOptions(
    minSize: Opt<real>,
    maxSize: Opt<real>,
    prox: Opt<real>,
    speedGrow: Opt<real>,
    speedShrink: Opt<real>)

  const NoSizeOptions := SizeOptions(Undefined, Undefined, Undefined, Undefined, Undefined)

  /** The limits `updateSizeForMouse` works with once its defaults are applied. */
  datatype SizeLimits = SizeLimits(minSize: real, maxSize: real, prox: real, grow: real, shrink: real)

  /** The defaults of `updateSizeForMouse`: the minimum defaults to the CURRENT outer
      radius (not to the snapshot `_baseOuterRadius`) and the maximum to twice the
      minimum. */
  function ResolveSize(o: SizeOptions, outerRadius: real): (l: SizeLimits)
    ensures o.minSize.Given? ==> l.minSize == o.minSize.value
    ensures o.maxSize.IsNullish() ==> l.maxSize == 2.0 * l.minSize
  {
    var minSize := Coalesce(o.minSize, outerRadius);
    SizeLimits(minSize, Coalesce(o.maxSize, minSize * 2.0), Coalesce(o.prox, 100.0),
               Coalesce(o.speedGrow, 0.7), Coalesce(o.speedShrink, 0.3))
  }

  lemma SizeDefaults(outerRadius: real)
    ensures ResolveSize(NoSizeOptions, outerRadius) == SizeLimits(outerRadius, 2.0 * outerRadius, 100.0, 0.7, 0.3)
  {
  }

  /** The pointer is within `prox` of (x, y); a NaN coordinate makes the distance
      NaN, and `NaN < prox` is false. */
  predicate PointerNear(mouseX: Num, mouseY: Num, x: real, y: real, prox: real)
  {
    mouseX.Val? && mouseY.Val? && Closer(mouseX.r - x, mouseY.r - y, prox)
  }

  /** The new outer radius after one `updateSizeForMouse` step. */
  function Resized(r: real, near: bool, l: SizeLimits): (r': real)
    ensures near && r < l.maxSize ==> r' == Min(r + l.grow, l.maxSize)
    ensures !near && r > l.minSize ==> r' == Max(r - l.shrink, l.minSize)
    ensures (near && r >= l.maxSize) || (!near && r <= l.minSize) ==> r' == r
  {
    if near then
      (if r < l.maxSize then (if r + l.grow > l.maxSize then l.maxSize else r + l.grow) else r)
    else
      (if r > l.minSize then (if r - l.shrink < l.minSize then l.minSize else r - l.shrink) else r)
  }

  /** With non-negative speeds, a radius inside [minSize, maxSize] stays inside. */
  lemma ResizedStaysInRange(r: real, near: bool, l: SizeLimits)
    requires l.minSize <= r <= l.maxSize && l.grow >= 0.0 && l.shrink >= 0.0
    ensures l.minSize <= Resized(r, near, l) <= l.maxSize
  {
  }

  /** With non-negative speeds, a radius at or below maxSize never exceeds it. */
  lemma ResizedNeverAboveMax(r: real, near: bool, l: SizeLimits)
    requires r <= l.maxSize && l.shrink >= 0.0
    ensures Resized(r, near, l) <= l.maxSize
  {
  }

  /** The radius after a run of ticks, `nears[i]` telling whether the pointer was
      near on tick i. */
  function ResizeTicks(r: real, nears: seq<bool>, l: SizeLimits): real
    decreases |nears|
  {
    if nears == [] then r else ResizeTicks(Resized(r, nears[0], l), nears[1..], l)
  }

  /** However the pointer moves, a radius starting in [minSize, maxSize] stays there. */
  lemma {:induction false} ResizeTicksStayInRange(r: real, nears: seq<bool>, l: SizeLimits)
    requires l.minSize <= r <= l.maxSize && l.grow >= 0.0 && l.shrink >= 0.0
    ensures l.minSize <= ResizeTicks(r, nears, l) <= l.maxSize
    decreases |nears|
  {
    if nears != [] {
      ResizedStaysInRange(r, nears[0], l);
      ResizeTicksStayInRange(Resized(r, nears[0], l), nears[1..], l);
    }
  }

  /** Because the default minimum is the current radius, a ring resized with the
      default options never shrinks. */
  lemma DefaultSizeNeverShrinks(r: real, near: bool)
    ensures Resized(r, near, ResolveSize(NoSizeOptions, r)) >= r
  {
  }

  // ---------------------------------------------------------------------------
  // applyGravity

  /** The destructured parameters of `applyGravity`. */
  datatype GravityOptions = GravityOptions(
    gravity: Option<real>,
    ground: Option<real>,
    bounce: Option<real>,
    friction: Option<real>,
    delta: Option<real>,
    tolerance: Option<real>)

  const NoGravityOptions := GravityOptions(None, None, None, None, None, None)

  /** The velocity after touching the ground: `vy * (-bounce * friction)`, or
      exactly 0 when that is below the tolerance in magnitude. */
  function Rebound(v: real, bounce: real, friction: real, tolerance: real): real
  {
    var bounced := Times(v, -Times(bounce, friction));
    if Abs(bounced) < tolerance then 0.0 else bounced
  }

  /** The rebound reverses and damps the velocity by k = bounce * friction. It is
      exactly 0 precisely when the damped magnitude |v| * |k| is below a positive
      tolerance (it never keeps a tiny non-zero value), and with 0 <= k <= 1 it is
      never faster than the impact. */
  lemma ReboundDamped(v: real, bounce: real, friction: real, tolerance: real)
    ensures var k := bounce * friction; var r := Rebound(v, bounce, friction, tolerance);
      && (Abs(v) * Abs(k) < tolerance <==> r == 0.0 && 0.0 < tolerance)
      && (r != 0.0 ==> r == -k * v)
      && (r == 0.0 || Abs(r) >= tolerance)
      && (0.0 <= k <= 1.0 ==> Abs(r) <= Abs(v))
  {
    var k := bounce * friction;
    var r := Rebound(v, bounce, friction, tolerance);
    assert r == if Abs(v * -k) < tolerance then 0.0 else v * -k;
    ReboundThreshold(v, k, tolerance, r);
    ReboundNeverFaster(v, k, tolerance, r);
  }

  /** The threshold part of `ReboundDamped`, for a damping factor `k`. */
  lemma ReboundThreshold(v: real, k: real, tolerance: real, r: real)
    requires r == if Abs(v * -k) < tolerance then 0.0 else v * -k
    ensures Abs(v) * Abs(k) < tolerance <==> r == 0.0 && 0.0 < tolerance
  {
    var p := v * -k;
    AbsProduct(v, -k);
    var m := Abs(v) * Abs(k);
    assert Abs(-k) == Abs(k);
    assert Abs(p) == m;
  }

  /** The speed part of `ReboundDamped`, for a damping factor `k`. */
  lemma ReboundNeverFaster(v: real, k: real, tolerance: real, r: real)
    requires r == if Abs(v * -k) < tolerance then 0.0 else v * -k
    ensures 0.0 <= k <= 1.0 ==> Abs(r) <= Abs(v)
  {
    if 0.0 <= k <= 1.0 && r != 0.0 {
      var p := v * -k;
      assert p == -(v * k);
      AbsScale(v, k);
      var a := Abs(v);
      ScaleDown(a, k);
      assert r == p;
      assert Abs(r) == a * k <= a;
    }
  }

  /** One `applyGravity` step on the vertical axis: `vy += gravity * delta`,
      `y += vy * delta`, and on reaching the ground the ring is put on the ground
      and rebounds. */
  function Fall(y: real, vy: real, gravity: real, ground: real, bounce: real,
                friction: real, delta: real, tolerance: real): Axis
  {
    var v := vy + Times(gravity, delta);
    var p := y + Times(v, delta);
    if p >= ground then Axis(ground, Rebound(v, bounce, friction, tolerance)) else Axis(p, v)
  }

  /** Whatever the parameters, the ring never ends a gravity step below the
      ground: above it, it falls freely; on contact it sits exactly on the ground
      and rebounds. */
  lemma FallNeverBelowGround(y: real, vy: real, gravity: real, ground: real, bounce: real,
                             friction: real, delta: real, tolerance: real)
    ensures var r := Fall(y, vy, gravity, ground, bounce, friction, delta, tolerance);
      var v := vy + gravity * delta; var p := y + v * delta;
      && r.pos <= ground
      && (p < ground ==> r == Axis(p, v))
      && (p >= ground ==> r == Axis(ground, Rebound(v, bounce, friction, tolerance)))
  {
  }

  // ---------------------------------------------------------------------------
  // getColiderWithMouse

  /** The options object of `getColiderWithMouse`. Its default is one object
      literal, so a caller passes all three keys or loses the defaults. */
  datatype ColliderOptions = ColliderOptions(sizeMouse: real, pushForce: real, decay: real)

  const DefaultCollider := ColliderOptions(30.0, 5.0, 0.9)

  /** `d < 0 ? -force : force`: the push follows the SIGN of the offset, not its angle. */
  function SignedForce(d: real, force: real): real
  {
    if d < 0.0 then -force else force
  }

  /** The velocity after `getColiderWithMouse`, (dx, dy) being the ring's offset
      from the pointer and `reach` the sum outer + inner + sizeMouse. Within
      reach + 10 the velocity is replaced by the signed push; then, when either
      component exceeds 0.1 in magnitude, both decay. */
  function Collide(dx: real, dy: real, vx: real, vy: real, reach: real, o: ColliderOptions): Velocity
  {
    var pushed := Closer(dx, dy, reach + 10.0);
    var px := if pushed then SignedForce(dx, o.pushForce) else vx;
    var py := if pushed then SignedForce(dy, o.pushForce) else vy;
    if Abs(py) > 0.1 || Abs(px) > 0.1 then Velocity(Times(px, o.decay), Times(py, o.decay)) else Velocity(px, py)
  }

  /** Within reach + 10 of the pointer, both components become the push force
      with the sign of the offset (an offset of 0 pushes positively), decayed
      once when the force exceeds 0.1. */
  lemma CollidePush(dx: real, dy: real, vx: real, vy: real, reach: real, o: ColliderOptions)
    requires Closer(dx, dy, reach + 10.0)
    ensures var v := Collide(dx, dy, vx, vy, reach, o);
      var f := if Abs(o.pushForce) > 0.1 then o.pushForce * o.decay else o.pushForce;
      && v.vx == (if dx < 0.0 then -f else f)
      && v.vy == (if dy < 0.0 then -f else f)
  {
    var pf := o.pushForce;
    var px := SignedForce(dx, pf);
    var py := SignedForce(dy, pf);
    assert Abs(px) == Abs(pf) && Abs(py) == Abs(pf);
    assert Times(-pf, o.decay) == -(pf * o.decay);
  }

  /** With a non-negative force and decay the push points away from the pointer
      on each axis. */
  lemma CollidePushesAway(dx: real, dy: real, vx: real, vy: real, reach: real, o: ColliderOptions)
    requires Closer(dx, dy, reach + 10.0) && o.pushForce >= 0.0 && o.decay >= 0.0
    ensures var v := Collide(dx, dy, vx, vy, reach, o);
      && (dx < 0.0 ==> v.vx <= 0.0) && (dx >= 0.0 ==> v.vx >= 0.0)
      && (dy < 0.0 ==> v.vy <= 0.0) && (dy >= 0.0 ==> v.vy >= 0.0)
  {
    CollidePush(dx, dy, vx, vy, reach, o);
    MulMonotone(0.0, o.pushForce, o.decay);
  }

  /** Away from the pointer the velocity is kept, and decayed when either
      component exceeds 0.1; with a decay in [0, 1] the speed never grows. */
  lemma CollideNoPush(dx: real, dy: real, vx: real, vy: real, reach: real, o: ColliderOptions)
    requires !Closer(dx, dy, reach + 10.0)
    ensures var v := Collide(dx, dy, vx, vy, reach, o);
      && (Abs(vx) > 0.1 || Abs(vy) > 0.1 ==> v == Velocity(vx * o.decay, vy * o.decay))
      && (Abs(vx) <= 0.1 && Abs(vy) <= 0.1 ==> v == Velocity(vx, vy))
      && (0.0 <= o.decay <= 1.0 ==> Abs(v.vx) <= Abs(vx) && Abs(v.vy) <= Abs(vy))
  {
    if 0.0 <= o.decay <= 1.0 {
      DecayNeverSpeedsUp(vx, o.decay);
      DecayNeverSpeedsUp(vy, o.decay);
    }
  }

  lemma DecayNeverSpeedsUp(v: real, decay: real)
    requires 0.0 <= decay <= 1.0
    ensures Abs(v * decay) <= Abs(v)
  {
    AbsScale(v, decay);
    var m := Abs(v);
    ScaleDown(m, decay);
    assert Abs(v * decay) == m * decay <= m;
  }

  /** Every position that turns the ring blue also pushes it: the colour
      threshold lies inside the push threshold. */
  lemma BlueImpliesPushed(dx: real, dy: real, reach: real)
    requires Closer(dx, dy, reach)
    ensures Closer(dx, dy, reach + 10.0)
  {
    CloserMonotone(dx, dy, reach, reach + 10.0);
  }

  // ---------------------------------------------------------------------------
  // The ring

  /** The object returned by the `style` getter. */
  datatype RingStyle = RingStyle(
    fillColor: string,
    strokeColor: Nullable<string>,
    lineWidth: real,
    shadow: bool,
    shadowColor: string,
    shadowBlur: real,
    shadowOffsetX: real,
    shadowOffsetY: real)

  class Ring {
    var x: real
    var y: real
    var outerRadius: real
    var innerRadius: real

    var fillColor: string
    /** The constructor's fill colour, restored when the pointer moves away. */
    var otherColor: string
    var strokeColor: Nullable<string>
    var lineWidth: real
    var shadow: bool
    var shadowColor: string
    var shadowBlur: real
    var shadowOffsetX: real
    var shadowOffsetY: real

    var vx: real
    var vy: real

    /** `_baseOuterRadius` and `_baseInnerRadius`: snapshot on the first resize and
        never read afterwards. */
    var baseOuterRadius: Option<real>
    var baseInnerRadius: Option<real>

    constructor (x: real, y: real, outerRadius: real, innerRadius: real, options: StyleOptions)
      ensures this.x == x && this.y == y
      ensures this.outerRadius == outerRadius && this.innerRadius == innerRadius
      ensures fillColor == Coalesce(options.fillColor, "black") && otherColor == fillColor
      ensures strokeColor == CoalesceNullable(options.strokeColor, Nil)
      ensures lineWidth == Coalesce(options.lineWidth, 1.0)
      ensures shadow == Coalesce(options.shadow, false)
      ensures shadowColor == Coalesce(options.shadowColor, "rgba(0,0,0,0.5)")
      ensures shadowBlur == Coalesce(options.shadowBlur, 4.0)
      ensures shadowOffsetX == Coalesce(options.shadowOffsetX, 2.0)
      ensures shadowOffsetY == Coalesce(options.shadowOffsetY, 2.0)
      ensures vx == 1.0 && vy == 0.0
      ensures baseOuterRadius == None && baseInnerRadius == None
    {
      this.x := x;
      this.y := y;
      this.outerRadius := outerRadius;
      this.innerRadius := innerRadius;
      var fill := Coalesce(options.fillColor, "black");
      fillColor := fill;
      otherColor := fill;
      strokeColor := CoalesceNullable(options.strokeColor, Nil);
      lineWidth := Coalesce(options.lineWidth, 1.0);
      shadow := Coalesce(options.shadow, false);
      shadowColor := Coalesce(options.shadowColor, "rgba(0,0,0,0.5)");
      shadowBlur := Coalesce(options.shadowBlur, 4.0);
      shadowOffsetX := Coalesce(options.shadowOffsetX, 2.0);
      shadowOffsetY := Coalesce(options.shadowOffsetY, 2.0);
      vx := 1.0;
      vy := 0.0;
      baseOuterRadius := None;
      baseInnerRadius := None;
    }

    /** The `style` getter. */
    function Style(): RingStyle
      reads this
    {
      RingStyle(fillColor, strokeColor, lineWidth, shadow, shadowColor, shadowBlur, shadowOffsetX, shadowOffsetY)
    }

    /** The `style` setter: each key replaces its field only when not nullish. */
    method SetStyle(options: StyleOptions)
      modifies this`fillColor, this`strokeColor, this`lineWidth, this`shadow,
               this`shadowColor, this`shadowBlur, this`shadowOffsetX, this`shadowOffsetY
      ensures Style() == RingStyle(
        Coalesce(options.fillColor, old(fillColor)),
        CoalesceNullable(options.strokeColor, old(strokeColor)),
        Coalesce(options.lineWidth, old(lineWidth)),
        Coalesce(options.shadow, old(shadow)),
        Coalesce(options.shadowColor, old(shadowColor)),
        Coalesce(options.shadowBlur, old(shadowBlur)),
        Coalesce(options.shadowOffsetX, old(shadowOffsetX)),
        Coalesce(options.shadowOffsetY, old(shadowOffsetY)))
      ensures options == NoStyle ==> Style() == old(Style())
    {
      fillColor := Coalesce(options.fillColor, fillColor);
      strokeColor := CoalesceNullable(options.strokeColor, strokeColor);
      lineWidth := Coalesce(options.lineWidth, lineWidth);
      shadow := Coalesce(options.shadow, shadow);
      shadowColor := Coalesce(options.shadowColor, shadowColor);
      shadowBlur := Coalesce(options.shadowBlur, shadowBlur);
      shadowOffsetX := Coalesce(options.shadowOffsetX, shadowOffsetX);
      shadowOffsetY := Coalesce(options.shadowOffsetY, shadowOffsetY);
    }

    /** `moveAndBounceInCanvas(canvas)`: both axes follow `Bounce` between the
        radius and the canvas size minus the radius. */
    method MoveAndBounceInCanvas(width: real, height: real)
      modifies this`x, this`y, this`vx, this`vy
      ensures Axis(x, vx) == Bounce(old(x), old(vx), outerRadius, width - outerRadius)
      ensures Axis(y, vy) == Bounce(old(y), old(vy), outerRadius, height - outerRadius)
      ensures outerRadius <= x && outerRadius <= y
      ensures 2.0 * outerRadius <= width ==> x <= width - outerRadius
      ensures 2.0 * outerRadius <= height ==> y <= height - outerRadius
    {
      x := x + vx;
      y := y + vy;

      var maxX := width - outerRadius;
      var minX := outerRadius;
      var maxY := height - outerRadius;
      var minY := outerRadius;

      if x > maxX || x < minX {
        vx := vx * -1.0;
        x := Max(minX, Min(x, maxX));
      }
      if y > maxY || y < minY {
        vy := vy * -1.0;
        y := Max(minY, Min(y, maxY));
      }
    }

    /** `updateSizeForMouse(mouse, options)`: snapshot the base radii while the
        outer snapshot is falsy, then grow or shrink the outer radius by
        `Resized`. The inner radius never changes. */
    method UpdateSizeForMouse(mouseX: Num, mouseY: Num, options: SizeOptions)
      modifies this`outerRadius, this`baseOuterRadius, this`baseInnerRadius
      ensures var l := ResolveSize(options, old(outerRadius));
        outerRadius == Resized(old(outerRadius), PointerNear(mouseX, mouseY, x, y, l.prox), l)
      ensures old(baseOuterRadius) == None || old(baseOuterRadius) == Some(0.0) ==>
                baseOuterRadius == Some(old(outerRadius)) && baseInnerRadius == Some(innerRadius)
      ensures !(old(baseOuterRadius) == None || old(baseOuterRadius) == Some(0.0)) ==>
                baseOuterRadius == old(baseOuterRadius) && baseInnerRadius == old(baseInnerRadius)
    {
      var near := mouseX.Val? && mouseY.Val?;
      if !(baseOuterRadius.Some? && baseOuterRadius.value != 0.0) {
        baseOuterRadius := Some(outerRadius);
        baseInnerRadius := Some(innerRadius);
      }

      var minSize := Coalesce(options.minSize, outerRadius);
      var maxSize := Coalesce(options.maxSize, minSize * 2.0);
      var proximityLimit := Coalesce(options.prox, 100.0);
      var growSpeed := Coalesce(options.speedGrow, 0.7);
      var shrinkSpeed := Coalesce(options.speedShrink, 0.3);

      if near && Closer(mouseX.r - x, mouseY.r - y, proximityLimit) {
        if outerRadius < maxSize {
          outerRadius := outerRadius + growSpeed;
          if outerRadius > maxSize { outerRadius := maxSize; }
        }
      } else {
        if outerRadius > minSize {
          outerRadius := outerRadius - shrinkSpeed;
          if outerRadius < minSize { outerRadius := minSize; }
        }
      }
    }

    /** `applyGravity(config)`, `innerHeight` being the window height the default
        ground is measured from. */
    method ApplyGravity(config: GravityOptions, innerHeight: real)
      modifies this`y, this`vy
      ensures Axis(y, vy) == Fall(old(y), old(vy),
        Default(config.gravity, 0.5), Default(config.ground, innerHeight - outerRadius),
        Default(config.bounce, 0.6), Default(config.friction, 0.5),
        Default(config.delta, 0.5), Default(config.tolerance, 2.0))
    {
      var gravity := Default(config.gravity, 0.5);
      var ground := Default(config.ground, innerHeight - outerRadius);
      var bounce := Default(config.bounce, 0.6);
      var friction := Default(config.friction, 0.5);
      var delta := Default(config.delta, 0.5);
      var tolerance := Default(config.tolerance, 2.0);

      vy := vy + Times(gravity, delta);
      y := y + Times(vy, delta);

      if y >= ground {
        y := ground;
        vy := Times(vy, -Times(bounce, friction));
        if Abs(vy) < tolerance {
          vy := 0.0;
        }
      }
    }

    /** `getColiderWithMouse(x, y, options)`: NaN pointer coordinates count as 0;
        the ring turns "blue" within outer + inner + sizeMouse of the pointer and
        takes back its original colour outside; the velocity follows `Collide`. */
    method GetColiderWithMouse(mouseX: Num, mouseY: Num, options: ColliderOptions)
      modifies this`fillColor, this`vx, this`vy
      ensures var dx := x - ZeroIfNaN(mouseX); var dy := y - ZeroIfNaN(mouseY);
        var reach := outerRadius + innerRadius + options.sizeMouse;
        && fillColor == (if Closer(dx, dy, reach) then "blue" else otherColor)
        && Velocity(vx, vy) == Collide(dx, dy, old(vx), old(vy), reach, options)
    {
      var mx := ZeroIfNaN(mouseX);
      var my := ZeroIfNaN(mouseY);
      var dx := x - mx;
      var dy := y - my;
      var reach := outerRadius + innerRadius + options.sizeMouse;

      if Closer(dx, dy, reach) {
        fillColor := "blue";
      } else {
        fillColor := otherColor;
      }

      if Closer(dx, dy, reach + 10.0) {
        vx := SignedForce(dx, options.pushForce);
        vy := SignedForce(dy, options.pushForce);
      }
      if Abs(vy) > 0.1 || Abs(vx) > 0.1 {
        vx := Times(vx, options.decay);
        vy := Times(vy, options.decay);
      }
    }
  }
}
