/** The rectangular ring: the guard that decides whether `draw` paints anything, the
    two rectangles it paints (the even-odd rule leaves the gap between them), and
    its accessors, whose setters apply every key that is not `undefined`. */
module RectangleRings {
  import opened Js
  import opened Geometry
  import opened Styles

  /** The `draw` guard: nothing is painted without a context, or when the border
      is not positive or leaves no room for the hole. */
  predicate Paints(hasContext: bool, width: real, height: real, thickness: real)
  {
    hasContext && !(thickness <= 0.0 || thickness * 2.0 >= width || thickness * 2.0 >= height)
  }

  /** The rectangles `draw` adds to its path: none when the guard returns early,
      otherwise the outer rectangle and then the hole. */
  function RingRects(hasContext: bool, x: real, y: real, width: real, height: real, thickness: real): (rs: seq<Rect>)
    ensures |rs| == 0 || |rs| == 2
    ensures |rs| == 2 <==> Paints(hasContext, width, height, thickness)
    ensures |rs| == 2 ==> rs[0] == Rect(x, y, width, height)
    ensures |rs| == 2 ==> rs[1].x == x + thickness && rs[1].y == y + thickness
    ensures |rs| == 2 ==> 0.0 < rs[1].width && 0.0 < rs[1].height
    ensures |rs| == 2 ==> StrictlyInside(rs[1], rs[0])
    ensures |rs| == 2 ==> rs[0].width - rs[1].width == rs[0].height - rs[1].height == 2.0 * thickness
  {
    if !hasContext then []
    else if thickness <= 0.0 || thickness * 2.0 >= width || thickness * 2.0 >= height then []
    else [Rect(x, y, width, height),
          Rect(x + thickness, y + thickness, width - 2.0 * thickness, height - 2.0 * thickness)]
  }

  /** The keys of the `style` setter. */
  datatype StyleKeys = StyleKeys(fillColor: Opt<string>, strokeColor: Opt<string>, lineWidth: Opt<real>)

  /** What the `style` getter returns. */
  datatype RingStyle = RingStyle(fillColor: Nullable<string>, strokeColor: Nullable<string>, lineWidth: Nullable<real>)

  /** The keys of the `shadowStyle` setter are the usual shadow options; what the
      getter returns may hold `null`s the setter stored. */
  datatype RingShadow = RingShadow(
    shadow: Nullable<bool>,
    shadowColor: Nullable<string>,
    shadowBlur: Nullable<real>,
    shadowOffsetX: Nullable<real>,
    shadowOffsetY: Nullable<real>)

  /** The `style` setter on a style: a key replaces its field unless it is
      `undefined`, so a `null` key stores `null`. */
  function SetDefinedStyle(s: RingStyle, o: StyleKeys): (r: RingStyle)
    ensures o.fillColor.Undefined? ==> r.fillColor == s.fillColor
    ensures !o.fillColor.Undefined? ==> r.fillColor == (if o.fillColor.Null? then Nil else NonNull(o.fillColor.value))
    ensures o.strokeColor.Undefined? ==> r.strokeColor == s.strokeColor
    ensures !o.strokeColor.Undefined? ==> r.strokeColor == (if o.strokeColor.Null? then Nil else NonNull(o.strokeColor.value))
    ensures o.lineWidth.Undefined? ==> r.lineWidth == s.lineWidth
    ensures !o.lineWidth.Undefined? ==> r.lineWidth == (if o.lineWidth.Null? then Nil else NonNull(o.lineWidth.value))
  {
    RingStyle(IfDefined(o.fillColor, s.fillColor), IfDefined(o.strokeColor, s.strokeColor),
              IfDefined(o.lineWidth, s.lineWidth))
  }

  /** The `shadowStyle` setter on the shadow fields, by the same rule. */
  function SetDefinedShadow(s: RingShadow, o: ShadowOptions): (r: RingShadow)
    ensures o.shadow.Undefined? ==> r.shadow == s.shadow
    ensures !o.shadow.Undefined? ==> r.shadow == (if o.shadow.Null? then Nil else NonNull(o.shadow.value))
    ensures o.shadowColor.Undefined? ==> r.shadowColor == s.shadowColor
    ensures !o.shadowColor.Undefined? ==> r.shadowColor == (if o.shadowColor.Null? then Nil else NonNull(o.shadowColor.value))
    ensures o.shadowBlur.Undefined? ==> r.shadowBlur == s.shadowBlur
    ensures !o.shadowBlur.Undefined? ==> r.shadowBlur == (if o.shadowBlur.Null? then Nil else NonNull(o.shadowBlur.value))
    ensures o.shadowOffsetX.Undefined? ==> r.shadowOffsetX == s.shadowOffsetX
    ensures !o.shadowOffsetX.Undefined? ==> r.shadowOffsetX == (if o.shadowOffsetX.Null? then Nil else NonNull(o.shadowOffsetX.value))
    ensures o.shadowOffsetY.Undefined? ==> r.shadowOffsetY == s.shadowOffsetY
    ensures !o.shadowOffsetY.Undefined? ==> r.shadowOffsetY == (if o.shadowOffsetY.Null? then Nil else NonNull(o.shadowOffsetY.value))
  {
    RingShadow(IfDefined(o.shadow, s.shadow), IfDefined(o.shadowColor, s.shadowColor),
               IfDefined(o.shadowBlur, s.shadowBlur), IfDefined(o.shadowOffsetX, s.shadowOffsetX),
               IfDefined(o.shadowOffsetY, s.shadowOffsetY))
  }

  /** Unlike a `??` merge, a `null` key clears a field that held a value. */
  lemma NullKeyClears(s: RingStyle, color: string)
    requires s.fillColor == NonNull(color)
    ensures SetDefinedStyle(s, StyleKeys(Null, Undefined, Undefined)).fillColor == Nil
    ensures CoalesceNullable(Null, s.fillColor) == NonNull(color)
  {
  }

  /** Setting the same keys twice is setting them once. */
  lemma SetDefinedShadowIdempotent(s: RingShadow, o: ShadowOptions)
    ensures SetDefinedShadow(SetDefinedShadow(s, o), o) == SetDefinedShadow(s, o)
  {
  }

  /** The `size` getter's result. */
  datatype Size = Size(width: real, height: real)

  class RectangleRing {
    var x: real
    var y: real
    var width: real
    var height: real
    var thickness: real

    var fillColor: Nullable<string>
    var strokeColor: Nullable<string>
    var lineWidth: Nullable<real>

    var shadow: Nullable<bool>
    var shadowColor: Nullable<string>
    var shadowBlur: Nullable<real>
    var shadowOffsetX: Nullable<real>
    var shadowOffsetY: Nullable<real>

    constructor (x: real, y: real, width: real, height: real, thickness: real, options: StyleOptions)
      ensures this.x == x && this.y == y && this.width == width && this.height == height
      ensures this.thickness == thickness
      ensures Style() == RingStyle(
        NonNull(Coalesce(options.fillColor, "black")),
        CoalesceNullable(options.strokeColor, Nil),
        NonNull(Coalesce(options.lineWidth, 1.0)))
      ensures ShadowStyle() == RingShadow(
        NonNull(Coalesce(options.shadow, false)),
        NonNull(Coalesce(options.shadowColor, "rgba(0,0,0,0.5)")),
        NonNull(Coalesce(options.shadowBlur, 4.0)),
        NonNull(Coalesce(options.shadowOffsetX, 2.0)),
        NonNull(Coalesce(options.shadowOffsetY, 2.0)))
    {
      this.x := x;
      this.y := y;
      this.width := width;
      this.height := height;
      this.thickness := thickness;
      fillColor := NonNull(Coalesce(options.fillColor, "black"));
      strokeColor := CoalesceNullable(options.strokeColor, Nil);
      lineWidth := NonNull(Coalesce(options.lineWidth, 1.0));
      shadow := NonNull(Coalesce(options.shadow, false));
      shadowColor := NonNull(Coalesce(options.shadowColor, "rgba(0,0,0,0.5)"));
      shadowBlur := NonNull(Coalesce(options.shadowBlur, 4.0));
      shadowOffsetX := NonNull(Coalesce(options.shadowOffsetX, 2.0));
      shadowOffsetY := NonNull(Coalesce(options.shadowOffsetY, 2.0));
    }

    /** The `size` getter. */
    function GetSize(): Size
      reads this
    {
      Size(width, height)
    }

    /** The `size` setter: the getter then returns what was set. */
    method SetSize(size: Size)
      modifies this`width, this`height
      ensures GetSize() == size
    {
      width := size.width;
      height := size.height;
    }

    /** The `border` getter. */
    function Border(): real
      reads this
    {
      thickness
    }

    /** The `border` setter: the getter then returns what was set. */
    method SetBorder(value: real)
      modifies this`thickness
      ensures Border() == value
    {
      thickness := value;
    }

    /** The `position` setter. */
    method SetPosition(p: Point)
      modifies this`x, this`y
      ensures Point(x, y) == p
    {
      x := p.x;
      y := p.y;
    }

    /** The `style` getter. */
    function Style(): RingStyle
      reads this
    {
      RingStyle(fillColor, strokeColor, lineWidth)
    }

    /** The `style` setter. */
    method SetStyle(o: StyleKeys)
      modifies this`fillColor, this`strokeColor, this`lineWidth
      ensures Style() == SetDefinedStyle(old(Style()), o)
    {
      if !o.fillColor.Undefined? { fillColor := IfDefined(o.fillColor, fillColor); }
      if !o.strokeColor.Undefined? { strokeColor := IfDefined(o.strokeColor, strokeColor); }
      if !o.lineWidth.Undefined? { lineWidth := IfDefined(o.lineWidth, lineWidth); }
    }

    /** The `shadowStyle` getter. */
    function ShadowStyle(): RingShadow
      reads this
    {
      RingShadow(shadow, shadowColor, shadowBlur, shadowOffsetX, shadowOffsetY)
    }

    /** The `shadowStyle` setter. */
    method SetShadowStyle(o: ShadowOptions)
      modifies this`shadow, this`shadowColor, this`shadowBlur, this`shadowOffsetX, this`shadowOffsetY
      ensures ShadowStyle() == SetDefinedShadow(old(ShadowStyle()), o)
    {
      if !o.shadow.Undefined? { shadow := IfDefined(o.shadow, shadow); }
      if !o.shadowColor.Undefined? { shadowColor := IfDefined(o.shadowColor, shadowColor); }
      if !o.shadowBlur.Undefined? { shadowBlur := IfDefined(o.shadowBlur, shadowBlur); }
      if !o.shadowOffsetX.Undefined? { shadowOffsetX := IfDefined(o.shadowOffsetX, shadowOffsetX); }
      if !o.shadowOffsetY.Undefined? { shadowOffsetY := IfDefined(o.shadowOffsetY, shadowOffsetY); }
    }
  }
}
