/** Text drawn with a 3D depth effect: copies of the text stacked behind it, the
    farthest first, then the front text. Its constructor mixes `||` and `??`
    defaults; `update` and the group setters merge with `??`. */
module Text3DDepths {
  import opened Js
  import opened Geometry
  import opened Styles

  /** Every key any of the constructor, `update`, `setStyle` and `setDepth` read. */
  datatype Text3DOptions = Text3DOptions(
    text: Opt<string>,
    x: Opt<real>,
    y: Opt<real>,
    font: Opt<string>,
    textColor: Opt<string>,
    depthColor: Opt<string>,
    depth: Opt<real>,
    offsetX: Opt<real>,
    offsetY: Opt<real>,
    shadow: Opt<bool>,
    shadowColor: Opt<string>,
    shadowBlur: Opt<real>,
    shadowOffsetX: Opt<real>,
    shadowOffsetY: Opt<real>)

  /** The `style` getter's fields. */
  datatype TextStyle = TextStyle(font: string, textColor: string, depthColor: string)

  /** The `depthStyle` getter's fields. */
  datatype DepthStyle = DepthStyle(depth: real, offsetX: real, offsetY: real)

  /** A `fillText(text, at.x, at.y)` call and the `fillStyle` in force for it. */
  datatype TextCall = TextCall(text: string, at: Point, color: string)

  /** The constructor's text style: every key falls back on any falsy value. */
  function InitialStyle(o: Text3DOptions): (s: TextStyle)
    ensures o.font.Given? && o.font.value != "" ==> s.font == o.font.value
    ensures o.font.IsNullish() || o.font == Given("") ==> s.font == "bold 40px sans-serif"
    ensures o.textColor.Given? && o.textColor.value != "" ==> s.textColor == o.textColor.value
    ensures o.textColor.IsNullish() || o.textColor == Given("") ==> s.textColor == "#ffffff"
    ensures o.depthColor.Given? && o.depthColor.value != "" ==> s.depthColor == o.depthColor.value
    ensures o.depthColor.IsNullish() || o.depthColor == Given("") ==> s.depthColor == "#000000"
  {
    TextStyle(OrString(o.font, "bold 40px sans-serif"), OrString(o.textColor, "#ffffff"),
              OrString(o.depthColor, "#000000"))
  }

  /** The constructor's depth: `??`, so a given 0 is kept. */
  function InitialDepth(o: Text3DOptions): (d: DepthStyle)
    ensures o.depth.Given? ==> d.depth == o.depth.value
    ensures o.offsetX.Given? ==> d.offsetX == o.offsetX.value
    ensures o.offsetY.Given? ==> d.offsetY == o.offsetY.value
    ensures o.depth.IsNullish() ==> d.depth == 5.0
    ensures o.offsetX.IsNullish() ==> d.offsetX == 1.0
    ensures o.offsetY.IsNullish() ==> d.offsetY == 1.0
  {
    DepthStyle(Coalesce(o.depth, 5.0), Coalesce(o.offsetX, 1.0), Coalesce(o.offsetY, 1.0))
  }

  /** The constructor's shadow: `||`, so a given 0 blur or offset is replaced. */
  function InitialShadow(o: Text3DOptions): (s: Shadow)
    ensures s.on <==> o.shadow == Given(true)
    ensures o.shadowColor.Given? && o.shadowColor.value != "" ==> s.color == o.shadowColor.value
    ensures o.shadowColor.IsNullish() || o.shadowColor == Given("") ==> s.color == "rgba(0,0,0,0.5)"
    ensures o.shadowBlur.Given? && o.shadowBlur.value != 0.0 ==> s.blur == o.shadowBlur.value
    ensures o.shadowBlur.IsNullish() || o.shadowBlur == Given(0.0) ==> s.blur == 4.0
    ensures o.shadowOffsetX.Given? && o.shadowOffsetX.value != 0.0 ==> s.offsetX == o.shadowOffsetX.value
    ensures o.shadowOffsetX.IsNullish() || o.shadowOffsetX == Given(0.0) ==> s.offsetX == 2.0
    ensures o.shadowOffsetY.Given? && o.shadowOffsetY.value != 0.0 ==> s.offsetY == o.shadowOffsetY.value
    ensures o.shadowOffsetY.IsNullish() || o.shadowOffsetY == Given(0.0) ==> s.offsetY == 2.0
  {
    Shadow(OrBool(o.shadow, false), OrString(o.shadowColor, "rgba(0,0,0,0.5)"),
           OrNumber(o.shadowBlur, 4.0), OrNumber(o.shadowOffsetX, 2.0), OrNumber(o.shadowOffsetY, 2.0))
  }

  /** `options = {}` */
  const NoText3DOptions := Text3DOptions(Undefined, Undefined, Undefined, Undefined, Undefined, Undefined, Undefined,
                                         Undefined, Undefined, Undefined, Undefined, Undefined, Undefined, Undefined)

  /** Without options the constructor takes the documented defaults. */
  lemma DefaultText3D()
    ensures InitialStyle(NoText3DOptions) == TextStyle("bold 40px sans-serif", "#ffffff", "#000000")
    ensures InitialDepth(NoText3DOptions) == DepthStyle(5.0, 1.0, 1.0)
    ensures InitialShadow(NoText3DOptions) == Shadow(false, "rgba(0,0,0,0.5)", 4.0, 2.0, 2.0)
  {
  }

  /** The difference between the two defaulting rules on the value 0. */
  lemma ZeroDepthKeptZeroBlurReplaced(o: Text3DOptions)
    requires o.depth == Given(0.0) && o.shadowBlur == Given(0.0)
    ensures InitialDepth(o).depth == 0.0
    ensures InitialShadow(o).blur == 4.0
  {
  }

  /** The `??` merge of `update` and `setStyle` on the text style. */
  function MergeStyle(s: TextStyle, o: Text3DOptions): TextStyle
  {
    TextStyle(Coalesce(o.font, s.font), Coalesce(o.textColor, s.textColor), Coalesce(o.depthColor, s.depthColor))
  }

  /** A key replaces its field exactly when it is not nullish. */
  lemma MergeStyleFields(s: TextStyle, o: Text3DOptions)
    ensures o.font.Given? ==> MergeStyle(s, o).font == o.font.value
    ensures o.font.IsNullish() ==> MergeStyle(s, o).font == s.font
    ensures o.textColor.Given? ==> MergeStyle(s, o).textColor == o.textColor.value
    ensures o.textColor.IsNullish() ==> MergeStyle(s, o).textColor == s.textColor
    ensures o.depthColor.Given? ==> MergeStyle(s, o).depthColor == o.depthColor.value
    ensures o.depthColor.IsNullish() ==> MergeStyle(s, o).depthColor == s.depthColor
  {
  }

  /** The `??` merge of `update` and `setDepth` on the depth. */
  function MergeDepth(d: DepthStyle, o: Text3DOptions): DepthStyle
  {
    DepthStyle(Coalesce(o.depth, d.depth), Coalesce(o.offsetX, d.offsetX), Coalesce(o.offsetY, d.offsetY))
  }

  /** A key replaces its field exactly when it is not nullish. */
  lemma MergeDepthFields(d: DepthStyle, o: Text3DOptions)
    ensures o.depth.Given? ==> MergeDepth(d, o).depth == o.depth.value
    ensures o.depth.IsNullish() ==> MergeDepth(d, o).depth == d.depth
    ensures o.offsetX.Given? ==> MergeDepth(d, o).offsetX == o.offsetX.value
    ensures o.offsetX.IsNullish() ==> MergeDepth(d, o).offsetX == d.offsetX
    ensures o.offsetY.Given? ==> MergeDepth(d, o).offsetY == o.offsetY.value
    ensures o.offsetY.IsNullish() ==> MergeDepth(d, o).offsetY == d.offsetY
  {
  }

  /** The shadow keys of an options object. */
  function ShadowKeys(o: Text3DOptions): ShadowOptions
  {
    ShadowOptions(o.shadow, o.shadowColor, o.shadowBlur, o.shadowOffsetX, o.shadowOffsetY)
  }

  /** The `??` merge of `update` and `setShadow` on the shadow: the flag too keeps
      its value when the key is nullish. */
  function MergeTextShadow(s: Shadow, o: ShadowOptions): Shadow
  {
    MergeShadow(s, o, Coalesce(o.shadow, s.on))
  }

  /** Unlike `setShadow` of the polygon, a nullish flag keeps the shadow as it was. */
  lemma MergeTextShadowFlag(s: Shadow, o: ShadowOptions)
    ensures o.shadow.Given? ==> MergeTextShadow(s, o).on == o.shadow.value
    ensures o.shadow.IsNullish() ==> MergeTextShadow(s, o).on == s.on
  {
  }

  /** Each merge applied twice with the same options is applied once. */
  lemma MergesIdempotent(s: TextStyle, d: DepthStyle, sh: Shadow, o: Text3DOptions)
    ensures MergeStyle(MergeStyle(s, o), o) == MergeStyle(s, o)
    ensures MergeDepth(MergeDepth(d, o), o) == MergeDepth(d, o)
    ensures MergeTextShadow(MergeTextShadow(sh, ShadowKeys(o)), ShadowKeys(o)) == MergeTextShadow(sh, ShadowKeys(o))
  {
    MergeShadowIdempotent(sh, ShadowKeys(o), Coalesce(o.shadow, sh.on));
  }

  /** How many depth layers the loop `for (i = depth; i > 0; i--)` emits. */
  function LayerCount(depth: real): nat
  {
    if depth <= 0.0 then 0 else -Floor(-depth)
  }

  /** Layer `j` (counting from the farthest) is emitted exactly when its
      multiplier `depth - j` is still positive. */
  lemma LayerCountCounts(depth: real, j: int)
    requires j >= 0
    ensures j < LayerCount(depth) <==> depth - j as real > 0.0
  {
  }

  /** For a whole-number depth the loop emits that many layers, and none for 0 or less. */
  lemma LayerCountOfInteger(n: int)
    ensures LayerCount(n as real) == if n <= 0 then 0 else n
  {
  }

  /** Where layer `j` (counting from the farthest) is drawn: `depth - j` steps of
      the offset behind the text. */
  function LayerAt(x: real, y: real, d: DepthStyle, j: int): Point
  {
    Point(x + Times(d.depth - j as real, d.offsetX), y + Times(d.depth - j as real, d.offsetY))
  }

  /** With non-negative offsets each layer is drawn at or before the next one in
      both coordinates: the stack is painted from the back. */
  lemma LayersFarthestFirst(x: real, y: real, d: DepthStyle, j: int)
    requires d.offsetX >= 0.0 && d.offsetY >= 0.0
    ensures LayerAt(x, y, d, j + 1).x <= LayerAt(x, y, d, j).x
    ensures LayerAt(x, y, d, j + 1).y <= LayerAt(x, y, d, j).y
  {
    var a := d.depth - (j + 1) as real;
    assert a + 1.0 == d.depth - j as real;
    assert Times(a + 1.0, d.offsetX) == Times(a, d.offsetX) + d.offsetX;
    assert Times(a + 1.0, d.offsetY) == Times(a, d.offsetY) + d.offsetY;
  }

  /** The class keeps its fields flat; here the three groups its getters return
      (`style`, `depthStyle`, `shadowStyle`) are held as one record each. */
  class Text3DDepth {
    var text: string
    var x: real
    var y: real
    var style: TextStyle
    var depths: DepthStyle
    var shadowStyle: Shadow

    constructor (text: string, x: real, y: real, options: Text3DOptions)
      ensures this.text == text && this.x == x && this.y == y
      ensures style == InitialStyle(options)
      ensures depths == InitialDepth(options)
      ensures shadowStyle == InitialShadow(options)
    {
      this.text := text;
      this.x := x;
      this.y := y;
      style := InitialStyle(options);
      depths := InitialDepth(options);
      shadowStyle := InitialShadow(options);
    }

    /** The `fillText` calls of `draw`: the depth layers for i = depth, depth - 1,
        ... while i > 0, in the depth colour, then the front text at (x, y) in the
        text colour. */
    method Draw() returns (calls: seq<TextCall>)
      ensures |calls| == LayerCount(depths.depth) + 1
      ensures forall j :: 0 <= j < |calls| - 1 ==>
                calls[j] == TextCall(text, LayerAt(x, y, depths, j), style.depthColor)
      ensures calls[|calls| - 1] == TextCall(text, Point(x, y), style.textColor)
    {
      calls := [];
      var i := depths.depth;
      while i > 0.0
        invariant i == depths.depth - |calls| as real
        invariant |calls| <= LayerCount(depths.depth)
        invariant forall j :: 0 <= j < |calls| ==>
                    calls[j] == TextCall(text, LayerAt(x, y, depths, j), style.depthColor)
        decreases LayerCount(depths.depth) - |calls|
      {
        LayerCountCounts(depths.depth, |calls|);
        calls := calls + [TextCall(text, Point(x + Times(i, depths.offsetX), y + Times(i, depths.offsetY)),
                                   style.depthColor)];
        i := i - 1.0;
      }
      LayerCountCounts(depths.depth, |calls|);
      calls := calls + [TextCall(text, Point(x, y), style.textColor)];
    }

    /** `update(options)`: every key replaces its field only when not nullish. */
    method Update(options: Text3DOptions)
      modifies this
      ensures text == Coalesce(options.text, old(text))
      ensures x == Coalesce(options.x, old(x)) && y == Coalesce(options.y, old(y))
      ensures style == MergeStyle(old(style), options)
      ensures depths == MergeDepth(old(depths), options)
      ensures shadowStyle == MergeTextShadow(old(shadowStyle), ShadowKeys(options))
    {
      text := Coalesce(options.text, text);
      x := Coalesce(options.x, x);
      y := Coalesce(options.y, y);
      style := MergeStyle(style, options);
      depths := MergeDepth(depths, options);
      shadowStyle := MergeTextShadow(shadowStyle, ShadowKeys(options));
    }

    method SetPosition(x: real, y: real)
      modifies this`x, this`y
      ensures this.x == x && this.y == y
    {
      this.x := x;
      this.y := y;
    }

    method SetText(text: string)
      modifies this`text
      ensures this.text == text
    {
      this.text := text;
    }

    /** `setStyle(style)`: only the font and the two colours. */
    method SetStyle(options: Text3DOptions)
      modifies this`style
      ensures style == MergeStyle(old(style), options)
    {
      style := MergeStyle(style, options);
    }

    /** `setShadow(shadow)`: only the five shadow fields. */
    method SetShadow(options: ShadowOptions)
      modifies this`shadowStyle
      ensures shadowStyle == MergeTextShadow(old(shadowStyle), options)
    {
      shadowStyle := MergeTextShadow(shadowStyle, options);
    }

    /** `setDepth(depthOptions)`: only the depth and the two offsets. */
    method SetDepth(options: Text3DOptions)
      modifies this`depths
      ensures depths == MergeDepth(old(depths), options)
    {
      depths := MergeDepth(depths, options);
    }
  }
}
