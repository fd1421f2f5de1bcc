/** The option bags that several shapes accept for their style and shadow. */
module Styles {
  import opened Js

  /** The keys read by the constructors and `style` setters of Ring, Particle and
      Grid (`Grid` ignores `fillColor`, as JavaScript ignores unknown keys). */
  datatype StyleOptions = StyleOptions(
    fillColor: Opt<string>,
    strokeColor: Opt<string>,
    lineWidth: Opt<real>,
    shadow: Opt<bool>,
    shadowColor: Opt<string>,
    shadowBlur: Opt<real>,
    shadowOffsetX: Opt<real>,
    shadowOffsetY: Opt<real>)

  /** `options = {}` */
  const NoStyle := StyleOptions(Undefined, Undefined, Undefined, Undefined, Undefined, Undefined, Undefined, Undefined)

  /** The keys read by the `setShadow` / `shadowStyle` members. */
  datatype ShadowOptions = ShadowOptions(
    shadow: Opt<bool>,
    shadowColor: Opt<string>,
    shadowBlur: Opt<real>,
    shadowOffsetX: Opt<real>,
    shadowOffsetY: Opt<real>)

  const NoShadow := ShadowOptions(Undefined, Undefined, Undefined, Undefined, Undefined)

  /** The five shadow fields a shape keeps. */
  datatype Shadow = Shadow(on: bool, color: string, blur: real, offsetX: real, offsetY: real)

  /** A `setShadow`-style merge: the on/off flag becomes `on` (each class decides how
      it defaults), and every other field is replaced only by a non-nullish key. */
  function MergeShadow(s: Shadow, o: ShadowOptions, on: bool): (r: Shadow)
    ensures r.on == on
    ensures o.shadowColor.Given? ==> r.color == o.shadowColor.value
    ensures o.shadowColor.IsNullish() ==> r.color == s.color
    ensures o.shadowBlur.Given? ==> r.blur == o.shadowBlur.value
    ensures o.shadowBlur.IsNullish() ==> r.blur == s.blur
    ensures o.shadowOffsetX.Given? ==> r.offsetX == o.shadowOffsetX.value
    ensures o.shadowOffsetX.IsNullish() ==> r.offsetX == s.offsetX
    ensures o.shadowOffsetY.Given? ==> r.offsetY == o.shadowOffsetY.value
    ensures o.shadowOffsetY.IsNullish() ==> r.offsetY == s.offsetY
  {
    Shadow(on,
      Coalesce(o.shadowColor, s.color),
      Coalesce(o.shadowBlur, s.blur),
      Coalesce(o.shadowOffsetX, s.offsetX),
      Coalesce(o.shadowOffsetY, s.offsetY))
  }

  /** Merging the same options twice, with the same flag, is merging them once. */
  lemma MergeShadowIdempotent(s: Shadow, o: ShadowOptions, on: bool)
    ensures MergeShadow(MergeShadow(s, o, on), o, on) == MergeShadow(s, o, on)
  {
  }

  /** With no keys only the flag changes. */
  lemma MergeShadowEmpty(s: Shadow, on: bool)
    ensures MergeShadow(s, NoShadow, on) == s.(on := on)
  {
  }
}
