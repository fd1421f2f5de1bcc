/** The colour utilities of `Color`: the channel-list parser applied to the
    canvas-normalised colour string, two-digit hex encoding of channels, random
    interpolation between two colours, the "is dark" test, the RGB distance and
    random hex colours. Every member takes the string the canvas returns from
    `ctx.fillStyle` (the normalisation itself is done by the browser), and every
    `Math.random()` value is a parameter. */
module Colors {
  import opened Js
  import opened Geometry

  // ---------------------------------------------------------------------------
  // `.replace(/^rgba?\(|\s+|\)$/g, '')`

  /** `\s` in a JavaScript regular expression: the WhiteSpace and LineTerminator
      code points of ECMAScript. */
  predicate IsSpace(c: char)
  {
    var n := c as int;
    || 9 <= n <= 13 || n == 32 || n == 0xA0 || n == 0x1680
    || 0x2000 <= n <= 0x200A || n == 0x2028 || n == 0x2029
    || n == 0x202F || n == 0x205F || n == 0x3000 || n == 0xFEFF
  }

  predicate NoSpaces(s: string)
  {
    forall i :: 0 <= i < |s| ==> !IsSpace(s[i])
  }

  predicate NoCommas(s: string)
  {
    forall i :: 0 <= i < |s| ==> s[i] != ','
  }

  predicate HasPrefix(s: string, p: string)
  {
    |p| <= |s| && s[..|p|] == p
  }

  /** `s.replace(/\s+/g, '')`: every whitespace character goes, every other one is
      kept in order. */
  function RemoveSpaces(s: string): (r: string)
    ensures NoSpaces(r) && |r| <= |s|
  {
    if s == [] then []
    else (if IsSpace(s[0]) then [] else [s[0]]) + RemoveSpaces(s[1..])
  }

  lemma {:induction false} RemoveSpacesConcat(a: string, b: string)
    ensures RemoveSpaces(a + b) == RemoveSpaces(a) + RemoveSpaces(b)
  {
    if a != [] {
      assert (a + b)[1..] == a[1..] + b;
      RemoveSpacesConcat(a[1..], b);
    } else {
      assert a + b == b;
    }
  }

  /** A string without whitespace is left as it is. */
  lemma {:induction false} RemoveSpacesKeeps(s: string)
    requires NoSpaces(s)
    ensures RemoveSpaces(s) == s
  {
    if s != [] {
      RemoveSpacesKeeps(s[1..]);
    }
  }

  /** The whole `replace`: a leading `rgba(` (tried first) or `rgb(`, a `)` that
      ends the string, and all whitespace are removed. The three alternatives of
      the pattern match at positions of the ORIGINAL string, so a `)` followed by
      trailing whitespace stays. */
  function Unwrap(s: string): string
  {
    var body := if HasPrefix(s, "rgba(") then s[5..] else if HasPrefix(s, "rgb(") then s[4..] else s;
    var inner := if |body| > 0 && body[|body| - 1] == ')' then body[..|body| - 1] else body;
    RemoveSpaces(inner)
  }

  // ---------------------------------------------------------------------------
  // `.split(',')` and its inverse `.join(sep)`

  /** `s.split(',')`: the pieces between commas, in order; "" gives [""]. */
  function SplitCommas(s: string): (parts: seq<string>)
    ensures |parts| >= 1
    ensures forall i :: 0 <= i < |parts| ==> NoCommas(parts[i])
  {
    if s == [] then [""]
    else if s[0] == ',' then [""] + SplitCommas(s[1..])
    else
      var rest := SplitCommas(s[1..]);
      [[s[0]] + rest[0]] + rest[1..]
  }

  /** `parts.join(sep)` */
  function Join(parts: seq<string>, sep: string): string
    requires |parts| >= 1
  {
    if |parts| == 1 then parts[0] else parts[0] + sep + Join(parts[1..], sep)
  }

  /** Splitting on commas and joining with commas gives back the string. */
  lemma {:induction false} JoinOfSplit(s: string)
    ensures Join(SplitCommas(s), ",") == s
  {
    if s != [] {
      var rest := SplitCommas(s[1..]);
      JoinOfSplit(s[1..]);
      if s[0] == ',' {
        assert SplitCommas(s) == [""] + rest;
        JoinCons("", rest, ",");
      } else {
        var parts := SplitCommas(s);
        assert parts == [[s[0]] + rest[0]] + rest[1..];
        JoinHead([s[0]], parts, rest, ",");
      }
    }
  }

  /** Joining a leading piece onto the join of the rest. */
  lemma JoinCons(p: string, rest: seq<string>, sep: string)
    requires |rest| >= 1
    ensures Join([p] + rest, sep) == p + sep + Join(rest, sep)
  {
    assert ([p] + rest)[1..] == rest;
  }

  /** Prepending `c` to the first piece prepends it to the join. */
  lemma JoinHead(c: string, parts: seq<string>, rest: seq<string>, sep: string)
    requires |rest| >= 1 && |parts| == |rest|
    requires parts[0] == c + rest[0] && parts[1..] == rest[1..]
    ensures Join(parts, sep) == c + Join(rest, sep)
  {
    if |rest| > 1 {
      var tail := Join(rest[1..], sep);
      assert Join(parts, sep) == (c + rest[0]) + sep + tail;
      assert Join(rest, sep) == rest[0] + sep + tail;
    }
  }

  /** Joining comma-free pieces with commas and splitting again gives back the
      pieces. */
  lemma {:induction false} SplitOfJoin(parts: seq<string>)
    requires |parts| >= 1
    requires forall i :: 0 <= i < |parts| ==> NoCommas(parts[i])
    ensures SplitCommas(Join(parts, ",")) == parts
  {
    if |parts| == 1 {
      SplitOfPiece(parts[0], []);
    } else {
      SplitOfJoin(parts[1..]);
      SplitOfPiece(parts[0], parts[1..]);
    }
  }

  /** Splitting a comma-free piece followed by `,` and more. */
  lemma {:induction false} SplitOfPiece(p: string, more: seq<string>)
    requires NoCommas(p)
    requires |more| >= 1 ==> SplitCommas(Join(more, ",")) == more
    ensures SplitCommas(if |more| == 0 then p else p + "," + Join(more, ",")) == [p] + more
  {
    var s := if |more| == 0 then p else p + "," + Join(more, ",");
    if p == [] {
      if |more| != 0 {
        assert s == "," + Join(more, ",");
        assert s[1..] == Join(more, ",");
      }
    } else {
      var tail := if |more| == 0 then p[1..] else p[1..] + "," + Join(more, ",");
      assert s[1..] == tail;
      SplitOfPiece(p[1..], more);
      assert [p[0]] + p[1..] == p;
    }
  }

  /** Removing the spaces of a `", "`-joined list of space-free pieces leaves their
      `","`-join. */
  lemma {:induction false} RemoveSpacesOfJoin(parts: seq<string>)
    requires |parts| >= 1
    requires forall i :: 0 <= i < |parts| ==> NoSpaces(parts[i])
    ensures RemoveSpaces(Join(parts, ", ")) == Join(parts, ",")
  {
    RemoveSpacesKeeps(parts[0]);
    if |parts| > 1 {
      RemoveSpacesOfJoin(parts[1..]);
      RemoveSpacesConcat(parts[0] + ", ", Join(parts[1..], ", "));
      RemoveSpacesConcat(parts[0], ", ");
      assert RemoveSpaces(", ") == ",";
    }
  }

  /** The join starts with the first piece, followed by the separator when there
      are more. */
  lemma JoinStart(parts: seq<string>, sep: string)
    requires |parts| >= 1
    ensures HasPrefix(Join(parts, sep), parts[0])
    ensures |parts| > 1 ==> HasPrefix(Join(parts, sep)[|parts[0]|..], sep)
    ensures |parts| == 1 ==> Join(parts, sep) == parts[0]
  {
    if |parts| > 1 {
      var j := Join(parts, sep);
      assert j == parts[0] + sep + Join(parts[1..], sep);
      assert j[..|parts[0]|] == parts[0];
      assert j[|parts[0]|..] == sep + Join(parts[1..], sep);
    }
  }

  // ---------------------------------------------------------------------------
  // `.map(Number)`

  predicate IsDigit(c: char)
  {
    '0' <= c <= '9'
  }

  predicate AllDigits(s: string)
  {
    forall i :: 0 <= i < |s| ==> IsDigit(s[i])
  }

  /** The value of a string of decimal digits. */
  function DigitsValue(s: string): nat
    requires AllDigits(s)
  {
    if s == [] then 0 else DigitsValue(s[..|s| - 1]) * 10 + (s[|s| - 1] as int - '0' as int)
  }

  function Pow10(n: nat): (p: nat)
    ensures p >= 1
  {
    if n == 0 then 1 else 10 * Pow10(n - 1)
  }

  /** The value of the digits after a decimal point: d / 10^|d|. */
  function FractionValue(d: string): real
    requires AllDigits(d)
  {
    DigitsValue(d) as real / Pow10(|d|) as real
  }

  /** The index of the first `c` in `s`, or `|s|` when there is none. */
  function IndexOf(s: string, c: char): (k: nat)
    ensures k <= |s| && (k < |s| ==> s[k] == c)
    ensures forall i :: 0 <= i < k ==> s[i] != c
  {
    if s == [] then 0 else if s[0] == c then 0 else 1 + IndexOf(s[1..], c)
  }

  /** An unsigned decimal literal: digits, optionally a `.` and more digits, at
      least one digit in all ("5.", ".5" and "5" are numbers; "." is not). */
  function ParseUnsigned(u: string): Num
  {
    var k := IndexOf(u, '.');
    var whole := u[..k];
    var frac := if k < |u| then u[k + 1..] else "";
    if AllDigits(whole) && AllDigits(frac) && |whole| + |frac| > 0 then
      Val(DigitsValue(whole) as real + FractionValue(frac))
    else NaN
  }

  /** `Number(t)` for the whitespace-free pieces the parser produces: "" is 0, an
      optionally signed decimal literal is its value, anything else is NaN. */
  function ParseNumber(t: string): Num
  {
    if t == "" then Val(0.0)
    else if t[0] == '-' then
      (match ParseUnsigned(t[1..]) case NaN => NaN case Val(v) => Val(-v))
    else if t[0] == '+' then ParseUnsigned(t[1..])
    else ParseUnsigned(t)
  }

  /** The character of the decimal digit d. */
  function DigitChar(d: nat): (c: char)
    requires d < 10
    ensures IsDigit(c) && c as int - '0' as int == d
  {
    ('0' as int + d) as char
  }

  /** `n.toString()` for a natural number. */
  function Decimal(n: nat): (s: string)
    ensures |s| >= 1 && AllDigits(s)
  {
    if n < 10 then [DigitChar(n)] else Decimal(n / 10) + [DigitChar(n % 10)]
  }

  lemma {:induction false} DecimalValue(n: nat)
    ensures DigitsValue(Decimal(n)) == n
  {
    if n >= 10 {
      DecimalValue(n / 10);
      var s := Decimal(n);
      assert s[..|s| - 1] == Decimal(n / 10);
    }
  }

  lemma DigitsHaveNoSeparators(s: string)
    requires AllDigits(s)
    ensures NoSpaces(s) && NoCommas(s) && IndexOf(s, '.') == |s|
  {
  }

  /** `Number` reads back what `toString` writes: the decimal form of n is n. */
  lemma ParseDecimal(n: nat)
    ensures ParseNumber(Decimal(n)) == Val(n as real)
    ensures ParseNumber("-" + Decimal(n)) == Val(-(n as real))
  {
    var s := Decimal(n);
    DecimalValue(n);
    DigitsHaveNoSeparators(s);
    assert s[..|s|] == s;
    assert ("-" + s)[1..] == s;
  }

  /** A decimal fraction `w.d` (the serialised alpha, say "0.14") is
      w + d / 10^|d|. */
  lemma ParseFraction(w: nat, d: string)
    requires AllDigits(d)
    ensures ParseNumber(Decimal(w) + "." + d) == Val(w as real + FractionValue(d))
  {
    var s := Decimal(w);
    var t := s + "." + d;
    DecimalValue(w);
    DigitsHaveNoSeparators(s);
    IndexOfAfter(s, ".", d);
    assert t[0] == s[0] && IsDigit(s[0]);
    assert ParseNumber(t) == ParseUnsigned(t);
    assert t[..|s|] == s;
    assert t[|s| + 1..] == d;
  }

  lemma IndexOfAfter(s: string, dot: string, d: string)
    requires IndexOf(s, '.') == |s| && dot == "."
    ensures IndexOf(s + dot + d, '.') == |s|
  {
    var t := s + dot + d;
    assert t[|s|] == '.';
    assert forall i :: 0 <= i < |s| ==> t[i] == s[i];
  }

  /** A piece that starts with a character other than a digit, a sign or a
      decimal point is NaN. */
  lemma NotANumber(t: string)
    requires |t| > 0 && !IsDigit(t[0]) && t[0] !in "+-."
    ensures ParseNumber(t) == NaN
  {
    var k := IndexOf(t, '.');
    assert k > 0;
    assert t[..k][0] == t[0];
  }

  // ---------------------------------------------------------------------------
  // The parsed channel lists

  /** `.map(Number)` */
  function ParseAll(parts: seq<string>): (c: seq<Num>)
    ensures |c| == |parts| && forall i :: 0 <= i < |parts| ==> c[i] == ParseNumber(parts[i])
  {
    seq(|parts|, i requires 0 <= i < |parts| => ParseNumber(parts[i]))
  }

  /** `s.replace(...).split(',').map(Number)` */
  function Channels(s: string): seq<Num>
  {
    ParseAll(SplitCommas(Unwrap(s)))
  }

  /** `parseColor` inside `getRandomColorHexBetween`: the channel list with alpha 1
      appended when it has exactly three entries. */
  function ParseColor(s: string): seq<Num>
  {
    var c := Channels(s);
    if |c| == 3 then c + [Val(1.0)] else c
  }

  /** `colorToRGB` (and `parse` in `colorDistance`): `.slice(0, 3)`. */
  function ColorToRgb(s: string): seq<Num>
  {
    var c := Channels(s);
    if |c| <= 3 then c else c[..3]
  }

  /** `c[i]`, which is `undefined` past the end; `undefined` turns arithmetic
      and `Math.round` into NaN. */
  function At(c: seq<Num>, i: nat): Num
  {
    if i < |c| then c[i] else NaN
  }

  /** The functional notation `fn(p1, p2, ...)` in which a canvas serialises a
      colour (channels separated by a comma and a space). */
  function Functional(fn: string, parts: seq<string>): string
    requires |parts| >= 1
  {
    fn + "(" + Join(parts, ", ") + ")"
  }

  predicate Piece(p: string)
  {
    NoSpaces(p) && NoCommas(p)
  }

  /** The parser's contract: on `rgb(p1, ..., pn)` or `rgba(p1, ..., pn)` with
      space- and comma-free pieces, the channels are `Number(p1)`, ...,
      `Number(pn)` in order. */
  lemma {:induction false} ChannelsOfFunctional(fn: string, parts: seq<string>)
    requires fn == "rgb" || fn == "rgba"
    requires |parts| >= 1 && forall i :: 0 <= i < |parts| ==> Piece(parts[i])
    ensures Channels(Functional(fn, parts)) == ParseAll(parts)
  {
    var j := Join(parts, ", ");
    var s := Functional(fn, parts);
    JoinStart(parts, ", ");
    if fn == "rgba" {
      assert s[..5] == "rgba(";
      assert s[5..] == j + ")";
    } else {
      assert s[..4] == "rgb(";
      assert s[4..] == j + ")";
      assert s[3] == '(';
      assert !HasPrefix(s, "rgba(") by {
        assert |s| >= 5 && s[..5][3] == s[3];
        assert "rgba("[3] == 'a';
      }
    }
    assert (j + ")")[..|j|] == j;
    RemoveSpacesOfJoin(parts);
    assert Unwrap(s) == Join(parts, ",");
    SplitOfJoin(parts);
  }

  /** `rgb(r, g, b)` */
  function RgbString(r: nat, g: nat, b: nat): string
  {
    Functional("rgb", [Decimal(r), Decimal(g), Decimal(b)])
  }

  /** `rgba(r, g, b, alpha)`: the canvas form of a translucent colour. */
  function RgbaString(r: nat, g: nat, b: nat, alpha: string): string
  {
    Functional("rgba", [Decimal(r), Decimal(g), Decimal(b), alpha])
  }

  /** On `rgb(r, g, b)` the parser yields [r, g, b] in order and `parseColor`
      appends alpha 1. */
  lemma ParseRgb(r: nat, g: nat, b: nat)
    ensures Channels(RgbString(r, g, b)) == [Val(r as real), Val(g as real), Val(b as real)]
    ensures ParseColor(RgbString(r, g, b)) == [Val(r as real), Val(g as real), Val(b as real), Val(1.0)]
  {
    var parts := [Decimal(r), Decimal(g), Decimal(b)];
    DigitsHaveNoSeparators(parts[0]);
    DigitsHaveNoSeparators(parts[1]);
    DigitsHaveNoSeparators(parts[2]);
    ChannelsOfFunctional("rgb", parts);
    ParseDecimal(r);
    ParseDecimal(g);
    ParseDecimal(b);
  }

  /** On `rgba(r, g, b, a)` the parser yields [r, g, b, a] in order (a being
      whatever `Number` makes of the alpha) and `parseColor` appends nothing. */
  lemma ParseRgba(r: nat, g: nat, b: nat, alpha: string)
    requires Piece(alpha)
    ensures ParseColor(RgbaString(r, g, b, alpha)) ==
      [Val(r as real), Val(g as real), Val(b as real), ParseNumber(alpha)]
  {
    var parts := [Decimal(r), Decimal(g), Decimal(b), alpha];
    DigitsHaveNoSeparators(parts[0]);
    DigitsHaveNoSeparators(parts[1]);
    DigitsHaveNoSeparators(parts[2]);
    ChannelsOfFunctional("rgba", parts);
    ParseDecimal(r);
    ParseDecimal(g);
    ParseDecimal(b);
  }

  /** The canvas serialises an opaque colour as `#rrggbb`. That string has no
      commas, so the parser yields the single channel NaN. */
  lemma ParseOpaqueIsNaN(hex: string)
    requires Piece(hex) && (|hex| > 0 ==> hex[|hex| - 1] != ')')
    ensures Channels("#" + hex) == [NaN]
    ensures ParseColor("#" + hex) == [NaN]
    ensures ColorToRgb("#" + hex) == [NaN]
  {
    var s := "#" + hex;
    assert s[0] == '#';
    assert !HasPrefix(s, "rgba(") && !HasPrefix(s, "rgb(");
    assert s[|s| - 1] != ')';
    assert NoSpaces(s) && NoCommas(s);
    RemoveSpacesKeeps(s);
    assert Unwrap(s) == s;
    SplitOfJoin([s]);
    assert SplitCommas(s) == [s];
    NotANumber(s);
  }

  // ---------------------------------------------------------------------------
  // Hex encoding: `Math.round(v).toString(16).padStart(2, '0')`

  predicate IsHexDigit(c: char)
  {
    '0' <= c <= '9' || 'a' <= c <= 'f'
  }

  predicate AllHexDigits(s: string)
  {
    forall i :: 0 <= i < |s| ==> IsHexDigit(s[i])
  }

  function HexDigitValue(c: char): (d: nat)
    requires IsHexDigit(c)
    ensures d < 16
  {
    if '0' <= c <= '9' then c as int - '0' as int else c as int - 'a' as int + 10
  }

  /** The value of a string of lower-case hex digits, read the way `parseInt(s, 16)` does. */
  function HexValue(s: string): nat
    requires AllHexDigits(s)
  {
    if s == [] then 0 else HexValue(s[..|s| - 1]) * 16 + HexDigitValue(s[|s| - 1])
  }

  /** The lower-case character of the hex digit d. */
  function HexDigitChar(d: nat): (c: char)
    requires d < 16
    ensures IsHexDigit(c) && HexDigitValue(c) == d
  {
    if d < 10 then ('0' as int + d) as char else ('a' as int + d - 10) as char
  }

  /** `n.toString(16)` for a natural number: lower-case digits, no leading zeros. */
  function HexNat(n: nat): (s: string)
    ensures |s| >= 1 && AllHexDigits(s)
  {
    if n < 16 then [HexDigitChar(n)] else HexNat(n / 16) + [HexDigitChar(n % 16)]
  }

  /** `n.toString(16)` for an integer: a minus sign before the magnitude. */
  function HexInt(n: int): string
  {
    if n < 0 then "-" + HexNat(-n) else HexNat(n)
  }

  /** `s.padStart(width, pad)` */
  function PadStart(s: string, width: nat, pad: char): (r: string)
    ensures |r| == if |s| >= width then |s| else width
  {
    if |s| >= width then s else seq(width - |s|, _ => pad) + s
  }

  /** The `toHex` helper of `getRandomColorHexBetween`, and the per-channel map
      of the `toHex` method: NaN prints as "NaN". */
  function HexField(v: Num): string
  {
    match v
    case NaN => "NaN"
    case Val(x) => PadStart(HexInt(Round(x)), 2, '0')
  }

  lemma {:induction false} HexNatValue(n: nat)
    ensures HexValue(HexNat(n)) == n
  {
    if n >= 16 {
      HexNatValue(n / 16);
      var s := HexNat(n);
      assert s[..|s| - 1] == HexNat(n / 16);
    }
  }

  function Pow16(k: nat): (p: nat)
    ensures p >= 1
  {
    if k == 0 then 1 else 16 * Pow16(k - 1)
  }

  /** A number below 16^k needs at most k hex digits. */
  lemma {:induction false} HexNatLength(n: nat, k: nat)
    requires 1 <= k && n < Pow16(k)
    ensures |HexNat(n)| <= k
  {
    if n >= 16 {
      assert n / 16 < Pow16(k - 1);
      HexNatLength(n / 16, k - 1);
    }
  }

  /** Leading zeros do not change a hex value. */
  lemma {:induction false} ZerosValue(z: nat, s: string)
    requires AllHexDigits(s)
    ensures AllHexDigits(seq(z, _ => '0') + s)
    ensures HexValue(seq(z, _ => '0') + s) == HexValue(s)
  {
    var t := seq(z, _ => '0') + s;
    assert AllHexDigits(t) by {
      forall i | 0 <= i < |t| ensures IsHexDigit(t[i]) {
        if i >= z { assert t[i] == s[i - z]; }
      }
    }
    if s == [] {
      assert t == seq(z, _ => '0');
      AllZeros(z);
    } else {
      ZerosValue(z, s[..|s| - 1]);
      assert t[..|t| - 1] == seq(z, _ => '0') + s[..|s| - 1];
      assert t[|t| - 1] == s[|s| - 1];
    }
  }

  lemma {:induction false} AllZeros(z: nat)
    ensures AllHexDigits(seq(z, _ => '0'))
    ensures HexValue(seq(z, _ => '0')) == 0
  {
    if z > 0 {
      AllZeros(z - 1);
      assert seq(z, _ => '0')[..z - 1] == seq(z - 1, _ => '0');
    }
  }

  /** `n.toString(16).padStart(width, '0')` for n < 16^width: exactly `width` hex
      digits whose value is n. */
  lemma PaddedHex(n: nat, width: nat)
    requires 1 <= width && n < Pow16(width)
    ensures |PadStart(HexNat(n), width, '0')| == width
    ensures AllHexDigits(PadStart(HexNat(n), width, '0'))
    ensures HexValue(PadStart(HexNat(n), width, '0')) == n
  {
    var s := HexNat(n);
    HexNatLength(n, width);
    HexNatValue(n);
    if |s| < width {
      ZerosValue(width - |s|, s);
    }
  }

  /** A channel that rounds into 0..255 encodes as two hex digits that decode to
      its rounded value. */
  lemma HexFieldRoundTrip(x: real)
    requires 0 <= Round(x) <= 255
    ensures |HexField(Val(x))| == 2 && AllHexDigits(HexField(Val(x)))
    ensures HexValue(HexField(Val(x))) == Round(x)
  {
    assert Pow16(2) == 256;
    PaddedHex(Round(x), 2);
  }

  /** Two channels that round into 0..255 encode alike exactly when they round alike. */
  lemma HexFieldInjective(x: real, y: real)
    requires 0 <= Round(x) <= 255 && 0 <= Round(y) <= 255
    ensures HexField(Val(x)) == HexField(Val(y)) <==> Round(x) == Round(y)
  {
    HexFieldRoundTrip(x);
    HexFieldRoundTrip(y);
  }

  /** The `toHex` method: `#` and the encodings of the first three channels
      (destructured, so missing ones are `undefined`). */
  function ColorToHex(s: string): string
  {
    var c := Channels(s);
    HexColor(At(c, 0), At(c, 1), At(c, 2))
  }

  /** The template literal `#${toHex(r)}${toHex(g)}${toHex(b)}`. */
  function HexColor(r: Num, g: Num, b: Num): string
  {
    "#" + HexField(r) + HexField(g) + HexField(b)
  }

  /** `#rrggbb`: `#` and three two-digit lower-case hex fields. */
  predicate IsHexColor(h: string)
  {
    |h| == 7 && h[0] == '#' && AllHexDigits(h[1..3]) && AllHexDigits(h[3..5]) && AllHexDigits(h[5..7])
  }

  /** The value of field k (0 red, 1 green, 2 blue) of a `#rrggbb` string. */
  function HexChannel(h: string, k: nat): nat
    requires IsHexColor(h) && k < 3
  {
    if k == 0 then HexValue(h[1..3]) else if k == 1 then HexValue(h[3..5]) else HexValue(h[5..7])
  }

  /** A channel value that a colour string can carry through `toHex`. */
  predicate ByteChannel(v: Num)
  {
    v.Val? && 0 <= Round(v.r) <= 255
  }

  /** Three channels that round into 0..255 give a 7-character `#rrggbb` whose
      two-digit fields decode back to the rounded channels. */
  lemma HexColorShape(r: Num, g: Num, b: Num)
    requires ByteChannel(r) && ByteChannel(g) && ByteChannel(b)
    ensures var h := HexColor(r, g, b);
      && IsHexColor(h)
      && HexChannel(h, 0) == Round(r.r)
      && HexChannel(h, 1) == Round(g.r)
      && HexChannel(h, 2) == Round(b.r)
  {
    HexFieldRoundTrip(r.r);
    HexFieldRoundTrip(g.r);
    HexFieldRoundTrip(b.r);
    var h := HexColor(r, g, b);
    assert h[1..3] == HexField(r);
    assert h[3..5] == HexField(g);
    assert h[5..7] == HexField(b);
  }

  /** `toHex` on `rgb(r, g, b)` with channels in 0..255 decodes back to r, g, b. */
  lemma ColorToHexRgb(r: nat, g: nat, b: nat)
    requires r <= 255 && g <= 255 && b <= 255
    ensures var h := ColorToHex(RgbString(r, g, b));
      IsHexColor(h) && HexChannel(h, 0) == r && HexChannel(h, 1) == g && HexChannel(h, 2) == b
  {
    ParseRgb(r, g, b);
    RoundOfInteger(r);
    RoundOfInteger(g);
    RoundOfInteger(b);
    HexColorShape(Val(r as real), Val(g as real), Val(b as real));
  }

  /** The opaque-colour quirk: on the `#rrggbb` string a canvas returns for an
      opaque colour, `toHex` returns "#NaNNaNNaN". */
  lemma ColorToHexOfOpaque(hex: string)
    requires Piece(hex) && (|hex| > 0 ==> hex[|hex| - 1] != ')')
    ensures ColorToHex("#" + hex) == "#NaNNaNNaN"
  {
    ParseOpaqueIsNaN(hex);
  }

  // ---------------------------------------------------------------------------
  // getRandomColorHexBetween

  /** `a + (b - a) * t` */
  function Lerp(a: Num, b: Num, t: real): Num
  {
    Add(a, Mul(Sub(b, a), Val(t)))
  }

  /** For t in [0, 1] the interpolated channel lies between the two channels. */
  lemma LerpBetween(a: real, b: real, t: real)
    requires 0.0 <= t <= 1.0
    ensures Lerp(Val(a), Val(b), t).Val?
    ensures Min(a, b) <= Lerp(Val(a), Val(b), t).r <= Max(a, b)
  {
    if a <= b {
      MulMonotone(0.0, b - a, t);
      ScaleDown(b - a, t);
    } else {
      MulMonotone(0.0, a - b, t);
      ScaleDown(a - b, t);
      assert (b - a) * t == -((a - b) * t);
    }
  }

  /** Interpolating a channel with itself gives that channel, NaN included. */
  lemma LerpSame(a: Num, t: real)
    ensures Lerp(a, a, t) == a
  {
  }

  /** `getRandomColorHexBetween(ctx, color1, color2)` with the three
      `Math.random()` values t1, t2, t3 used for red, green and blue. */
  function RandomColorHexBetween(color1: string, color2: string, t1: real, t2: real, t3: real): string
  {
    InterpolateHex(ParseColor(color1), ParseColor(color2), t1, t2, t3)
  }

  /** `r`, `g` and `b` interpolated between two channel lists and encoded. */
  function InterpolateHex(c1: seq<Num>, c2: seq<Num>, t1: real, t2: real, t3: real): string
  {
    HexColor(Lerp(At(c1, 0), At(c2, 0), t1), Lerp(At(c1, 1), At(c2, 1), t2), Lerp(At(c1, 2), At(c2, 2), t3))
  }

  /** The appended alpha never changes the first three channels. */
  lemma ParseColorPrefix(s: string, i: nat)
    requires i < 3
    ensures At(ParseColor(s), i) == At(Channels(s), i)
  {
  }

  /** Equal endpoints give that same colour whatever the factors: the result is
      what `toHex` makes of the colour. */
  lemma RandomBetweenSame(color: string, t1: real, t2: real, t3: real)
    ensures RandomColorHexBetween(color, color, t1, t2, t3) == ColorToHex(color)
  {
    var c := ParseColor(color);
    assert RandomColorHexBetween(color, color, t1, t2, t3) == InterpolateHex(c, c, t1, t2, t3);
    ParseColorPrefix(color, 0);
    ParseColorPrefix(color, 1);
    ParseColorPrefix(color, 2);
    LerpSame(At(c, 0), t1);
    LerpSame(At(c, 1), t2);
    LerpSame(At(c, 2), t3);
  }

  lemma RoundMonotone(x: real, y: real)
    requires x <= y
    ensures Round(x) <= Round(y)
  {
  }

  /** Rounds of an interpolated channel lie between the rounds of the endpoints. */
  lemma LerpRoundBetween(a: real, b: real, t: real)
    requires 0.0 <= t <= 1.0
    ensures var m := Lerp(Val(a), Val(b), t).r;
      Round(Min(a, b)) <= Round(m) <= Round(Max(a, b))
  {
    LerpBetween(a, b, t);
    var m := Lerp(Val(a), Val(b), t).r;
    RoundMonotone(Min(a, b), m);
    RoundMonotone(m, Max(a, b));
  }

  /** Three leading channels that round into 0..255. */
  predicate ByteChannels(c: seq<Num>)
  {
    |c| >= 3 && ByteChannel(c[0]) && ByteChannel(c[1]) && ByteChannel(c[2])
  }

  /** With factors in [0, 1] and both colours carrying byte channels, the result
      is a well-formed `#rrggbb` whose every field decodes to a value between the
      rounded channels of the two colours. */
  lemma RandomBetweenShape(color1: string, color2: string, t1: real, t2: real, t3: real)
    requires 0.0 <= t1 <= 1.0 && 0.0 <= t2 <= 1.0 && 0.0 <= t3 <= 1.0
    requires ByteChannels(ParseColor(color1)) && ByteChannels(ParseColor(color2))
    ensures var h := RandomColorHexBetween(color1, color2, t1, t2, t3);
      var c1 := ParseColor(color1); var c2 := ParseColor(color2);
      && IsHexColor(h)
      && Round(Min(c1[0].r, c2[0].r)) <= HexChannel(h, 0) <= Round(Max(c1[0].r, c2[0].r))
      && Round(Min(c1[1].r, c2[1].r)) <= HexChannel(h, 1) <= Round(Max(c1[1].r, c2[1].r))
      && Round(Min(c1[2].r, c2[2].r)) <= HexChannel(h, 2) <= Round(Max(c1[2].r, c2[2].r))
  {
    var c1 := ParseColor(color1);
    var c2 := ParseColor(color2);
    assert RandomColorHexBetween(color1, color2, t1, t2, t3) == InterpolateHex(c1, c2, t1, t2, t3);
    InterpolatedShape(c1, c2, t1, t2, t3);
  }

  lemma InterpolatedShape(c1: seq<Num>, c2: seq<Num>, t1: real, t2: real, t3: real)
    requires 0.0 <= t1 <= 1.0 && 0.0 <= t2 <= 1.0 && 0.0 <= t3 <= 1.0
    requires ByteChannels(c1) && ByteChannels(c2)
    ensures var h := InterpolateHex(c1, c2, t1, t2, t3);
      && IsHexColor(h)
      && Round(Min(c1[0].r, c2[0].r)) <= HexChannel(h, 0) <= Round(Max(c1[0].r, c2[0].r))
      && Round(Min(c1[1].r, c2[1].r)) <= HexChannel(h, 1) <= Round(Max(c1[1].r, c2[1].r))
      && Round(Min(c1[2].r, c2[2].r)) <= HexChannel(h, 2) <= Round(Max(c1[2].r, c2[2].r))
  {
    var r := Lerp(c1[0], c2[0], t1);
    var g := Lerp(c1[1], c2[1], t2);
    var b := Lerp(c1[2], c2[2], t3);
    LerpRoundBetween(c1[0].r, c2[0].r, t1);
    LerpRoundBetween(c1[1].r, c2[1].r, t2);
    LerpRoundBetween(c1[2].r, c2[2].r, t3);
    assert ByteChannel(r) && ByteChannel(g) && ByteChannel(b);
    HexColorShape(r, g, b);
  }

  /** The opaque-colour quirk again: the first channel of `#rrggbb` is NaN and
      the others are missing, so interpolating between two opaque colours gives
      "#NaNNaNNaN" whatever the factors. */
  lemma RandomBetweenOpaque(hex1: string, hex2: string, t1: real, t2: real, t3: real)
    requires Piece(hex1) && (|hex1| > 0 ==> hex1[|hex1| - 1] != ')')
    requires Piece(hex2) && (|hex2| > 0 ==> hex2[|hex2| - 1] != ')')
    ensures RandomColorHexBetween("#" + hex1, "#" + hex2, t1, t2, t3) == "#NaNNaNNaN"
  {
    ParseOpaqueIsNaN(hex1);
    ParseOpaqueIsNaN(hex2);
    var c1, c2 := ParseColor("#" + hex1), ParseColor("#" + hex2);
    assert RandomColorHexBetween("#" + hex1, "#" + hex2, t1, t2, t3) == InterpolateHex(c1, c2, t1, t2, t3);
    assert c1 == c2 == [NaN];
    InterpolateNaN(t1, t2, t3);
  }

  lemma InterpolateNaN(t1: real, t2: real, t3: real)
    ensures InterpolateHex([NaN], [NaN], t1, t2, t3) == "#NaNNaNNaN"
  {
    assert At([NaN], 1) == At([NaN], 2) == NaN;
  }

  // ---------------------------------------------------------------------------
  // isDark and colorDistance

  /** `isDark(ctx, color)`: brightness (299r + 587g + 114b) / 1000 below 128; a
      NaN or missing channel makes the comparison false. */
  function IsDark(s: string): bool
  {
    var c := ColorToRgb(s);
    var r, g, b := At(c, 0), At(c, 1), At(c, 2);
    r.Val? && g.Val? && b.Val? && (r.r * 299.0 + g.r * 587.0 + b.r * 114.0) / 1000.0 < 128.0
  }

  /** A colour is dark exactly when its three channels are numbers with
      299r + 587g + 114b < 128000. */
  lemma IsDarkIff(s: string)
    ensures var c := ColorToRgb(s);
      IsDark(s) <==> |c| == 3 && c[0].Val? && c[1].Val? && c[2].Val?
                     && 299.0 * c[0].r + 587.0 * c[1].r + 114.0 * c[2].r < 128000.0
  {
    var c := ColorToRgb(s);
    assert |c| <= 3;
  }

  /** Black is dark and white is not. */
  lemma BlackDarkWhiteNot()
    ensures IsDark(RgbString(0, 0, 0))
    ensures !IsDark(RgbString(255, 255, 255))
  {
    ParseRgb(0, 0, 0);
    ParseRgb(255, 255, 255);
  }

  /** `colorDistance` without the final `Math.sqrt`: the squared distance of the
      first three channels (NaN when one is NaN or missing). */
  function ColorDistanceSquared(s1: string, s2: string): Num
  {
    SquaredDistance(ColorToRgb(s1), ColorToRgb(s2))
  }

  /** `(r1 - r2) ** 2 + (g1 - g2) ** 2 + (b1 - b2) ** 2` over two channel lists. */
  function SquaredDistance(c1: seq<Num>, c2: seq<Num>): Num
  {
    Add(Add(SquaredDiff(At(c1, 0), At(c2, 0)), SquaredDiff(At(c1, 1), At(c2, 1))),
        SquaredDiff(At(c1, 2), At(c2, 2)))
  }

  /** `(a - b) ** 2` */
  function SquaredDiff(a: Num, b: Num): Num
  {
    match Sub(a, b)
    case NaN => NaN
    case Val(d) => Val(Times(d, d))
  }

  /** One channel's term is symmetric, non-negative, and zero against itself. */
  lemma SquaredDiffProperties(a: Num, b: Num)
    ensures SquaredDiff(a, b) == SquaredDiff(b, a)
    ensures SquaredDiff(a, b).Val? ==> SquaredDiff(a, b).r >= 0.0
    ensures a.Val? ==> SquaredDiff(a, a) == Val(0.0)
  {
    if a.Val? && b.Val? {
      var d := a.r - b.r;
      assert b.r - a.r == -d;
      if d < 0.0 {
        MulMonotone(0.0, -d, -d);
      } else {
        MulMonotone(0.0, d, d);
      }
      assert Times(-d, -d) == Times(d, d) >= 0.0;
    }
  }

  /** The squared distance of two channel lists is symmetric, non-negative when
      defined, and zero for a list of three numbers against itself. */
  lemma SquaredDistanceProperties(c1: seq<Num>, c2: seq<Num>)
    ensures SquaredDistance(c1, c2) == SquaredDistance(c2, c1)
    ensures SquaredDistance(c1, c2).Val? ==> SquaredDistance(c1, c2).r >= 0.0
    ensures At(c1, 0).Val? && At(c1, 1).Val? && At(c1, 2).Val? ==> SquaredDistance(c1, c1) == Val(0.0)
  {
    SquaredDiffProperties(At(c1, 0), At(c2, 0));
    SquaredDiffProperties(At(c1, 1), At(c2, 1));
    SquaredDiffProperties(At(c1, 2), At(c2, 2));
  }

  /** `colorDistance` is symmetric, non-negative when defined, and zero for a
      colour with three numeric channels compared with itself. */
  lemma ColorDistanceProperties(s1: string, s2: string)
    ensures ColorDistanceSquared(s1, s2) == ColorDistanceSquared(s2, s1)
    ensures ColorDistanceSquared(s1, s2).Val? ==> ColorDistanceSquared(s1, s2).r >= 0.0
    ensures (var c := ColorToRgb(s1); At(c, 0).Val? && At(c, 1).Val? && At(c, 2).Val?) ==>
              ColorDistanceSquared(s1, s1) == Val(0.0)
  {
    var c1, c2 := ColorToRgb(s1), ColorToRgb(s2);
    assert ColorDistanceSquared(s1, s2) == SquaredDistance(c1, c2);
    assert ColorDistanceSquared(s2, s1) == SquaredDistance(c2, c1);
    assert ColorDistanceSquared(s1, s1) == SquaredDistance(c1, c1);
    SquaredDistanceProperties(c1, c2);
  }

  // ---------------------------------------------------------------------------
  // randomHex

  /** `'#' + Math.floor(rand * 0xffffff).toString(16).padStart(6, '0')` */
  function RandomHex(rand: real): string
  {
    "#" + PadStart(HexInt(Floor(rand * 16777215.0)), 6, '0')
  }

  /** For rand = Math.random() in [0, 1): `#` and six hex digits whose value is
      floor(rand * 0xffffff) <= 0xfffffe, so `#ffffff` never comes out. */
  lemma RandomHexShape(rand: real)
    requires 0.0 <= rand < 1.0
    ensures var h := RandomHex(rand);
      && |h| == 7 && h[0] == '#' && AllHexDigits(h[1..])
      && HexValue(h[1..]) == Floor(rand * 16777215.0) <= 0xfffffe
      && h != "#ffffff"
  {
    var n := Floor(rand * 16777215.0);
    assert 0.0 <= rand * 16777215.0 < 16777215.0;
    assert Pow16(6) == 16777216 by {
      assert Pow16(2) == 256;
      assert Pow16(4) == 65536;
    }
    var digits := PadStart(HexNat(n), 6, '0');
    PaddedHex(n, 6);
    var h := RandomHex(rand);
    assert h == "#" + digits;
    assert h[1..] == digits;
    AllFsValue(6);
    assert "ffffff" == seq(6, _ => 'f');
    assert "#ffffff"[1..] == "ffffff";
  }

  /** k digits `f` are worth 16^k - 1. */
  lemma {:induction false} AllFsValue(k: nat)
    ensures AllHexDigits(seq(k, _ => 'f'))
    ensures HexValue(seq(k, _ => 'f')) == Pow16(k) - 1
  {
    if k > 0 {
      AllFsValue(k - 1);
      assert seq(k, _ => 'f')[..k - 1] == seq(k - 1, _ => 'f');
    }
  }

  /** Every colour from #000000 to #fffffe comes out for some rand in [0, 1). */
  lemma RandomHexReaches(n: nat)
    requires n <= 0xfffffe
    ensures var rand := n as real / 16777215.0;
      0.0 <= rand < 1.0 && HexValue(RandomHex(rand)[1..]) == n
  {
    var rand := n as real / 16777215.0;
    assert rand * 16777215.0 == n as real;
    RandomHexShape(rand);
  }
}
