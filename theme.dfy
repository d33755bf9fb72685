/**
 * The colour helpers of src/lib/theme.ts: `normalizeHexColor`, `hexToRgba`
 * and the `parseInt(_, 16)` they rely on.
 */
module HexColor {
  import opened Wrappers
  import opened Text

  predicate IsHexDigit(c: char) { IsDigit(c) || 'a' <= c <= 'f' || 'A' <= c <= 'F' }

  function HexDigitValue(c: char): (v: nat)
    requires IsHexDigit(c)
    ensures v < 16
  {
    if IsDigit(c) then c as int - '0' as int
    else if 'a' <= c <= 'f' then c as int - 'a' as int + 10
    else c as int - 'A' as int + 10
  }

  /** `normalizeHexColor`: the trimmed colour, with a 4-character `#rgb` spelt out as `#rrggbb`. */
  function NormalizeHexColor(color: string): string {
    if IsShortHex(Trim(color)) then Expand(Trim(color)) else Trim(color)
  }

  /** The `#rgb` form: `#` and three more characters. */
  predicate IsShortHex(t: string) {
    |t| == 4 && t[0] == '#'
  }

  /** `#rgb` spelt out as `#rrggbb`. */
  function Expand(t: string): string
    requires |t| == 4
  {
    ['#', t[1], t[1], t[2], t[2], t[3], t[3]]
  }

  /** The short form has each of its three digits doubled; everything else is only trimmed. */
  lemma NormalizeHexColorSpec(color: string)
    ensures var t, n := Trim(color), NormalizeHexColor(color);
      && (|t| == 4 && t[0] == '#' ==>
            |n| == 7 && n[0] == '#'
            && n[1] == n[2] == t[1] && n[3] == n[4] == t[2] && n[5] == n[6] == t[3])
      && (!(|t| == 4 && t[0] == '#') ==> n == t)
      && (n == [] || (!IsSpace(n[0]) && !IsSpace(n[|n| - 1])))
  {
  }

  /** Normalising a normalised colour changes nothing. */
  lemma NormalizeHexColorIdempotent(color: string)
    ensures NormalizeHexColor(NormalizeHexColor(color)) == NormalizeHexColor(color)
  {
    var t := Trim(color);
    var n := NormalizeHexColor(color);
    NormalizeHexColorSpec(color);
    TrimUnchanged(n);
  }

  /** A seven-character `#` colour with no blank at its ends is already normalised. */
  lemma NormalizedLiteral(c: string)
    requires |c| == 7 && c[0] == '#' && !IsSpace(c[6])
    ensures NormalizeHexColor(c) == c
  {
    assert !IsSpace(c[0]);
    assert TrimStart(c) == c;
    assert TrimEnd(c) == c;
    assert !IsShortHex(Trim(c));
  }

  /** The number of hexadecimal digits at the start of `s`. */
  function HexRun(s: string): (n: nat)
    ensures n <= |s|
    ensures forall i :: 0 <= i < n ==> IsHexDigit(s[i])
    ensures n < |s| ==> !IsHexDigit(s[n])
  {
    if s != [] && IsHexDigit(s[0]) then 1 + HexRun(s[1..]) else 0
  }

  /** The value of a run of hexadecimal digits. */
  function HexValue(s: string): nat
    requires forall i :: 0 <= i < |s| ==> IsHexDigit(s[i])
  {
    if s == [] then 0 else 16 * HexValue(s[..|s| - 1]) + HexDigitValue(s[|s| - 1])
  }

  /**
   * `parseInt(s, 16)`: leading white space, an optional sign and an optional
   * `0x` are skipped, then the longest run of hexadecimal digits is read.
   * `None` is `NaN`, the result when there is no digit.
   */
  function ParseHex(s: string): Option<int> {
    var t := TrimStart(s);
    var negative := t != [] && t[0] == '-';
    var u := if t != [] && (t[0] == '-' || t[0] == '+') then t[1..] else t;
    var v := if |u| >= 2 && u[0] == '0' && (u[1] == 'x' || u[1] == 'X') then u[2..] else u;
    match HexPrefixValue(v)
    case None => None
    case Some(x) => var value: int := x; if negative then Some(-value) else Some(value)
  }

  /** The value of the hexadecimal digits at the start of `s`, or `None` when there are none. */
  function HexPrefixValue(s: string): Option<nat> {
    var n := HexRun(s);
    if n == 0 then None
    else
      assert forall i :: 0 <= i < n ==> s[..n][i] == s[i];
      Some(HexValue(s[..n]))
  }

  /** How a template literal prints the result of `parseInt`. */
  function NumberText(x: Option<int>): string {
    match x
    case None => "NaN"
    case Some(v) => if v < 0 then "-" + NatToString(-v) else NatToString(v)
  }

  /** A `#` followed by six characters, the only form `hexToRgba` converts. */
  predicate IsLongHex(s: string) {
    |s| == 7 && s[0] == '#'
  }

  /** `#rrggbb` with six hexadecimal digits. */
  predicate IsSixDigitHex(s: string) {
    && IsLongHex(s)
    && IsHexDigit(s[1]) && IsHexDigit(s[2]) && IsHexDigit(s[3])
    && IsHexDigit(s[4]) && IsHexDigit(s[5]) && IsHexDigit(s[6])
  }

  /** `hexToRgba(color, alpha)`, with `alpha` as printed. */
  function HexToRgba(color: string, alpha: string): string {
    var n := NormalizeHexColor(color);
    if !IsLongHex(n) then color
    else RgbaText(NumberText(ParseHex(n[1..3])), NumberText(ParseHex(n[3..5])), NumberText(ParseHex(n[5..7])), alpha)
  }

  /** The template `rgba(${r}, ${g}, ${b}, ${alpha})`. */
  function RgbaText(r: string, g: string, b: string, alpha: string): string {
    "rgba(" + r + ", " + g + ", " + b + ", " + alpha + ")"
  }

  /** Two hexadecimal digits are read as the byte they spell. */
  lemma ParseHexByte(s: string)
    requires |s| == 2 && IsHexDigit(s[0]) && IsHexDigit(s[1])
    ensures ParseHex(s) == Some(16 * HexDigitValue(s[0]) + HexDigitValue(s[1]))
    ensures 0 <= 16 * HexDigitValue(s[0]) + HexDigitValue(s[1]) <= 255
  {
    assert TrimStart(s) == s;
    assert s[1..] == [s[1]];
    assert HexRun(s) == 2;
    assert s[..2] == s && s[..1] == [s[0]];
    assert [s[0]][..0] == [];
    assert HexValue([s[0]]) == HexDigitValue(s[0]);
    assert HexValue(s) == 16 * HexValue([s[0]]) + HexDigitValue(s[1]);
    assert HexPrefixValue(s) == Some(16 * HexDigitValue(s[0]) + HexDigitValue(s[1]));
  }

  /** The colour comes back unchanged exactly when its normalised form is not `#` and six more characters. */
  lemma HexToRgbaUnchanged(color: string, alpha: string)
    ensures HexToRgba(color, alpha) == color <==> !IsLongHex(NormalizeHexColor(color))
  {
    var n := NormalizeHexColor(color);
    if IsLongHex(n) {
      var k := TrimInfix(color);
      NormalizeHexColorSpec(color);
      assert Trim(color)[0] == '#';
      assert color[k] == '#';
      assert |color| > 0 && (color[0] == '#' || IsSpace(color[0]));
      assert HexToRgba(color, alpha)[0] == 'r';
    }
  }

  /** The byte spelt by the two hexadecimal digits of `n` at `i`. */
  function ByteAt(n: string, i: nat): (v: nat)
    requires i + 2 <= |n| && IsHexDigit(n[i]) && IsHexDigit(n[i + 1])
    ensures v <= 255
  {
    16 * HexDigitValue(n[i]) + HexDigitValue(n[i + 1])
  }

  /** `parseInt` reads the two digits of `n` at `i` as their byte, which prints as a plain decimal. */
  lemma Channel(n: string, i: nat)
    requires i + 2 <= |n| && IsHexDigit(n[i]) && IsHexDigit(n[i + 1])
    ensures NumberText(ParseHex(n[i..i + 2])) == NatToString(ByteAt(n, i))
  {
    var s := n[i..i + 2];
    assert s[0] == n[i] && s[1] == n[i + 1];
    ParseHexByte(s);
  }

  /** For a six-digit colour the three channels are the bytes its digit pairs spell. */
  lemma HexToRgbaChannels(color: string, alpha: string)
    requires IsSixDigitHex(NormalizeHexColor(color))
    ensures HexToRgba(color, alpha)
      == RgbaText(NatToString(ByteAt(NormalizeHexColor(color), 1)), NatToString(ByteAt(NormalizeHexColor(color), 3)),
                  NatToString(ByteAt(NormalizeHexColor(color), 5)), alpha)
  {
    var n := NormalizeHexColor(color);
    assert HexToRgba(color, alpha)
      == RgbaText(NumberText(ParseHex(n[1..3])), NumberText(ParseHex(n[3..5])), NumberText(ParseHex(n[5..7])), alpha);
    Channel(n, 1);
    Channel(n, 3);
    Channel(n, 5);
  }
}

/**
 * Wishlist themes (src/lib/theme.ts): filling in a stored theme with the
 * default palette, the `#rgb` to `#rrggbb` expansion of section 5.2 of CSS
 * Color Module Level 4, the conversion of a colour to `rgba(...)`, and the
 * CSS layers of the background pattern and of the reserved overlay.
 *
 * Numbers that are only carried into CSS (opacities, sizes) are `real`s, and
 * the alpha values written into `rgba(...)` are given as the text JavaScript
 * prints for them.
 */
module Theme {
  import opened Wrappers
  import opened Text
  import opened HexColor

  datatype DecorationKind = Blob | EmojiDecoration

  datatype Decoration = Decoration(
    kind: DecorationKind, x: string, y: string, size: real,
    opacity: Option<real>, blur: Option<real>, rotate: Option<real>,
    color: Option<string>, gradient: Option<string>, emoji: Option<string>)

  /** The overlay type; a stored value outside the three declared ones is `OtherKind`. */
  datatype OverlayKind = Fireworks | Confetti | Sparkles | OtherKind(name: string)

  /** `opacity` is `None` when the stored value is not a number. */
  datatype Overlay = Overlay(kind: OverlayKind, opacity: Option<real>, colors: Option<seq<string>>, icon: Option<string>)

  /** An empty field stands for a missing or empty one: the source treats both alike. */
  datatype Palette = Palette(pageBg: string, titleGradient: string, cardBg: string, border: string, accent: string)

  datatype ThemeConfig = ThemeConfig(
    key: string, caption: Option<string>, palette: Palette,
    decorations: Option<seq<Decoration>>, overlay: Option<Overlay>)

  /** A CSS background layer set with its opacity. */
  datatype Style = Style(backgroundImage: string, backgroundSize: string, backgroundPosition: string, opacity: real)

  const DefaultPalette: Palette := Palette(
    "linear-gradient(135deg, #eff6ff 0%, #f5f3ff 45%, #fdf2f8 100%)",
    "linear-gradient(90deg, #2563eb, #7c3aed)",
    "#ffffff",
    "#dbeafe",
    "#7c3aed")

  /** `DEFAULT_THEME`. */
  const DefaultTheme: ThemeConfig := ThemeConfig("default", None, DefaultPalette, Some([]), None)

  /** `resolveTheme`: every empty field is taken from the default theme. */
  function ResolveTheme(theme: Option<ThemeConfig>): ThemeConfig {
    match theme
    case None => DefaultTheme
    case Some(t) =>
      ThemeConfig(
        Or(t.key, DefaultTheme.key),
        t.caption,
        Palette(
          Or(t.palette.pageBg, DefaultPalette.pageBg),
          Or(t.palette.titleGradient, DefaultPalette.titleGradient),
          Or(t.palette.cardBg, DefaultPalette.cardBg),
          Or(t.palette.border, DefaultPalette.border),
          Or(t.palette.accent, DefaultPalette.accent)),
        if t.decorations.None? then Some([]) else t.decorations,
        t.overlay)
  }

  /** A theme with nothing left to fill in. */
  predicate Complete(t: ThemeConfig) {
    && t.key != ""
    && t.palette.pageBg != "" && t.palette.titleGradient != "" && t.palette.cardBg != ""
    && t.palette.border != "" && t.palette.accent != ""
    && t.decorations.Some?
  }

  /** Without a theme the default is used; otherwise each field keeps its value unless it is empty. */
  lemma ResolveThemeSpec(theme: Option<ThemeConfig>)
    ensures theme.None? ==> ResolveTheme(theme) == DefaultTheme
    ensures theme.Some? ==>
      var t, r := theme.value, ResolveTheme(theme);
      && (r.key == if t.key == "" then "default" else t.key)
      && (r.palette.pageBg == if t.palette.pageBg == "" then DefaultPalette.pageBg else t.palette.pageBg)
      && (r.palette.titleGradient == if t.palette.titleGradient == "" then DefaultPalette.titleGradient else t.palette.titleGradient)
      && (r.palette.cardBg == if t.palette.cardBg == "" then DefaultPalette.cardBg else t.palette.cardBg)
      && (r.palette.border == if t.palette.border == "" then DefaultPalette.border else t.palette.border)
      && (r.palette.accent == if t.palette.accent == "" then DefaultPalette.accent else t.palette.accent)
      && (r.decorations == if t.decorations.None? then Some([]) else t.decorations)
      && r.caption == t.caption && r.overlay == t.overlay
  {
  }

  /** A resolved theme is complete, and a complete theme is resolved to itself. */
  lemma ResolveThemeComplete(theme: Option<ThemeConfig>, t: ThemeConfig)
    ensures Complete(ResolveTheme(theme))
    ensures Complete(t) ==> ResolveTheme(Some(t)) == t
  {
  }

  /** Resolving twice is resolving once. */
  lemma ResolveThemeIdempotent(theme: Option<ThemeConfig>)
    ensures ResolveTheme(Some(ResolveTheme(theme))) == ResolveTheme(theme)
  {
    ResolveThemeComplete(theme, ResolveTheme(theme));
  }

  /** `getThemePatternStyle`. */
  function PatternStyle(theme: ThemeConfig): Style {
    var accent := HexToRgba(theme.palette.accent, "0.14");
    var border := HexToRgba(theme.palette.border, "0.12");
    Style(
      "linear-gradient(135deg, " + accent + " 0 25%, transparent 25% 50%, " + accent + " 50% 75%, transparent 75% 100%),"
      + "linear-gradient(45deg, " + border + " 0 25%, transparent 25% 50%, " + border + " 50% 75%, transparent 75% 100%)",
      "140px 140px, 160px 160px",
      "0 0, 20px 20px",
      0.18)
  }

  /** The pattern always has opacity 0.18 and depends on the accent and border colours only. */
  lemma PatternStyleSpec(a: ThemeConfig, b: ThemeConfig)
    ensures PatternStyle(a).opacity == 0.18
    ensures PatternStyle(a).backgroundSize == "140px 140px, 160px 160px"
    ensures a.palette.accent == b.palette.accent && a.palette.border == b.palette.border ==>
      PatternStyle(a) == PatternStyle(b)
  {
  }

  /** `colors[i] || fallback`: a missing or empty entry gives the fallback. */
  function ColorAt(colors: seq<string>, i: nat, fallback: string): string {
    if i < |colors| && colors[i] != "" then colors[i] else fallback
  }

  /** The overlay's colours, or the accent and three light tints when it has none, each normalised. */
  function OverlayColors(accent: string, overlay: Overlay): (r: seq<string>)
    ensures |r| >= 1
  {
    var given := if overlay.colors.Some? && |overlay.colors.value| > 0 then overlay.colors.value
                 else [accent, "#ffffff", "#fef3c7", "#bae6fd"];
    seq(|given|, i requires 0 <= i < |given| => NormalizeHexColor(given[i]))
  }

  function RadialLayer(at: string, color: string, alpha: string): string {
    "radial-gradient(circle at " + at + ", " + HexToRgba(color, alpha) + " 0 2px, transparent 3px)"
  }

  function StripeLayer(angle: string, color: string, alpha: string, stop: string, next: string): string {
    "linear-gradient(" + angle + ", " + HexToRgba(color, alpha) + " 0 " + stop + ", transparent " + next + " 100%)"
  }

  function ConfettiStyle(colors: seq<string>, opacity: real): Style {
    Style(
      StripeLayer("135deg", ColorAt(colors, 0, "#ec4899"), "0.5", "12%", "13%") + ","
      + StripeLayer("45deg", ColorAt(colors, 1, "#22c55e"), "0.5", "10%", "11%") + ","
      + StripeLayer("90deg", ColorAt(colors, 2, "#3b82f6"), "0.45", "8%", "9%"),
      "60px 60px, 70px 70px, 80px 80px",
      "0 0, 20px 10px, 10px 30px",
      opacity)
  }

  function SparklesStyle(colors: seq<string>, opacity: real): Style {
    Style(
      RadialLayer("20% 30%", ColorAt(colors, 0, "#ffffff"), "0.85") + ","
      + RadialLayer("80% 20%", ColorAt(colors, 1, "#ffffff"), "0.75") + ","
      + RadialLayer("60% 70%", ColorAt(colors, 2, "#ffffff"), "0.65") + ","
      + RadialLayer("30% 80%", ColorAt(colors, 3, "#ffffff"), "0.7"),
      "160px 160px, 140px 140px, 180px 180px, 200px 200px",
      "0 0, 40px 20px, 20px 60px, 60px 30px",
      opacity)
  }

  function FireworksStyle(colors: seq<string>, opacity: real): Style {
    Style(
      RadialLayer("20% 30%", ColorAt(colors, 0, "#ffffff"), "0.85") + ","
      + RadialLayer("80% 20%", ColorAt(colors, 1, "#ffffff"), "0.8") + ","
      + RadialLayer("50% 60%", ColorAt(colors, 2, "#ffffff"), "0.75") + ","
      + RadialLayer("70% 80%", ColorAt(colors, 3, "#ffffff"), "0.7") + ","
      + RadialLayer("30% 75%", ColorAt(colors, 4, ColorAt(colors, 0, "#ffffff")), "0.65"),
      "180px 180px, 200px 200px, 160px 160px, 220px 220px, 190px 190px",
      "0 0, 40px 10px, 20px 60px, 60px 30px, 10px 80px",
      opacity)
  }

  /** `getReservedOverlayStyle`. */
  function ReservedOverlayStyle(theme: ThemeConfig): Option<Style> {
    match theme.overlay
    case None => None
    case Some(overlay) =>
      var opacity := if overlay.opacity.Some? then overlay.opacity.value else 0.28;
      var colors := OverlayColors(theme.palette.accent, overlay);
      match overlay.kind
      case Confetti => Some(ConfettiStyle(colors, opacity))
      case Sparkles => Some(SparklesStyle(colors, opacity))
      case _ => Some(FireworksStyle(colors, opacity))
  }

  /** There is an overlay style exactly when the theme has an overlay, and its opacity defaults to 0.28. */
  lemma ReservedOverlayStyleSpec(theme: ThemeConfig)
    ensures ReservedOverlayStyle(theme).Some? <==> theme.overlay.Some?
    ensures theme.overlay.Some? ==>
      ReservedOverlayStyle(theme).value.opacity
        == if theme.overlay.value.opacity.Some? then theme.overlay.value.opacity.value else 0.28
  {
  }

  /** Without colours of its own the overlay uses the normalised accent and three light tints. */
  lemma OverlayFallbackColors(accent: string, overlay: Overlay)
    requires overlay.colors.None? || overlay.colors.value == []
    ensures var r := OverlayColors(accent, overlay);
      |r| == 4 && r[0] == NormalizeHexColor(accent) && r[1] == "#ffffff" && r[2] == "#fef3c7" && r[3] == "#bae6fd"
  {
    var r := OverlayColors(accent, overlay);
    assert r[1] == NormalizeHexColor("#ffffff") && r[2] == NormalizeHexColor("#fef3c7") && r[3] == NormalizeHexColor("#bae6fd");
    TintsNormalized();
  }

  lemma TintsNormalized()
    ensures NormalizeHexColor("#ffffff") == "#ffffff"
    ensures NormalizeHexColor("#fef3c7") == "#fef3c7"
    ensures NormalizeHexColor("#bae6fd") == "#bae6fd"
  {
    NormalizedLiteral("#ffffff");
    NormalizedLiteral("#fef3c7");
    NormalizedLiteral("#bae6fd");
  }

  /** Colours of its own are used in their order, each normalised. */
  lemma OverlayOwnColors(accent: string, overlay: Overlay)
    requires overlay.colors.Some? && overlay.colors.value != []
    ensures var given, r := overlay.colors.value, OverlayColors(accent, overlay);
      |r| == |given| && forall i :: 0 <= i < |given| ==> r[i] == NormalizeHexColor(given[i])
  {
  }

  /** A missing or empty colour slot falls back to its default. */
  lemma ColorAtSpec(colors: seq<string>, i: nat, fallback: string)
    ensures i >= |colors| ==> ColorAt(colors, i, fallback) == fallback
    ensures i < |colors| ==> ColorAt(colors, i, fallback) == Or(colors[i], fallback)
  {
  }

  /** An overlay type other than confetti and sparkles is drawn as fireworks. */
  lemma OtherKindIsFireworks(theme: ThemeConfig, overlay: Overlay, name: string)
    requires theme.overlay == Some(overlay) && overlay.kind == OtherKind(name)
    ensures ReservedOverlayStyle(theme)
      == ReservedOverlayStyle(theme.(overlay := Some(overlay.(kind := Fireworks))))
  {
  }
}
