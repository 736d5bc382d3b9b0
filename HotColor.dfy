/** The severity-to-colour ramp of the pothole map (`hotColors` and
    `getHotColor`): a severity is clamped to [0, 10], scaled to a ratio in
    [0, 1], and one of five fixed colour stops is picked with
    `floor(ratio * 4)`; that stop's channels are scaled to 0..255 with
    `Math.round` and printed as `rgb(R, G, B)`. The choice is stepwise:
    there is no blending between stops. */
module HotColor {
  import opened Wrappers
  import opened Decimal

  /** A colour stop: red, green and blue intensities normalised to [0, 1]. */
  datatype Stop = Stop(r: real, g: real, b: real)

  /** A colour as the page draws it: three channels after `Math.round(c * 255)`. */
  datatype RenderColor = RenderColor(r: int, g: int, b: int)

  /** The `hotColors` table, coolest first. */
  const HotColors: seq<Stop> := [
    Stop(0.0, 0.0, 0.0),  // black
    Stop(1.0, 0.0, 0.0),  // red
    Stop(1.0, 0.5, 0.0),  // orange
    Stop(1.0, 1.0, 0.0),  // yellow
    Stop(1.0, 1.0, 1.0)   // white
  ]

  /** The upper end of the severity scale. */
  const MaxSeverity: real := 10.0

  /** What the five stops look like once drawn, written out by hand; the
      orange's 0.5 * 255 = 127.5 rounds up to 128. */
  const Palette: seq<RenderColor> := [
    RenderColor(0, 0, 0),
    RenderColor(255, 0, 0),
    RenderColor(255, 128, 0),
    RenderColor(255, 255, 0),
    RenderColor(255, 255, 255)
  ]

  /** The printed forms of the five drawn stops. */
  const PaletteTexts: seq<string> := [
    "rgb(0, 0, 0)", "rgb(255, 0, 0)", "rgb(255, 128, 0)", "rgb(255, 255, 0)", "rgb(255, 255, 255)"
  ]

  predicate IsByte(v: int) {
    0 <= v <= 255
  }

  predicate ValidColor(c: RenderColor) {
    IsByte(c.r) && IsByte(c.g) && IsByte(c.b)
  }

  predicate NormalisedStop(st: Stop) {
    0.0 <= st.r <= 1.0 && 0.0 <= st.g <= 1.0 && 0.0 <= st.b <= 1.0
  }

  /** `Math.min(Math.max(severity, 0), 10)`: out-of-range severities are
      moved to the nearer end of the scale, never rejected. */
  function Clamp(severity: real): (c: real)
    ensures 0.0 <= c <= MaxSeverity
    ensures severity <= 0.0 ==> c == 0.0
    ensures severity >= MaxSeverity ==> c == MaxSeverity
    ensures 0.0 <= severity <= MaxSeverity ==> c == severity
  {
    var atLeastZero := if severity > 0.0 then severity else 0.0;
    if atLeastZero < MaxSeverity then atLeastZero else MaxSeverity
  }

  /** The clamped severity as a fraction of the scale. */
  function Ratio(severity: real): (ratio: real)
    ensures 0.0 <= ratio <= 1.0
    ensures ratio == 1.0 <==> Clamp(severity) == MaxSeverity
  {
    Clamp(severity) / MaxSeverity
  }

  /** `Math.floor(ratio * (hotColors.length - 1))`: always a valid index of
      the table, and the last one exactly at the top of the scale. */
  function StopIndex(severity: real): (i: int)
    ensures 0 <= i < |HotColors|
    ensures i == |HotColors| - 1 <==> Clamp(severity) == MaxSeverity
  {
    (Ratio(severity) * (|HotColors| - 1) as real).Floor
  }

  /** `Math.round`: the integer nearest to `x`, halves going toward +infinity. */
  function Round(x: real): (n: int)
    ensures n as real - 0.5 <= x < n as real + 0.5
  {
    (x + 0.5).Floor
  }

  /** `Math.round(c * 255)` for one channel: a normalised intensity becomes
      an 8-bit value, with the ends of [0, 1] going to 0 and 255. */
  function Channel(c: real): (v: int)
    ensures 0.0 <= c <= 1.0 ==> IsByte(v)
    ensures c == 0.0 ==> v == 0
    ensures c == 1.0 ==> v == 255
  {
    Round(c * 255.0)
  }

  /** A stop as it is drawn. */
  function Render(st: Stop): (c: RenderColor)
    ensures NormalisedStop(st) ==> ValidColor(c)
  {
    RenderColor(Channel(st.r), Channel(st.g), Channel(st.b))
  }

  /** The colour `getHotColor` draws for a severity, before it is printed:
      always one of the five drawn stops and always 8-bit. */
  function HotColorRgb(severity: real): (c: RenderColor)
    ensures ValidColor(c)
    ensures c in Palette
  {
    PaletteIsRendered(StopIndex(severity));
    Render(HotColors[StopIndex(severity)])
  }

  /** A character of the text between the parentheses of `rgb(R, G, B)`. */
  predicate IsRgbBodyChar(ch: char) {
    IsDigit(ch) || ch == ',' || ch == ' '
  }

  /** The CSS text `rgb(R, G, B)` of a colour with non-negative channels: it
      opens with `rgb(`, closes with `)`, and holds only digits, commas and
      spaces in between (`RgbStringRoundTrip` reads the channels back). */
  function RgbString(c: RenderColor): (s: string)
    requires c.r >= 0 && c.g >= 0 && c.b >= 0
    ensures |s| >= 12 && s[..4] == "rgb(" && s[|s| - 1] == ')'
    ensures forall i :: 4 <= i < |s| - 1 ==> IsRgbBodyChar(s[i])
  {
    "rgb(" + Numeral(c.r) + ", " + Numeral(c.g) + ", " + Numeral(c.b) + ")"
  }

  /** `getHotColor`: the printed colour for a severity, which is the text of
      the stop of the severity's band and reads back as the drawn colour. */
  function GetHotColor(severity: real): (text: string)
    ensures text == PaletteTexts[Band(Clamp(severity))]
    ensures ParseRgb(text) == Some(HotColorRgb(severity))
  {
    var c := HotColorRgb(severity);
    HotColorIsBandColour(severity);
    PaletteTextsArePrinted(Band(Clamp(severity)));
    RgbStringRoundTrip(c);
    RgbString(c)
  }

  /** Reads `rgb(R, G, B)` back into its three channels. */
  function ParseRgb(s: string): Option<RenderColor> {
    var s1 :- Expect("rgb(", s);
    var red :- ParseField(s1, ", ");
    var green :- ParseField(red.1, ", ");
    var blue :- ParseField(green.1, ")");
    if blue.1 == [] then Some(RenderColor(red.0, green.0, blue.0)) else None
  }

  /** Reads a number and the separator after it. */
  function ParseField(s: string, sep: string): Option<(nat, string)> {
    var field :- ParseNat(s);
    var rest :- Expect(sep, field.1);
    Some((field.0, rest))
  }

  lemma ParseFieldNumeral(n: nat, sep: string, rest: string)
    requires sep != [] && !IsDigit(sep[0])
    ensures ParseField(Numeral(n) + (sep + rest), sep) == Some((n, rest))
  {
    ParseNumeral(n, sep + rest);
    ExpectLiteral(sep, rest);
  }

  /** Printing loses nothing: the text reads back as the colour it came from,
      so two colours print alike only when they are equal. */
  lemma RgbStringRoundTrip(c: RenderColor)
    requires c.r >= 0 && c.g >= 0 && c.b >= 0
    ensures ParseRgb(RgbString(c)) == Some(c)
  {
    var tail3: string := [];
    var tail2 := Numeral(c.b) + (")" + tail3);
    var tail1 := Numeral(c.g) + (", " + tail2);
    var body := Numeral(c.r) + (", " + tail1);
    assert RgbString(c) == "rgb(" + body;
    ExpectLiteral("rgb(", body);
    ParseFieldNumeral(c.r, ", ", tail1);
    ParseFieldNumeral(c.g, ", ", tail2);
    ParseFieldNumeral(c.b, ")", tail3);
  }

  /** Drawing the table gives exactly the hand-written palette. */
  lemma PaletteIsRendered(i: int)
    requires 0 <= i < |HotColors|
    ensures Render(HotColors[i]) == Palette[i]
  {
    assert Round(127.5) == 128;
  }

  /** Reference definition of the ramp's bands on the clamped severity:
      [0, 2.5) black, [2.5, 5) red, [5, 7.5) orange, [7.5, 10) yellow,
      and 10 alone white. */
  function Band(c: real): nat {
    if c < 2.5 then 0
    else if c < 5.0 then 1
    else if c < 7.5 then 2
    else if c < MaxSeverity then 3
    else 4
  }

  /** The floor-of-ratio index picks exactly the band the severity falls in. */
  lemma StopIndexIsBand(severity: real)
    ensures StopIndex(severity) == Band(Clamp(severity))
  {
    var c := Clamp(severity);
    var x := Ratio(severity) * 4.0;
    assert x == c * 0.4;
  }

  /** The drawn colour is the palette entry of the severity's band. */
  lemma HotColorIsBandColour(severity: real)
    ensures HotColorRgb(severity) == Palette[Band(Clamp(severity))]
  {
    StopIndexIsBand(severity);
    PaletteIsRendered(StopIndex(severity));
  }

  /** Any severity at or below 0 is drawn like 0. */
  lemma ClampBelow(severity: real)
    requires severity <= 0.0
    ensures GetHotColor(severity) == GetHotColor(0.0)
  {
    assert StopIndex(severity) == StopIndex(0.0);
    assert HotColorRgb(severity) == HotColorRgb(0.0);
  }

  /** Any severity at or above 10 is drawn like 10. */
  lemma ClampAbove(severity: real)
    requires severity >= MaxSeverity
    ensures GetHotColor(severity) == GetHotColor(MaxSeverity)
  {
    assert StopIndex(severity) == StopIndex(MaxSeverity);
    assert HotColorRgb(severity) == HotColorRgb(MaxSeverity);
  }

  /** A higher severity never picks a cooler stop. */
  lemma StopIndexMonotone(s1: real, s2: real)
    requires s1 <= s2
    ensures StopIndex(s1) <= StopIndex(s2)
  {
    StopIndexIsBand(s1);
    StopIndexIsBand(s2);
  }

  /** A higher severity never lowers any channel: the ramp only gets hotter. */
  lemma HotterIsBrighter(s1: real, s2: real)
    requires s1 <= s2
    ensures HotColorRgb(s1).r <= HotColorRgb(s2).r
    ensures HotColorRgb(s1).g <= HotColorRgb(s2).g
    ensures HotColorRgb(s1).b <= HotColorRgb(s2).b
  {
    HotColorIsBandColour(s1);
    HotColorIsBandColour(s2);
  }

  /** The numerals that occur in the palette. */
  lemma PaletteNumerals()
    ensures Numeral(0) == "0" && Numeral(128) == "128" && Numeral(255) == "255"
  {
    assert Numeral(12) == "12";
    assert Numeral(25) == "25";
  }

  /** Each drawn stop prints as its entry of `PaletteTexts`. */
  lemma PaletteTextsArePrinted(i: int)
    requires 0 <= i < |Palette|
    ensures RgbString(Palette[i]) == PaletteTexts[i]
  {
    PaletteNumerals();
    if i == 0 {
      assert RgbString(Palette[0]) == "rgb(0, 0, 0)";
    } else if i == 1 {
      assert RgbString(Palette[1]) == "rgb(255, 0, 0)";
    } else if i == 2 {
      assert RgbString(Palette[2]) == "rgb(255, 128, 0)";
    } else if i == 3 {
      assert RgbString(Palette[3]) == "rgb(255, 255, 0)";
    } else {
      assert RgbString(Palette[4]) == "rgb(255, 255, 255)";
    }
  }

  /** Stepwise selection: whatever the severity, the printed colour is one
      of the five stops' texts, never a blend. */
  lemma GetHotColorIsStop(severity: real)
    ensures GetHotColor(severity) in PaletteTexts
  {
    assert GetHotColor(severity) == PaletteTexts[Band(Clamp(severity))];
  }

  /** The worked examples of the ramp. */
  lemma Examples()
    ensures GetHotColor(0.0) == "rgb(0, 0, 0)"
    ensures GetHotColor(2.0) == "rgb(0, 0, 0)"
    ensures GetHotColor(2.5) == "rgb(255, 0, 0)"
    ensures GetHotColor(5.0) == "rgb(255, 128, 0)"
    ensures GetHotColor(9.0) == "rgb(255, 255, 0)"
    ensures GetHotColor(10.0) == "rgb(255, 255, 255)"
  {
    assert GetHotColor(0.0) == PaletteTexts[0] && GetHotColor(2.0) == PaletteTexts[0];
    assert GetHotColor(2.5) == PaletteTexts[1] && GetHotColor(5.0) == PaletteTexts[2];
    assert GetHotColor(9.0) == PaletteTexts[3] && GetHotColor(10.0) == PaletteTexts[4];
  }
}
