/**
 * The font helpers of src/helpers/fontHelper.ts: the weight → Rubik family
 * mapping, `createTextStyle`, and the `fontStyles` table.
 *
 * A style is a map from property names to values. Sizes are whole numbers, as
 * every entry of the table is.
 */
module FontHelper {
  import opened Common

  /** A `fontWeight`: a keyword or digit string such as `'bold'` or `'700'`, or a number. */
  datatype FontWeight = WeightKeyword(keyword: string) | WeightNumber(number: int)

  const Bold := "Rubik-Bold"
  const SemiBold := "Rubik-SemiBold"
  const Medium := "Rubik-Medium"
  const Regular := "Rubik-Regular"

  predicate IsBoldWeight(w: Option<FontWeight>) {
    w.Some? && w.value.WeightKeyword? && w.value.keyword in {"bold", "700", "800", "900"}
  }

  /**
   * `getFontFamily(weight)`. The `switch` compares by identity with string
   * cases, so a numeric weight, like an absent one, selects the regular face.
   */
  function FontFamily(w: Option<FontWeight>): (family: string)
    ensures family in {Bold, SemiBold, Medium, Regular}
    ensures family == Bold <==> IsBoldWeight(w)
    ensures family == SemiBold <==> w == Some(WeightKeyword("600"))
    ensures family == Medium <==> w == Some(WeightKeyword("500"))
  {
    if IsBoldWeight(w) then Bold
    else if w == Some(WeightKeyword("600")) then SemiBold
    else if w == Some(WeightKeyword("500")) then Medium
    else Regular
  }

  /** Weights that are not one of the six matched strings, numbers included, use the regular face. */
  lemma OtherWeightsRegular(w: Option<FontWeight>)
    requires w.None? || w.value.WeightNumber? || w.value.keyword !in {"bold", "700", "800", "900", "600", "500"}
    ensures FontFamily(w) == Regular
  {
  }

  datatype StyleValue = NumberValue(n: int) | TextValue(s: string) | WeightValue(w: FontWeight)

  type TextStyle = map<string, StyleValue>

  const DefaultWeight := WeightKeyword("400")

  /**
   * `createTextStyle(fontSize, fontWeight = '400', additionalStyles)`: size,
   * family and weight, then the additional styles spread over them.
   */
  function CreateTextStyle(fontSize: int, fontWeight: Option<FontWeight>, additionalStyles: Option<TextStyle>): (style: TextStyle)
    ensures style.Keys == {"fontSize", "fontFamily", "fontWeight"} + additionalStyles.GetOr(map[]).Keys
    ensures forall k :: k in additionalStyles.GetOr(map[]) ==> style[k] == additionalStyles.GetOr(map[])[k]
    ensures "fontSize" !in additionalStyles.GetOr(map[]) ==> style["fontSize"] == NumberValue(fontSize)
    ensures "fontWeight" !in additionalStyles.GetOr(map[]) ==> style["fontWeight"] == WeightValue(fontWeight.GetOr(DefaultWeight))
    ensures "fontFamily" !in additionalStyles.GetOr(map[]) ==>
              style["fontFamily"] == TextValue(FontFamily(Some(fontWeight.GetOr(DefaultWeight))))
  {
    var weight := fontWeight.GetOr(DefaultWeight);
    var base := map["fontSize" := NumberValue(fontSize), "fontFamily" := TextValue(FontFamily(Some(weight))),
                    "fontWeight" := WeightValue(weight)];
    base + additionalStyles.GetOr(map[])
  }

  /** Without an explicit weight the style is the `'400'` regular style. */
  lemma DefaultWeightIsRegular(fontSize: int)
    ensures CreateTextStyle(fontSize, None, None)
         == map["fontSize" := NumberValue(fontSize), "fontFamily" := TextValue(Regular),
                "fontWeight" := WeightValue(WeightKeyword("400"))]
  {
  }

  // ---------------------------------------------------------------------------
  // The `fontStyles` table

  datatype FontStyleKey =
    | H1 | H2 | H3 | H4 | H5 | H6
    | BodyLarge | BodyMedium | BodySmall
    | ButtonLarge | ButtonMedium | ButtonSmall
    | Caption | Overline
    | SudokuNumber | GameTimer | GameScore

  /** Each entry's size, weight and extra properties. */
  function FontStyleSize(key: FontStyleKey): int {
    match key
    case H1 => 32
    case H2 => 28
    case H3 => 24
    case H4 => 20
    case H5 => 18
    case H6 => 16
    case BodyLarge => 16
    case BodyMedium => 14
    case BodySmall => 12
    case ButtonLarge => 16
    case ButtonMedium => 14
    case ButtonSmall => 12
    case Caption => 12
    case Overline => 10
    case SudokuNumber => 24
    case GameTimer => 20
    case GameScore => 16
  }

  function FontStyleWeight(key: FontStyleKey): string {
    match key
    case H1 => "700"
    case H2 | H3 | H4 => "600"
    case H5 | H6 => "500"
    case BodyLarge | BodyMedium | BodySmall => "400"
    case ButtonLarge | ButtonMedium | ButtonSmall => "600"
    case Caption => "400"
    case Overline => "500"
    case SudokuNumber | GameTimer | GameScore => "600"
  }

  function FontStyleExtras(key: FontStyleKey): Option<TextStyle> {
    match key
    case Overline => Some(map["textTransform" := TextValue("uppercase")])
    case SudokuNumber => Some(map["textAlign" := TextValue("center")])
    case _ => None
  }

  /** `fontStyles[key]`. */
  function FontStyle(key: FontStyleKey): (style: TextStyle)
    ensures "fontSize" in style && "fontFamily" in style && "fontWeight" in style
  {
    CreateTextStyle(FontStyleSize(key), Some(WeightKeyword(FontStyleWeight(key))), FontStyleExtras(key))
  }

  /** No entry's extras touch size, weight or family, so each entry's family follows its weight. */
  lemma FontStyleConsistent(key: FontStyleKey)
    ensures "fontSize" in FontStyle(key) && FontStyle(key)["fontSize"] == NumberValue(FontStyleSize(key))
    ensures "fontWeight" in FontStyle(key) && FontStyle(key)["fontWeight"] == WeightValue(WeightKeyword(FontStyleWeight(key)))
    ensures "fontFamily" in FontStyle(key)
    ensures FontStyle(key)["fontFamily"] == TextValue(FontFamily(Some(WeightKeyword(FontStyleWeight(key)))))
  {
  }

  /** `h1` is 32 in bold; `overline` is 10 in medium, upper-cased. */
  lemma HeadingAndOverline()
    ensures FontStyle(H1)["fontSize"] == NumberValue(32) && FontStyle(H1)["fontFamily"] == TextValue(Bold)
    ensures FontStyle(Overline)["fontFamily"] == TextValue(Medium)
    ensures "textTransform" in FontStyle(Overline) && FontStyle(Overline)["textTransform"] == TextValue("uppercase")
  {
  }
}
