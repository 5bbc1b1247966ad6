/** The style registry of `build_styles`: four fixed paragraph styles. Font metrics
    and colours are kept as plain values; ReportLab's style objects are not modelled. */
module Styles {

  datatype Style = Base | Title | Price | Italic

  datatype Alignment = Left | Center

  /** An RGB colour with components in [0, 1]. */
  datatype Colour = Colour(red: real, green: real, blue: real)

  const BLACK: Colour := Colour(0.0, 0.0, 0.0)
  /** The brand red, reserved for the price callout. */
  const LARINI_RED: Colour := Colour(193.0 / 255.0, 18.0 / 255.0, 31.0 / 255.0)

  datatype Typography = Typography(
    fontName: string,
    fontSize: real,
    leading: real,
    spaceBefore: real,
    spaceAfter: real,
    alignment: Alignment,
    textColour: Colour)

  /** What each style sets, with what it inherits from the sample sheet's "Normal"
      style filled in (left aligned, black, no space before). */
  function Typo(s: Style): Typography {
    match s
    case Base => Typography("Helvetica", 11.0, 14.0, 0.0, 6.0, Left, BLACK)
    case Title => Typography("Helvetica-Bold", 11.0, 14.0, 8.0, 6.0, Left, BLACK)
    case Price => Typography("Helvetica-Bold", 24.0, 28.0, 8.0, 8.0, Center, LARINI_RED)
    case Italic => Typography("Helvetica-Oblique", 11.0, 14.0, 2.0, 8.0, Center, BLACK)
  }

  /** The accent colour is used by the price callout and by no other style; every
      style's line leading is larger than its font size. */
  lemma AccentOnlyForPrice(s: Style)
    ensures Typo(s).textColour == LARINI_RED <==> s == Price
    ensures Typo(s).textColour != LARINI_RED ==> Typo(s).textColour == BLACK
    ensures Typo(s).leading > Typo(s).fontSize
    ensures Typo(s).alignment == Center <==> s == Price || s == Italic
  {
  }
}
