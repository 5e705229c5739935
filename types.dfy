/**
 * The configurator's data model: the fixed cover dimensions, the
 * enumerations the control panel offers, the Colorplan swatch table and the
 * default settings (src/types.ts).
 *
 * Lengths are millimetres, held as `real`.
 */
module Types {
  /** Physical cover dimensions in millimetres, from the CAD drawing. */
  datatype CoverDimensions = CoverDimensions(
    frontWidth: real,
    frontHeight: real,
    backWidth: real,
    backHeight: real,
    flapHeight: real,
    flapWidth: real,
    beltWidth: real,
    beltHeight: real,
    slotWidth: real,
    spineDepth: real)

  const CoverDims := CoverDimensions(
    frontWidth := 160.0,
    frontHeight := 220.0,
    backWidth := 160.0,
    backHeight := 220.0,
    flapHeight := 60.0,
    flapWidth := 80.0,
    beltWidth := 50.0,
    beltHeight := 30.0,
    slotWidth := 20.0,
    spineDepth := 15.0)

  /**
   * The fold state. `Unrecognised` stands for a string outside the union
   * that the unchecked cast would let through: its `name` is never
   * "closed", "open" or "flat", which are the other three constructors.
   */
  datatype ViewMode = Closed | Open | Flat | Unrecognised(name: string)

  /**
   * The foil finish. `UnknownFoil` stands for a string outside the union:
   * its `name` is never one of the seven finish names, which are the other
   * constructors.
   */
  datatype FoilType = NoFoil | Gloss | Matte | Silver | Gold | Copper | Holographic | UnknownFoil(name: string)

  datatype TextCase = NoCase | Uppercase | Lowercase | Capitalize

  datatype Alignment = Left | Center | Right

  /** The 27 G. F. Smith Colorplan swatches. */
  datatype PaperColor =
    | White | PristineWhite | BrightWhite | Natural | Smoke | PaleGrey | CoolGrey
    | DarkGrey | Ebony | FactoryYellow | Citrine | Mandarin | Rust | Vermilion
    | Scarlet | CandyPink | FuchsiaPink | Purple | Lavender | AzureBlue | Turquoise
    | MarrsGreen | RacingGreen | Forest | MidGreen | SorbetYellow | TabrizBlue

  /** The swatch names in declaration order, as the control panel lists them. */
  const PaperColorOptions: seq<PaperColor> := [
    White, PristineWhite, BrightWhite, Natural, Smoke, PaleGrey, CoolGrey,
    DarkGrey, Ebony, FactoryYellow, Citrine, Mandarin, Rust, Vermilion,
    Scarlet, CandyPink, FuchsiaPink, Purple, Lavender, AzureBlue, Turquoise,
    MarrsGreen, RacingGreen, Forest, MidGreen, SorbetYellow, TabrizBlue]

  predicate IsLowerHexDigit(c: char)
  {
    '0' <= c <= '9' || 'a' <= c <= 'f'
  }

  /** `#` followed by exactly six lower-case hexadecimal digits. */
  predicate IsHexColor(s: string)
  {
    |s| == 7 && s[0] == '#'
    && IsLowerHexDigit(s[1]) && IsLowerHexDigit(s[2]) && IsLowerHexDigit(s[3])
    && IsLowerHexDigit(s[4]) && IsLowerHexDigit(s[5]) && IsLowerHexDigit(s[6])
  }

  /** The Colorplan hex value of every swatch; total over the swatch names. */
  function ColorplanHex(p: PaperColor): (hex: string)
    ensures IsHexColor(hex)
  {
    match p
    case White => "#ffffff"
    case PristineWhite => "#fafafa"
    case BrightWhite => "#f5f5f5"
    case Natural => "#f5f1e6"
    case Smoke => "#b5b5b5"
    case PaleGrey => "#d9d9d9"
    case CoolGrey => "#8c8c8c"
    case DarkGrey => "#4a4a4a"
    case Ebony => "#1a1a1a"
    case FactoryYellow => "#f7d917"
    case Citrine => "#e8b00f"
    case Mandarin => "#f58220"
    case Rust => "#c1440e"
    case Vermilion => "#e34234"
    case Scarlet => "#cf142b"
    case CandyPink => "#e75480"
    case FuchsiaPink => "#ff00ff"
    case Purple => "#6b3fa0"
    case Lavender => "#b57edc"
    case AzureBlue => "#4a90d9"
    case Turquoise => "#30d5c8"
    case MarrsGreen => "#009473"
    case RacingGreen => "#004225"
    case Forest => "#228b22"
    case MidGreen => "#4cbb17"
    case SorbetYellow => "#fff44f"
    case TabrizBlue => "#1c3f6e"
  }

  /** One block of text on a panel; sizes and spacing in millimetres. */
  datatype Typography = Typography(
    text: string,
    fontFamily: string,
    fontSize: real,
    letterSpacing: real,
    lineHeight: real,
    textCase: TextCase,
    alignment: Alignment)

  /** The full configuration handed from the control panel to the scene. */
  datatype CoverSettings = CoverSettings(
    viewMode: ViewMode,
    openAngle: real,
    paperColor: PaperColor,
    customPaperColor: string,
    useCustomColor: bool,
    paperTexture: bool,
    textureIntensity: real,
    foilType: FoilType,
    foilColor: string,
    debossDepth: real,
    debossEnabled: bool,
    frontTypography: Typography,
    backTypography: Typography,
    spineTypography: Typography,
    animationSpeed: real)

  const DefaultTypography := Typography(
    text := "SIT WITH THAT",
    fontFamily := "Inter",
    fontSize := 12.0,
    letterSpacing := 0.5,
    lineHeight := 1.2,
    textCase := Uppercase,
    alignment := Center)

  const DefaultSettings := CoverSettings(
    viewMode := Closed,
    openAngle := 90.0,
    paperColor := Ebony,
    customPaperColor := "#1a1a1a",
    useCustomColor := false,
    paperTexture := true,
    textureIntensity := 0.5,
    foilType := Silver,
    foilColor := "#c0c0c0",
    debossDepth := 0.3,
    debossEnabled := true,
    frontTypography := DefaultTypography,
    backTypography := DefaultTypography.(
      text := "An exhibition about chairs\nand the people who sit in them",
      fontSize := 8.0),
    spineTypography := DefaultTypography.(text := "SIT WITH THAT", fontSize := 6.0),
    animationSpeed := 1.0)

  /** Every dimension is positive; front and back panels are both 160 x 220 mm. */
  lemma DimensionsPositive()
    ensures CoverDims.frontWidth > 0.0 && CoverDims.frontHeight > 0.0
    ensures CoverDims.backWidth > 0.0 && CoverDims.backHeight > 0.0
    ensures CoverDims.flapHeight > 0.0 && CoverDims.flapWidth > 0.0
    ensures CoverDims.beltWidth > 0.0 && CoverDims.beltHeight > 0.0
    ensures CoverDims.slotWidth > 0.0 && CoverDims.spineDepth > 0.0
    ensures CoverDims.frontWidth == CoverDims.backWidth == 160.0
    ensures CoverDims.frontHeight == CoverDims.backHeight == 220.0
  {
  }

  /** The position of a swatch in the option list. */
  function SwatchPosition(p: PaperColor): nat
  {
    match p
    case White => 0
    case PristineWhite => 1
    case BrightWhite => 2
    case Natural => 3
    case Smoke => 4
    case PaleGrey => 5
    case CoolGrey => 6
    case DarkGrey => 7
    case Ebony => 8
    case FactoryYellow => 9
    case Citrine => 10
    case Mandarin => 11
    case Rust => 12
    case Vermilion => 13
    case Scarlet => 14
    case CandyPink => 15
    case FuchsiaPink => 16
    case Purple => 17
    case Lavender => 18
    case AzureBlue => 19
    case Turquoise => 20
    case MarrsGreen => 21
    case RacingGreen => 22
    case Forest => 23
    case MidGreen => 24
    case SorbetYellow => 25
    case TabrizBlue => 26
  }

  /** The option list holds every swatch: 27 names. */
  lemma PaperColorOptionsComplete(p: PaperColor)
    ensures |PaperColorOptions| == 27
    ensures p in PaperColorOptions
  {
  }

  /** Each swatch of the option list sits at its own position. */
  lemma SwatchPositions()
    ensures forall i :: 0 <= i < |PaperColorOptions| ==> SwatchPosition(PaperColorOptions[i]) == i
  {
  }

  /** No swatch is listed twice. */
  lemma PaperColorOptionsDistinct()
    ensures forall i, j :: 0 <= i < j < |PaperColorOptions| ==> PaperColorOptions[i] != PaperColorOptions[j]
  {
    SwatchPositions();
  }

  /**
   * The default back block differs from the shared default only in its text
   * and its 8 mm size; the default spine block only in its 6 mm size.
   */
  lemma DefaultTypographyVariants()
    ensures DefaultSettings.frontTypography == DefaultTypography
    ensures DefaultSettings.backTypography
         == DefaultTypography.(text := DefaultSettings.backTypography.text, fontSize := 8.0)
    ensures DefaultSettings.backTypography.text != DefaultTypography.text
    ensures DefaultSettings.spineTypography == DefaultTypography.(fontSize := 6.0)
  {
  }

  /** The default custom colour is the Ebony swatch, the default swatch. */
  lemma DefaultCustomColorIsEbony()
    ensures DefaultSettings.paperColor == Ebony
    ensures DefaultSettings.customPaperColor == ColorplanHex(Ebony)
  {
  }

  /** The font families offered for every typography block. */
  const FontOptions: seq<string> := [
    "Inter", "Roboto", "Open Sans", "Montserrat", "Playfair Display",
    "Lora", "Source Serif Pro", "Oswald", "Raleway", "Merriweather",
    "PT Serif", "Noto Serif", "Libre Baskerville", "Crimson Text", "EB Garamond",
    "Cormorant Garamond", "Bitter", "Arvo", "Vollkorn", "Spectral"]

  /** Twenty families are offered, the default family first among them. */
  lemma DefaultFontOffered()
    ensures |FontOptions| == 20
    ensures FontOptions[0] == DefaultTypography.fontFamily
    ensures DefaultSettings.frontTypography.fontFamily in FontOptions
    ensures DefaultSettings.backTypography.fontFamily in FontOptions
    ensures DefaultSettings.spineTypography.fontFamily in FontOptions
  {
  }
}
