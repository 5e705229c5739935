/**
 * The application shell (src/App.tsx): six control panels, each seeded from
 * the default settings, are combined into one settings record; the paper
 * colour is resolved to a hex string, and the settings with that colour are
 * what the cover component receives.
 *
 * The control widgets themselves are not modelled: a control is the value it
 * currently holds, together with the range or option list it offers and the
 * condition under which it is displayed.
 */
module AppSettings {
  import opened Types
  import opened Layout
  import opened Materials
  import CoverScene

  datatype ViewControls = ViewControls(viewMode: ViewMode, openAngle: real, animationSpeed: real)

  datatype PaperControls = PaperControls(
    paperColor: PaperColor,
    useCustomColor: bool,
    customPaperColor: string,
    paperTexture: bool,
    textureIntensity: real)

  datatype FoilControls = FoilControls(foilType: FoilType, foilColor: string)

  datatype DebossControls = DebossControls(debossEnabled: bool, debossDepth: real)

  /** The front and back typography panels offer every field of a block. */
  datatype TypographyControls = TypographyControls(
    text: string,
    fontFamily: string,
    fontSize: real,
    letterSpacing: real,
    lineHeight: real,
    textCase: TextCase,
    alignment: Alignment)

  /** The spine panel offers only text, family, size and spacing. */
  datatype SpineControls = SpineControls(text: string, fontFamily: string, fontSize: real, letterSpacing: real)

  datatype Controls = Controls(
    view: ViewControls,
    paper: PaperControls,
    foil: FoilControls,
    deboss: DebossControls,
    front: TypographyControls,
    back: TypographyControls,
    spine: SpineControls)

  function BlockControls(t: Typography): TypographyControls
  {
    TypographyControls(t.text, t.fontFamily, t.fontSize, t.letterSpacing, t.lineHeight, t.textCase, t.alignment)
  }

  /** Every control starts at the default setting of the same name. */
  function DefaultControls(): (c: Controls)
    ensures AssembleSettings(c) == DefaultSettings
    ensures ControlsOf(DefaultSettings) == c
  {
    var d := DefaultSettings;
    Controls(
      ViewControls(d.viewMode, d.openAngle, d.animationSpeed),
      PaperControls(d.paperColor, d.useCustomColor, d.customPaperColor, d.paperTexture, d.textureIntensity),
      FoilControls(d.foilType, d.foilColor),
      DebossControls(d.debossEnabled, d.debossDepth),
      BlockControls(d.frontTypography),
      BlockControls(d.backTypography),
      SpineControls(d.spineTypography.text, d.spineTypography.fontFamily, d.spineTypography.fontSize,
                    d.spineTypography.letterSpacing))
  }

  function BlockSettings(c: TypographyControls): Typography
  {
    Typography(c.text, c.fontFamily, c.fontSize, c.letterSpacing, c.lineHeight, c.textCase, c.alignment)
  }

  /**
   * The settings record. The spine block takes its text, family, size and
   * spacing from its controls and its line height, case and alignment from
   * the default spine block.
   */
  function AssembleSettings(c: Controls): (s: CoverSettings)
    ensures s.spineTypography.lineHeight == DefaultSettings.spineTypography.lineHeight
    ensures s.spineTypography.textCase == DefaultSettings.spineTypography.textCase
    ensures s.spineTypography.alignment == DefaultSettings.spineTypography.alignment
  {
    CoverSettings(
      viewMode := c.view.viewMode,
      openAngle := c.view.openAngle,
      paperColor := c.paper.paperColor,
      customPaperColor := c.paper.customPaperColor,
      useCustomColor := c.paper.useCustomColor,
      paperTexture := c.paper.paperTexture,
      textureIntensity := c.paper.textureIntensity,
      foilType := c.foil.foilType,
      foilColor := c.foil.foilColor,
      debossDepth := c.deboss.debossDepth,
      debossEnabled := c.deboss.debossEnabled,
      frontTypography := BlockSettings(c.front),
      backTypography := BlockSettings(c.back),
      spineTypography := Typography(
        text := c.spine.text,
        fontFamily := c.spine.fontFamily,
        fontSize := c.spine.fontSize,
        letterSpacing := c.spine.letterSpacing,
        lineHeight := DefaultSettings.spineTypography.lineHeight,
        textCase := DefaultSettings.spineTypography.textCase,
        alignment := DefaultSettings.spineTypography.alignment),
      animationSpeed := c.view.animationSpeed)
  }

  /** The controls a settings record would be shown with. */
  function ControlsOf(s: CoverSettings): Controls
  {
    Controls(
      ViewControls(s.viewMode, s.openAngle, s.animationSpeed),
      PaperControls(s.paperColor, s.useCustomColor, s.customPaperColor, s.paperTexture, s.textureIntensity),
      FoilControls(s.foilType, s.foilColor),
      DebossControls(s.debossEnabled, s.debossDepth),
      BlockControls(s.frontTypography),
      BlockControls(s.backTypography),
      SpineControls(s.spineTypography.text, s.spineTypography.fontFamily, s.spineTypography.fontSize,
                    s.spineTypography.letterSpacing))
  }

  /** No control value is lost in assembling the settings. */
  lemma AssembleKeepsControls(c: Controls)
    ensures ControlsOf(AssembleSettings(c)) == c
  {
  }

  /**
   * A settings record comes out of the controls exactly when its spine block
   * has the default line height, case and alignment.
   */
  lemma AssembleReachable(s: CoverSettings)
    ensures AssembleSettings(ControlsOf(s)) == s
        <==> (s.spineTypography.lineHeight == DefaultSettings.spineTypography.lineHeight
              && s.spineTypography.textCase == DefaultSettings.spineTypography.textCase
              && s.spineTypography.alignment == DefaultSettings.spineTypography.alignment)
  {
  }

  /** The ranges the sliders offer. */
  predicate ControlsInRange(c: Controls): (ok: bool)
    ensures ok ==> c.front.fontSize > 0.0 && c.back.fontSize > 0.0 && c.spine.fontSize > 0.0
    ensures ok ==> c.front.lineHeight > 0.0 && c.back.lineHeight > 0.0
  {
    && 0.0 <= c.view.openAngle <= 180.0
    && 0.1 <= c.view.animationSpeed <= 3.0
    && 0.0 <= c.paper.textureIntensity <= 1.0
    && 0.0 <= c.deboss.debossDepth <= 1.0
    && 4.0 <= c.front.fontSize <= 48.0 && 4.0 <= c.back.fontSize <= 48.0 && 4.0 <= c.spine.fontSize <= 24.0
    && -2.0 <= c.front.letterSpacing <= 10.0 && -2.0 <= c.back.letterSpacing <= 10.0
    && -2.0 <= c.spine.letterSpacing <= 10.0
    && 0.8 <= c.front.lineHeight <= 3.0 && 0.8 <= c.back.lineHeight <= 3.0
  }

  /** The same ranges stated on the settings, with a line height range for every block. */
  predicate SettingsInRange(s: CoverSettings)
  {
    && 0.0 <= s.openAngle <= 180.0
    && 0.1 <= s.animationSpeed <= 3.0
    && 0.0 <= s.textureIntensity <= 1.0
    && 0.0 <= s.debossDepth <= 1.0
    && 4.0 <= s.frontTypography.fontSize <= 48.0 && 4.0 <= s.backTypography.fontSize <= 48.0
    && 4.0 <= s.spineTypography.fontSize <= 24.0
    && -2.0 <= s.frontTypography.letterSpacing <= 10.0 && -2.0 <= s.backTypography.letterSpacing <= 10.0
    && -2.0 <= s.spineTypography.letterSpacing <= 10.0
    && 0.8 <= s.frontTypography.lineHeight <= 3.0 && 0.8 <= s.backTypography.lineHeight <= 3.0
    && 0.8 <= s.spineTypography.lineHeight <= 3.0
  }

  /**
   * The defaults lie within the sliders' ranges, and any in-range controls
   * give in-range settings, the fixed spine line height included.
   */
  lemma RangesPreserved(c: Controls)
    ensures ControlsInRange(DefaultControls())
    ensures ControlsInRange(c) <==> SettingsInRange(AssembleSettings(c))
  {
  }

  /**
   * With in-range controls, the panels never swing past flat and the spring
   * tension stays within [17, 510].
   */
  lemma InRangeMotion(c: Controls)
    requires ControlsInRange(c)
    ensures -90.0 <= GetRotations(AssembleSettings(c).viewMode, AssembleSettings(c).openAngle).front <= 0.0
    ensures 17.0 <= Spring(AssembleSettings(c).animationSpeed).tension <= 510.0
  {
  }

  /** The paper colour sent to the scene: the custom colour when chosen, otherwise the swatch's hex value. */
  function ResolvePaperColor(s: CoverSettings): (hex: string)
    ensures s.useCustomColor ==> hex == s.customPaperColor
    ensures !s.useCustomColor ==> hex == ColorplanHex(s.paperColor) && IsHexColor(hex)
  {
    if s.useCustomColor then s.customPaperColor else ColorplanHex(s.paperColor)
  }

  /**
   * The custom colour is ignored while it is switched off, and the swatch is
   * ignored while it is switched on.
   */
  lemma PaperColorIndependence(s: CoverSettings, swatch: PaperColor, custom: string)
    ensures !s.useCustomColor ==> ResolvePaperColor(s.(customPaperColor := custom)) == ResolvePaperColor(s)
    ensures s.useCustomColor ==> ResolvePaperColor(s.(paperColor := swatch)) == ResolvePaperColor(s)
  {
  }

  /**
   * By default the cover is Ebony; switching the custom colour on without
   * editing it keeps the same colour, since the default custom colour is
   * Ebony's hex value.
   */
  lemma DefaultToggleKeepsColor()
    ensures ResolvePaperColor(DefaultSettings) == "#1a1a1a"
    ensures ResolvePaperColor(DefaultSettings.(useCustomColor := true)) == ResolvePaperColor(DefaultSettings)
  {
  }

  /** The props the cover receives: the settings, with the paper colour resolved. */
  function CoverPropsFor(s: CoverSettings): (p: CoverScene.CoverProps)
    ensures p.paperColor == ResolvePaperColor(s)
  {
    CoverScene.CoverProps(
      s.viewMode, s.openAngle, s.animationSpeed, ResolvePaperColor(s), s.paperTexture, s.textureIntensity,
      s.foilType, s.foilColor, s.debossEnabled, s.debossDepth,
      s.frontTypography, s.backTypography, s.spineTypography)
  }

  /** The controls that are displayed only under a condition. */
  datatype ConditionalControl = OpenAngleControl | CustomColorControl | IntensityControl | FoilColorControl | DepthControl

  /** When each conditional control is displayed. */
  predicate Displayed(c: Controls, control: ConditionalControl): (shown: bool)
    ensures c == DefaultControls() ==>
      (shown <==> control == IntensityControl || control == FoilColorControl || control == DepthControl)
  {
    match control
    case OpenAngleControl => c.view.viewMode == Open
    case CustomColorControl => c.paper.useCustomColor
    case IntensityControl => c.paper.paperTexture
    case FoilColorControl => c.foil.foilType != NoFoil
    case DepthControl => c.deboss.debossEnabled
  }

  /**
   * The open angle is displayed exactly when it moves the panels: in every
   * other mode any two angles give the same rotations.
   */
  lemma OpenAngleShownWhenItMatters(c: Controls, a: real, b: real)
    ensures !Displayed(c, OpenAngleControl) ==> GetRotations(c.view.viewMode, a) == GetRotations(c.view.viewMode, b)
    ensures Displayed(c, OpenAngleControl) && a != b ==> GetRotations(c.view.viewMode, a) != GetRotations(c.view.viewMode, b)
  {
    if Displayed(c, OpenAngleControl) && a != b {
      assert GetRotations(Open, a).back == a / 2.0;
    }
  }

  /** A hidden custom colour has no effect on the colour sent to the scene. */
  lemma HiddenCustomColorInert(c: Controls, custom: string)
    requires !Displayed(c, CustomColorControl)
    ensures ResolvePaperColor(AssembleSettings(c.(paper := c.paper.(customPaperColor := custom))))
         == ResolvePaperColor(AssembleSettings(c))
  {
  }

  /**
   * A hidden foil colour (foil `none`) changes neither the foil material
   * nor the text tint; a displayed one does change the material of the
   * gloss and matte finishes.
   */
  lemma FoilColorShownWhenItMatters(c: Controls, color: string)
    ensures !Displayed(c, FoilColorControl) ==>
      FoilMaterialFor(c.foil.foilType, color) == FoilMaterialFor(c.foil.foilType, c.foil.foilColor)
      && TextTint(c.foil.foilType, color) == TextTint(c.foil.foilType, c.foil.foilColor)
    ensures TintedFinish(c.foil.foilType) && color != c.foil.foilColor ==>
      FoilMaterialFor(c.foil.foilType, color) != FoilMaterialFor(c.foil.foilType, c.foil.foilColor)
  {
  }
}
