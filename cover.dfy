/**
 * The cover component (src/components/Cover.tsx, `Cover`): from its props it
 * derives the hinge rotations and their spring, the paper bitmap and paper
 * material shared by every panel, the foil material, the three text
 * textures, and which text overlays and the card stack are in the scene.
 *
 * The scene graph itself (meshes, groups, positions) is not modelled; what
 * is kept is every value the component computes and every condition under
 * which a part of the scene appears.
 */
module CoverScene {
  import opened Types
  import opened Wrappers
  import opened Layout
  import opened Materials
  import PaperNoise
  import TextTexture

  /** The component's inputs: the settings, with the paper colour already resolved to a hex string. */
  datatype CoverProps = CoverProps(
    viewMode: ViewMode,
    openAngle: real,
    animationSpeed: real,
    paperColor: string,
    paperTexture: bool,
    textureIntensity: real,
    foilType: FoilType,
    foilColor: string,
    debossEnabled: bool,
    debossDepth: real,
    frontTypography: Typography,
    backTypography: Typography,
    spineTypography: Typography)

  /** The three panels that carry text. */
  datatype Panel = FrontPanel | BackPanel | SpinePanel

  /** The size a panel's text texture is made for, and whether it is turned. */
  datatype TextTarget = TextTarget(width: real, height: real, rotated: bool)

  /**
   * Front and back textures cover their panel; the spine texture is made for
   * the spine's depth by the front's height and is the only one turned.
   */
  function TargetFor(panel: Panel): (t: TextTarget)
    ensures t.rotated <==> panel == SpinePanel
    ensures t.height == FrontH && t.width > 0.0
    ensures panel != SpinePanel ==> t.width == FrontW
  {
    match panel
    case FrontPanel => TextTarget(FrontW, FrontH, false)
    case BackPanel => TextTarget(BackW, BackH, false)
    case SpinePanel => TextTarget(SpineW, FrontH, true)
  }

  /** The typography block drawn on a panel. */
  function TypographyFor(p: CoverProps, panel: Panel): Typography
  {
    match panel
    case FrontPanel => p.frontTypography
    case BackPanel => p.backTypography
    case SpinePanel => p.spineTypography
  }

  /**
   * The text texture of a panel: none without a 2D context; otherwise drawn
   * in the foil tint on the panel's canvas.
   */
  function PanelTexture(p: CoverProps, panel: Panel, contextAvailable: bool, measure: TextTexture.Font -> string -> real)
    : (tex: Option<TextTexture.TextTexture>)
    ensures tex.Some? <==> contextAvailable
    ensures tex.Some? ==> tex.value.fill == TextTint(p.foilType, p.foilColor) && tex.value.fill != ""
    ensures tex.Some? ==> (tex.value.uvRotation == 90.0 <==> panel == SpinePanel)
    ensures tex.Some? ==> tex.value.font == TextTexture.FontOf(TypographyFor(p, panel))
    ensures tex.Some? ==> forall i :: 0 <= i < |tex.value.calls| ==>
      tex.value.calls[i].align == TypographyFor(p, panel).alignment
  {
    if !contextAvailable then None
    else
      var t := TypographyFor(p, panel);
      var target := TargetFor(panel);
      var canvas := TextTexture.CanvasFor(target.width, target.height, target.rotated);
      Some(TextTexture.TextTexture(
        canvas,
        TextTexture.FontOf(t),
        TextTint(p.foilType, p.foilColor),
        TextTexture.Drawing(t, canvas, measure),
        if target.rotated then 90.0 else 0.0))
  }

  /** A text overlay in the scene: the panel's texture under the foil material. */
  datatype Overlay = Overlay(texture: TextTexture.TextTexture, material: FoilMaterial)

  /** The overlay of a panel: present exactly when both its texture and a foil material exist. */
  function OverlayFor(p: CoverProps, panel: Panel, contextAvailable: bool, measure: TextTexture.Font -> string -> real)
    : (o: Option<Overlay>)
    ensures o.Some? <==> DecalShown(contextAvailable, p.foilType, p.foilColor)
    ensures o.Some? ==> Some(o.value.material) == FoilMaterialFor(p.foilType, p.foilColor)
    ensures o.Some? ==> Some(o.value.texture) == PanelTexture(p, panel, contextAvailable, measure)
  {
    match (PanelTexture(p, panel, contextAvailable, measure), FoilMaterialFor(p.foilType, p.foilColor))
    case (Some(tex), Some(foil)) => Some(Overlay(tex, foil))
    case _ => None
  }

  /** Everything the component computes. */
  datatype CoverModel = CoverModel(
    rotations: Rotations,
    spring: SpringConfig,
    paperBitmap: Option<seq<PaperNoise.byte>>,
    paper: PaperMaterial,
    foil: Option<FoilMaterial>,
    front: Option<Overlay>,
    back: Option<Overlay>,
    spine: Option<Overlay>,
    cardStack: bool)

  function OverlayOf(m: CoverModel, panel: Panel): Option<Overlay>
  {
    match panel
    case FrontPanel => m.front
    case BackPanel => m.back
    case SpinePanel => m.spine
  }

  /**
   * One render of the component. `contextAvailable` says whether canvases
   * yield a 2D context, `draws` are the random values of the paper noise, and
   * `measure(f)` the text width under font `f`; each panel's texture measures
   * in its own block's font.
   */
  method Cover(p: CoverProps, contextAvailable: bool, draws: seq<real>, measure: TextTexture.Font -> string -> real)
    returns (m: CoverModel)
    requires |draws| == PaperNoise.PixelCount
    ensures m.rotations == GetRotations(p.viewMode, p.openAngle)
    ensures m.spring == Spring(p.animationSpeed)
    ensures m.paperBitmap.Some? <==> BumpMapPresent(p.paperTexture, contextAvailable)
    ensures m.paperBitmap.Some? ==>
      m.paperBitmap.value == PaperNoise.Perturbed(PaperNoise.GreyFill(PaperNoise.PixelCount), draws, p.textureIntensity)
    ensures m.paper == PaperMaterialFor(p.paperColor, m.paperBitmap.Some?, p.textureIntensity)
    ensures m.foil == FoilMaterialFor(p.foilType, p.foilColor)
    ensures forall panel :: OverlayOf(m, panel) == OverlayFor(p, panel, contextAvailable, measure)
    ensures m.cardStack <==> p.viewMode == Open
  {
    var bitmap := PaperNoise.PaperTexture(p.paperTexture, contextAvailable, draws, p.textureIntensity);
    var paper := PaperMaterialFor(p.paperColor, bitmap.Some?, p.textureIntensity);
    var rotations := GetRotations(p.viewMode, p.openAngle);
    var foil := FoilMaterialFor(p.foilType, p.foilColor);
    var tint := TextTint(p.foilType, p.foilColor);

    var ft := TargetFor(FrontPanel);
    var frontTex := TextTexture.MakeTextTexture(p.frontTypography, ft.width, ft.height, tint, ft.rotated, contextAvailable, measure);
    var bt := TargetFor(BackPanel);
    var backTex := TextTexture.MakeTextTexture(p.backTypography, bt.width, bt.height, tint, bt.rotated, contextAvailable, measure);
    var st := TargetFor(SpinePanel);
    var spineTex := TextTexture.MakeTextTexture(p.spineTypography, st.width, st.height, tint, st.rotated, contextAvailable, measure);
    assert frontTex == PanelTexture(p, FrontPanel, contextAvailable, measure);
    assert backTex == PanelTexture(p, BackPanel, contextAvailable, measure);
    assert spineTex == PanelTexture(p, SpinePanel, contextAvailable, measure);

    m := CoverModel(rotations, Spring(p.animationSpeed), bitmap, paper, foil,
                    if frontTex.Some? && foil.Some? then Some(Overlay(frontTex.value, foil.value)) else None,
                    if backTex.Some? && foil.Some? then Some(Overlay(backTex.value, foil.value)) else None,
                    if spineTex.Some? && foil.Some? then Some(Overlay(spineTex.value, foil.value)) else None,
                    CardStackShown(p.viewMode));
  }

  /** Front and back canvases are 640 x 880 pixels; the turned spine canvas is 880 x 60. */
  lemma PanelCanvases()
    ensures TextTexture.CanvasFor(TargetFor(FrontPanel).width, TargetFor(FrontPanel).height, false)
         == TextTexture.Canvas(640.0, 880.0)
    ensures TextTexture.CanvasFor(TargetFor(BackPanel).width, TargetFor(BackPanel).height, false)
         == TextTexture.Canvas(640.0, 880.0)
    ensures TextTexture.CanvasFor(TargetFor(SpinePanel).width, TargetFor(SpinePanel).height, true)
         == TextTexture.Canvas(880.0, 60.0)
  {
  }

  /**
   * Every spine font size the controls allow (4 mm and up) gives an em box
   * of at least 64 pixels, taller than the 60-pixel spine canvas.
   */
  lemma SpineFontTallerThanCanvas(fontSize: real)
    requires fontSize >= 4.0
    ensures TextTexture.FontPx(fontSize) >= 64.0
    ensures TextTexture.FontPx(fontSize) > TextTexture.CanvasFor(SpineW, FrontH, true).h
  {
  }

  /**
   * With foil `none` no overlay is in the scene, on any panel, whatever the
   * textures, colours and typography.
   */
  lemma NoFoilNoOverlays(p: CoverProps, panel: Panel, contextAvailable: bool, measure: TextTexture.Font -> string -> real)
    requires p.foilType == NoFoil
    ensures OverlayFor(p, panel, contextAvailable, measure).None?
  {
  }

  /**
   * Overlays on the three panels appear and disappear together, all in the
   * same material.
   */
  lemma OverlaysTogether(p: CoverProps, a: Panel, b: Panel, contextAvailable: bool, measure: TextTexture.Font -> string -> real)
    ensures OverlayFor(p, a, contextAvailable, measure).Some? <==> OverlayFor(p, b, contextAvailable, measure).Some?
    ensures OverlayFor(p, a, contextAvailable, measure).Some? ==>
      OverlayFor(p, a, contextAvailable, measure).value.material == OverlayFor(p, b, contextAvailable, measure).value.material
  {
  }

  /**
   * A metallic finish paints the same overlays whatever foil colour is
   * chosen: both the material and the text tint come from the finish.
   */
  lemma MetallicOverlaysIgnoreFoilColor(p: CoverProps, c: string, panel: Panel, contextAvailable: bool,
                                        measure: TextTexture.Font -> string -> real)
    requires MetallicFinish(p.foilType)
    ensures OverlayFor(p.(foilColor := c), panel, contextAvailable, measure) == OverlayFor(p, panel, contextAvailable, measure)
  {
    MetallicIgnoresFoilColor(p.foilType, c, p.foilColor);
  }
}
