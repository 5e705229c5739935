/**
 * Surface materials of the cover (src/components/Cover.tsx): the paper
 * material every panel shares, the foil material resolved from the foil
 * finish, the colour the text textures are painted in, and whether a text
 * overlay is drawn at all.
 */
module Materials {
  import opened Types
  import opened Wrappers

  /** Shading parameters of the paper: colour, roughness, metalness and bump map. */
  datatype PaperMaterial = PaperMaterial(
    color: string,
    roughness: real,
    metalness: real,
    bumpMapped: bool,
    bumpScale: real)

  /**
   * The procedural paper texture exists only when it is switched on and the
   * off-screen canvas yields a 2D context; otherwise there is no bump map.
   */
  predicate BumpMapPresent(paperTexture: bool, contextAvailable: bool)
  {
    paperTexture && contextAvailable
  }

  /**
   * The paper material: the resolved paper colour, a fixed paper-like
   * roughness of 0.85, no metalness, and a bump depth that grows with the
   * texture intensity up to 0.005 at full intensity.
   */
  function PaperMaterialFor(paperColor: string, bumpMapped: bool, textureIntensity: real): (m: PaperMaterial)
    ensures m.color == paperColor && m.bumpMapped == bumpMapped
    ensures m.roughness == 0.85 && m.metalness == 0.0
    ensures 0.0 <= textureIntensity <= 1.0 ==> 0.0 <= m.bumpScale <= 0.005
    ensures textureIntensity == 0.0 ==> m.bumpScale == 0.0
  {
    PaperMaterial(
      color := paperColor,
      roughness := 0.85,
      metalness := 0.0,
      bumpMapped := bumpMapped,
      bumpScale := textureIntensity * 0.005)
  }

  /** Shading parameters of a foil finish. */
  datatype FoilMaterial = FoilMaterial(color: string, roughness: real, metalness: real, envMapIntensity: real)

  /** The finishes whose colour comes from the user's foil colour. */
  predicate TintedFinish(foil: FoilType)
  {
    foil == Gloss || foil == Matte
  }

  /** The finishes with a fixed, built-in colour. */
  predicate MetallicFinish(foil: FoilType)
  {
    foil == Silver || foil == Gold || foil == Copper || foil == Holographic
  }

  /**
   * The foil resolver. `none`, and any value outside the union, yields no
   * material. Gloss and matte are painted in the user's foil colour; the four
   * metallic finishes are strongly metallic (at least 0.8) and painted in a
   * fixed hex colour of their own. Every material is more or less rough and
   * reflects the environment.
   */
  function FoilMaterialFor(foil: FoilType, foilColor: string): (m: Option<FoilMaterial>)
    ensures m.None? <==> !TintedFinish(foil) && !MetallicFinish(foil)
    ensures TintedFinish(foil) ==> m.Some? && m.value.color == foilColor && m.value.metalness <= 0.1
    ensures MetallicFinish(foil) ==> m.Some? && IsHexColor(m.value.color) && m.value.metalness >= 0.8
    ensures m.Some? ==> 0.0 < m.value.roughness < 1.0 && 0.0 <= m.value.metalness < 1.0
    ensures m.Some? ==> m.value.envMapIntensity > 0.0
  {
    match foil
    case Gloss => Some(FoilMaterial(color := foilColor, roughness := 0.1, metalness := 0.1, envMapIntensity := 2.0))
    case Matte => Some(FoilMaterial(color := foilColor, roughness := 0.6, metalness := 0.0, envMapIntensity := 0.5))
    case Silver => Some(FoilMaterial(color := "#c0c0c0", roughness := 0.15, metalness := 0.9, envMapIntensity := 3.0))
    case Gold => Some(FoilMaterial(color := "#d4af37", roughness := 0.2, metalness := 0.85, envMapIntensity := 2.5))
    case Copper => Some(FoilMaterial(color := "#b87333", roughness := 0.25, metalness := 0.8, envMapIntensity := 2.0))
    case Holographic => Some(FoilMaterial(color := "#ffffff", roughness := 0.05, metalness := 0.95, envMapIntensity := 4.0))
    case NoFoil => None
    case UnknownFoil(_) => None
  }

  /** A metallic finish ignores the user's foil colour entirely. */
  lemma MetallicIgnoresFoilColor(foil: FoilType, c1: string, c2: string)
    requires MetallicFinish(foil)
    ensures FoilMaterialFor(foil, c1) == FoilMaterialFor(foil, c2)
  {
  }

  /** The fixed colours of the four metallic finishes. */
  lemma MetallicColors(foilColor: string)
    ensures FoilMaterialFor(Silver, foilColor).value.color == "#c0c0c0"
    ensures FoilMaterialFor(Gold, foilColor).value.color == "#d4af37"
    ensures FoilMaterialFor(Copper, foilColor).value.color == "#b87333"
    ensures FoilMaterialFor(Holographic, foilColor).value.color == "#ffffff"
  {
  }

  /**
   * The default finish is silver with foil colour `#c0c0c0`: the same colour
   * the silver preset imposes, so the colour control agrees with what is shown.
   */
  lemma DefaultFoilColorMatchesPreset()
    ensures DefaultSettings.foilType == Silver
    ensures FoilMaterialFor(DefaultSettings.foilType, DefaultSettings.foilColor).value.color
         == DefaultSettings.foilColor
  {
  }

  /**
   * The colour the text textures are painted in: the foil material's colour,
   * or white when there is no material or its colour is the empty string
   * (the source falls back with `||`, for which "" counts as absent).
   */
  function TextTint(foil: FoilType, foilColor: string): (tint: string)
    ensures tint != ""
    ensures FoilMaterialFor(foil, foilColor).None? ==> tint == "#ffffff"
    ensures FoilMaterialFor(foil, foilColor).Some? && FoilMaterialFor(foil, foilColor).value.color != ""
            ==> tint == FoilMaterialFor(foil, foilColor).value.color
  {
    match FoilMaterialFor(foil, foilColor)
    case None => "#ffffff"
    case Some(m) => if m.color != "" then m.color else "#ffffff"
  }

  /** A tinted finish with an empty foil colour paints its text white. */
  lemma EmptyFoilColorPaintsWhite(foil: FoilType)
    requires TintedFinish(foil)
    ensures TextTint(foil, "") == "#ffffff"
  {
  }

  /**
   * A text overlay (front, back or spine) is drawn only when its texture
   * exists and the foil resolves to a material.
   */
  predicate DecalShown(textureReady: bool, foil: FoilType, foilColor: string)
  {
    textureReady && FoilMaterialFor(foil, foilColor).Some?
  }

  /**
   * With foil `none` (or an unknown finish) no overlay is drawn, whatever the
   * textures and colour; with any real finish an overlay is drawn exactly
   * when its texture exists.
   */
  lemma NoFoilSuppressesDecals(foil: FoilType, textureReady: bool, foilColor: string)
    ensures DecalShown(textureReady, foil, foilColor) <==> textureReady && (TintedFinish(foil) || MetallicFinish(foil))
    ensures foil == NoFoil ==> !DecalShown(textureReady, foil, foilColor)
  {
  }
}
