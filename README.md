# Sit With That — book-cover configurator, modelled in Dafny

This project models the core of an interactive 3D configurator for a folding
exhibition cover. A user edits paper colour, paper texture, foil finish,
typography and view mode. The cover component turns these settings into a
scene:

- Panel rotations for the `closed`, `open` and `flat` views, animated by springs.
- A procedurally noised paper bump map.
- Paper and foil materials.
- Canvas-drawn text textures for the front, back and spine, laid over the
  panels in the foil material.

The application shell seeds its controls from the default settings,
assembles them into one settings record and resolves the paper colour.

Modules, one per concern of the source:

- `Types` (`types.ts`): cover dimensions, the enumerations, the Colorplan
  swatch table, the typography and settings records and their defaults, and
  the font list.
- `Layout`: the scaled dimensions, the view-mode layout resolver, the
  spring configuration, and the card stack.
- `Materials`: the paper material, the foil resolver, the text tint, and
  overlay visibility.
- `PaperNoise`: the 512 × 512 grey bitmap and its in-place noise loop, over an
  `array` of clamped bytes.
- `CaseTransform`: `none`, `uppercase`, `lowercase` and `capitalize`
  (`\b\w`) on ASCII.
- `TextTexture`: the text-texture generator, covering canvas size, line
  split, vertical centring, alignment anchors, whole-line and per-character
  drawing (a loop method), and the whole texture (a method).
- `CoverScene`: the `Cover` component, putting all of the above together.
- `AppSettings`: the App shell, covering control panels, settings
  assembly, control ranges, conditional display, and paper-colour
  resolution.

Modelling conventions:

- Angles are in degrees. The source converts degrees to radians with π, and
  every angle it uses is a multiple of 90° or half the open angle, so degrees
  carry the same values exactly.
- Inputs the code cannot see become parameters:
  - `measure: Font -> string -> real` is the canvas's `measureText(s).width`:
    `measure(f)(s)` is the width of `s` with font `f` set, and each block is
    measured in its own font;
  - `draws` are the successive `Math.random()` values;
  - `contextAvailable` says whether `getContext('2d')` returned a context.
    One value stands for all four calls (see "## Left out").
- The `as` casts in `App.tsx` are unchecked, so the resolvers' `default`
  branches are modelled for completeness, as extra constructors
  (`Unrecognised`, `UnknownFoil`) holding a name outside the union. The
  selects at `App.tsx` lines 19 and 61 offer only union members, so no
  input the app produces reaches these branches.
- Stores into the image data (a clamped byte array) clamp and then round
  half to even.

Two behaviours of the code are worth stating up front:

- The code scales the font size and the letter spacing by 4 × the
  resolution, 16 canvas pixels per millimetre, while the canvas holds 4
  pixels per millimetre. A size of `f` mm is therefore drawn 4·`f` mm tall
  (`TextTexture.FontScaleOnPanel`). Even the smallest spine size, 4 mm,
  gives a 64-pixel em box on a 60-pixel spine canvas
  (`CoverScene.SpineFontTallerThanCanvas`).
- Per-character drawing advances the pen by each glyph's width plus the
  spacing, as if each glyph were drawn from its left edge, but `textAlign`
  stays set to the block's alignment (see Findings).
  `TextTexture.LineCalls`, `TextTexture.Drawing`,
  `TextTexture.MakeTextTexture` and `CoverScene.Cover` model the code as
  written, with `textAlign` kept. `TextTexture.CorrectedDrawing` is the
  same drawing with each glyph drawn from its left edge.

## Model

| member | source | states |
|---|---|---|
| Types.ColorplanHex | src/types.ts:48-77 | every Colorplan swatch maps to a `#` followed by six lower-case hex digits |
| Types.DimensionsPositive | src/types.ts:1-13 | every cover dimension is positive; front and back are both 160 × 220 mm |
| Types.PaperColorOptionsComplete | src/types.ts:19-46 | the swatch option list has 27 entries and holds every swatch |
| Types.PaperColorOptionsDistinct | src/types.ts:19-46 | no swatch is listed twice |
| Types.DefaultTypographyVariants | src/types.ts:121-157 | the default front block is the shared default; back differs only in text and 8 mm size; spine only in 6 mm size |
| Types.DefaultCustomColorIsEbony | src/types.ts:131-137 | the default swatch is Ebony and the default custom colour is Ebony's hex value |
| Types.DefaultFontOffered | src/types.ts:162-184 | twenty families are offered, the default family among them for every block |
| Layout.GetRotations | src/components/Cover.tsx:92-125 | the halves mirror each other; flaps are folded (90°) or laid out (0°), laid out exactly in flat mode; for an angle in [0, 180] the front swings between 0° and −90° |
| Layout.ClosedIgnoresAngle | src/components/Cover.tsx:95-101 | closed: panels at 0°, flaps at +90°/−90°, whatever the angle |
| Layout.UnrecognisedIsClosed | src/components/Cover.tsx:117-123 | any mode outside the union gives exactly the closed layout |
| Layout.OpenHalvesAngle | src/components/Cover.tsx:102-109 | open: each panel turns half the angle in opposite directions, so they are the full angle apart; flaps stay folded |
| Layout.OpenAtRightAngle | src/components/Cover.tsx:102-109 | the default 90° opening puts the panels at −45° and +45° |
| Layout.FlatIgnoresAngle | src/components/Cover.tsx:110-116 | flat: panels at −90°/+90°, flaps at 0°, whatever the angle |
| Layout.OpenEndpoints | src/components/Cover.tsx:95-116 | open at 0° is the closed layout; open at 180° puts the panels where flat puts them |
| Layout.OpenMonotone | src/components/Cover.tsx:102-109 | a wider angle swings both panels further out |
| Layout.Spring | src/components/Cover.tsx:129-164 | unit mass, friction 26, tension positive for positive speed and within [17, 510] over the speed range |
| Layout.SpringScalesTension | src/components/Cover.tsx:129-164 | tension is proportional to speed; mass and friction do not depend on it |
| Layout.CardStackOnlyWhenOpen | src/components/Cover.tsx:342-348 | the card stack shows exactly in open mode, where the panels are the open angle apart |
| Materials.PaperMaterialFor | src/components/Cover.tsx:166-177 | resolved colour, roughness 0.85, no metalness, bump depth in [0, 0.005] for intensity in [0, 1] and 0 at intensity 0 |
| Materials.FoilMaterialFor | src/components/Cover.tsx:179-227 | no material exactly for `none` or an unknown finish; gloss and matte use the foil colour and are barely metallic; metallic finishes use a fixed hex colour with metalness ≥ 0.8; roughness in (0, 1) and a positive environment intensity |
| Materials.MetallicIgnoresFoilColor | src/components/Cover.tsx:196-223 | a metallic finish's material does not depend on the foil colour |
| Materials.MetallicColors | src/components/Cover.tsx:196-223 | silver, gold, copper and holographic are `#c0c0c0`, `#d4af37`, `#b87333`, `#ffffff` |
| Materials.DefaultFoilColorMatchesPreset | src/types.ts:141-142 | the default finish is silver and its colour equals the default foil colour |
| Materials.TextTint | src/components/Cover.tsx:233-235 | the tint is never empty: white without a material, the material's colour when that is non-empty |
| Materials.EmptyFoilColorPaintsWhite | src/components/Cover.tsx:233-235 | gloss or matte with an empty foil colour paints the text white (`||` treats "" as absent) |
| Materials.NoFoilSuppressesDecals | src/components/Cover.tsx:245-256 | an overlay shows exactly when its texture exists and the finish is a real one; never with `none` |
| PaperNoise.Clamp | src/components/Cover.tsx:75-77 | the result lies in [0, 255], equals an in-range input, and is 0 or 255 beyond the range |
| PaperNoise.RoundHalfEven | src/components/Cover.tsx:75-77 | the stored integer is within 1/2 of the value, exact on integers, even on ties |
| PaperNoise.StoreChannel | src/components/Cover.tsx:75-77 | an in-range value is stored within 1/2 of itself |
| PaperNoise.Perturbed | src/components/Cover.tsx:73-78 | the perturbed buffer has the buffer's length |
| PaperNoise.PerturbedAt | src/components/Cover.tsx:73-78 | channel k of pixel p after the pass: alpha kept, a colour channel noised with that pixel's draw |
| PaperNoise.NoisePixel | src/components/Cover.tsx:75-77 | the three colour channels of one pixel are stored noised; its alpha and every other channel are unchanged |
| PaperNoise.PixelStep | src/components/Cover.tsx:73-78 | noising pixel p after pixels 0..p-1 extends the noised prefix by one pixel and leaves the rest original |
| PaperNoise.PixelsMakePerturbed | src/components/Cover.tsx:73-78 | a buffer whose every pixel is noised with its own draw equals the perturbed buffer |
| PaperNoise.AddNoise | src/components/Cover.tsx:73-78 | the loop leaves the array equal to the perturbed buffer: colour channels noised and clamped, alpha untouched |
| PaperNoise.GreyFill | src/components/Cover.tsx:65-67 | four channels per pixel |
| PaperNoise.PaperTexture | src/components/Cover.tsx:56-82 | no bitmap exactly when the texture is off or there is no context; otherwise the grey fill with the noise pass |
| PaperNoise.StoreWholeByte | src/components/Cover.tsx:75-77 | storing a byte value back is the identity |
| PaperNoise.StoreNear | src/components/Cover.tsx:73-78 | clamping and rounding move a channel by at most the noise plus 1/2 |
| PaperNoise.ZeroIntensityIsIdentity | src/components/Cover.tsx:73-78 | intensity 0 leaves the bitmap unchanged whatever the draws |
| PaperNoise.Noise | src/components/Cover.tsx:74 | the noise is zero exactly at a draw of 1/2 or intensity 0, and for positive intensity positive exactly above 1/2 |
| PaperNoise.NoiseRange | src/components/Cover.tsx:74 | a draw in [0, 1) gives noise within ±15·intensity |
| PaperNoise.NoiseBounded | src/components/Cover.tsx:73-78 | channels stay bytes, alpha is unchanged, colour channels move by at most 15·intensity + 1/2 |
| PaperNoise.GreyTextureRange | src/components/Cover.tsx:65-78 | from the grey fill the texture is opaque with colour channels in [121, 151] |
| CaseTransform.UpperChar | src/components/Cover.tsx:381-383 | a lower-case letter becomes its capital (32 code points down); any other character is kept; the result is never lower-case and keeps word-character class |
| CaseTransform.LowerChar | src/components/Cover.tsx:384-386 | an upper-case letter becomes its small letter (32 code points up); any other character is kept; the result is never upper-case and keeps word-character class |
| CaseTransform.CaseInverse | src/components/Cover.tsx:381-386 | lowering a raised letter gives it back, and raising a lowered capital gives it back |
| CaseTransform.ToUpper | src/components/Cover.tsx:381-383 | same length, each character upper-cased in place |
| CaseTransform.ToLower | src/components/Cover.tsx:384-386 | same length, each character lower-cased in place |
| CaseTransform.CapitalizeFrom | src/components/Cover.tsx:387-389 | the scan keeps the length |
| CaseTransform.CapitalizeWords | src/components/Cover.tsx:387-389 | capitalising upper-cases exactly the characters that start a word (`\b\w`), keeps every other character, and keeps the length |
| CaseTransform.ApplyCase | src/components/Cover.tsx:378-390 | every transform keeps the length |
| CaseTransform.CapitalizeFromAt | src/components/Cover.tsx:387-389 | the scan upper-cases a word character exactly when the character before it is not a word character |
| CaseTransform.KeepsLineBreaks | src/components/Cover.tsx:378-390 | no transform moves, adds or removes a line break |
| CaseTransform.NoCaseIsIdentity | src/components/Cover.tsx:378-390 | `none` returns the text unchanged |
| CaseTransform.UppercaseIdempotent | src/components/Cover.tsx:381-383 | upper-casing twice equals upper-casing once |
| CaseTransform.LowercaseIdempotent | src/components/Cover.tsx:384-386 | lower-casing twice equals lower-casing once |
| CaseTransform.CapitalizeIdempotent | src/components/Cover.tsx:387-389 | capitalising twice equals capitalising once |
| CaseTransform.UppercaseAbsorbs | src/components/Cover.tsx:378-390 | upper-casing after any transform equals upper-casing alone |
| CaseTransform.CapitalizeConcat | src/components/Cover.tsx:387-389 | the scan over a concatenation resumes where the first part ended |
| CaseTransform.CapitalizeInsideWord | src/components/Cover.tsx:387-389 | inside a word nothing changes |
| CaseTransform.CapitalizeWord | src/components/Cover.tsx:387-389 | a word after a separator gains a capital first letter and keeps the rest |
| TextTexture.CanvasFor | src/components/Cover.tsx:364-370 | 400 pixels per scene unit; sides swapped when rotated; positive for a positive panel; area independent of rotation |
| TextTexture.RotationSwapsCanvas | src/components/Cover.tsx:367-368 | the rotated canvas is the unrotated one with sides swapped |
| TextTexture.FontPx | src/components/Cover.tsx:393 | the font is 16 pixels per millimetre of size, positive exactly for a positive size |
| TextTexture.SpacingPx | src/components/Cover.tsx:416 | the spacing uses the font's scale, so spacing above the 0.1 mm threshold is more than 1.6 pixels |
| TextTexture.SameFontExactlyForSameSizeAndFamily | src/components/Cover.tsx:393-394 | two blocks get the same canvas font exactly when they share font size and family, whatever their other fields |
| TextTexture.FontScaleOnPanel | src/components/Cover.tsx:393 | a font size of f mm is 4·f mm of panel; the canvas holds 4 pixels per panel millimetre |
| TextTexture.AnchorX | src/components/Cover.tsx:399-402 | the anchor lies on the canvas; the centre anchor is equidistant from both edges |
| TextTexture.AnchorsMirror | src/components/Cover.tsx:399-402 | left and right anchors are equally far in from their edges, in order left < centre < right |
| TextTexture.Split | src/components/Cover.tsx:405 | at least one line, none containing a line break |
| TextTexture.JoinSplit | src/components/Cover.tsx:405 | joining the lines with breaks restores the text |
| TextTexture.SplitJoin | src/components/Cover.tsx:405 | splitting break-free joined lines gives them back |
| TextTexture.LineCount | src/components/Cover.tsx:405-407 | there is one more line than there are line breaks |
| TextTexture.LineCharacters | src/components/Cover.tsx:405 | the lines hold every character except the breaks |
| TextTexture.CaseKeepsLines | src/components/Cover.tsx:378-405 | after any case transform, the line count and characters per text are those of the original |
| TextTexture.LineY | src/components/Cover.tsx:406-412 | line k of n sits (k − (n − 1)/2) pitches from the canvas middle |
| TextTexture.LinesCentred | src/components/Cover.tsx:406-412 | consecutive lines are one pitch apart; first and last average to the canvas middle |
| TextTexture.AdvanceIsWidthsPlusSpacing | src/components/Cover.tsx:427-430 | the pen advance is the sum of character widths plus one spacing per character |
| TextTexture.SpacedCalls | src/components/Cover.tsx:427-430 | one call per character |
| TextTexture.DrawSpaced | src/components/Cover.tsx:427-430 | the loop's calls are the characters at start plus the advance over the preceding ones |
| TextTexture.SpacedStart | src/components/Cover.tsx:417-425 | the reserved width starts at the left anchor, is centred on the canvas, or ends at the right anchor |
| TextTexture.SpacedWiderThanWholeLine | src/components/Cover.tsx:419-424 | with positive spacing the per-character width is at least the line's width, strictly more from two characters |
| TextTexture.PenReachesWidth | src/components/Cover.tsx:419-430 | with additive widths the pen reaches exactly the reserved width |
| TextTexture.SpacedExtent | src/components/Cover.tsx:419-430 | first and last characters are painted from the start to the start plus reserved width, shifted by alignment offset |
| TextTexture.GlyphGap | src/components/Cover.tsx:396-430 | the painted gap is the spacing plus the difference of the neighbours' alignment offsets |
| TextTexture.AsWrittenCentredGap | src/components/Cover.tsx:396-430 | as written, centred gaps are the spacing plus half the width difference |
| TextTexture.AsWrittenUnevenGaps | src/components/Cover.tsx:396-430 | as written, neighbours of different widths are not painted at the letter spacing (centre, right) |
| TextTexture.AsWrittenCentredShift | src/components/Cover.tsx:419-430 | as written, a centred line is shifted left by a quarter of its first and last widths |
| TextTexture.CorrectedEvenGaps | src/components/Cover.tsx:427-430 | corrected, every gap equals the spacing |
| TextTexture.CorrectedLineAligned | src/components/Cover.tsx:419-430 | corrected, the line spans the reserved width and starts at the left anchor, is centred, or ends at the right anchor |
| TextTexture.WholeLineAligned | src/components/Cover.tsx:431-433 | a whole-line call starts at the left anchor, is centred, or ends at the right anchor |
| TextTexture.LineCalls | src/components/Cover.tsx:396-434 | a spaced line makes one call per character under the `textAlign` in effect, otherwise one call under the block's alignment; every call is at the line's y |
| TextTexture.FlattenAt | src/components/Cover.tsx:411-434 | the calls of line k follow, in order, every call of the lines before it |
| TextTexture.FlattenLength | src/components/Cover.tsx:411-434 | with one call per character, the drawing makes as many calls as the lines hold characters |
| TextTexture.FlattenSingles | src/components/Cover.tsx:411-434 | with one call per line, call k is line k's call |
| TextTexture.LinesAligned | src/components/Cover.tsx:396-434 | every call is made under the `textAlign` in effect for its path |
| TextTexture.Drawing | src/components/Cover.tsx:396-434 | as written, every call of the block is made under the block's alignment, the per-character calls included |
| TextTexture.CorrectedDrawing | src/components/Cover.tsx:396-434 | corrected, per-character calls are made from the left edge and whole-line calls under the block's alignment |
| TextTexture.SpacedCallInBlock | src/components/Cover.tsx:411-430 | in a spaced block, character i of line k is drawn by the call after one call per character of the earlier lines, at its pen position |
| TextTexture.AsWrittenUnevenDrawing | src/components/Cover.tsx:396-430 | as written, in a centred or right-aligned spaced block two neighbours of different widths are not painted at the letter spacing |
| TextTexture.CorrectedEvenDrawing | src/components/Cover.tsx:396-430 | corrected, every two neighbouring characters of a spaced block are painted exactly the letter spacing apart |
| TextTexture.MakeTextTexture | src/components/Cover.tsx:354-448 | no texture exactly without a context; else the canvas, the block's font, the fill, the as-written drawing measured in that font, and a 90° UV turn for the spine |
| TextTexture.WholeLineDrawing | src/components/Cover.tsx:431-433 | spacing ≤ 0.1 mm: one call per line, at the anchor and its centred y, as many as breaks plus one |
| TextTexture.TightSpacingIgnored | src/components/Cover.tsx:414 | below the threshold the letter spacing has no effect on the drawing |
| TextTexture.PerCharacterDrawing | src/components/Cover.tsx:414-430 | spacing > 0.1 mm: one call per character of the text, line breaks excepted |
| TextTexture.DefaultBlocksSpacedAndCentred | src/components/Cover.tsx:414-421 | all three default blocks are centred and take the per-character path at 8 pixels of spacing |
| CoverScene.TargetFor | src/components/Cover.tsx:233-235 | only the spine target is rotated; every target is the front's height; front and back share the front's width |
| CoverScene.PanelTexture | src/components/Cover.tsx:232-235 | a texture exactly with a context, in the non-empty foil tint and the panel block's own font, every call under that block's alignment, turned 90° exactly on the spine |
| CoverScene.OverlayFor | src/components/Cover.tsx:245-322 | an overlay exactly when shown; its material is the foil material and its texture the panel's |
| CoverScene.Cover | src/components/Cover.tsx:40-351 | the render's rotations, spring, bitmap, paper and foil materials, three overlays (each drawn in its own block's font) and card stack each equal their definitions |
| CoverScene.PanelCanvases | src/components/Cover.tsx:233-235 | front and back canvases are 640 × 880, the spine canvas 880 × 60 |
| CoverScene.SpineFontTallerThanCanvas | src/components/Cover.tsx:393 | every allowed spine size gives an em box of ≥ 64 pixels, taller than the 60-pixel spine canvas |
| CoverScene.NoFoilNoOverlays | src/components/Cover.tsx:246 | foil `none`: no overlay on any panel |
| CoverScene.OverlaysTogether | src/components/Cover.tsx:246-312 | the three overlays appear together, in one material |
| CoverScene.MetallicOverlaysIgnoreFoilColor | src/components/Cover.tsx:196-235 | a metallic finish paints identical overlays whatever the foil colour |
| AppSettings.AssembleSettings | src/App.tsx:181-228 | the spine block's line height, case and alignment are the default spine block's |
| AppSettings.AssembleKeepsControls | src/App.tsx:181-228 | every control value survives into the settings |
| AppSettings.AssembleReachable | src/App.tsx:219-227 | a settings record comes from the controls exactly when its spine line height, case and alignment are the defaults |
| AppSettings.DefaultControls | src/App.tsx:14-179 | the controls seeded from the defaults assemble back into exactly the default settings |
| AppSettings.ControlsInRange | src/App.tsx:21-177 | within the slider ranges every font size and line height is positive |
| AppSettings.Displayed | src/App.tsx:21-77 | with the default controls exactly the texture intensity, the foil colour and the deboss depth are displayed |
| AppSettings.RangesPreserved | src/App.tsx:21-178 | defaults are within the slider ranges; controls are in range exactly when the settings are |
| AppSettings.InRangeMotion | src/App.tsx:21-33 | in-range controls keep the panels between 0° and −90° and the tension within [17, 510] |
| AppSettings.ResolvePaperColor | src/App.tsx:230-233 | the custom colour when chosen, otherwise the swatch's hex value, which is a valid hex colour |
| AppSettings.PaperColorIndependence | src/App.tsx:230-233 | the custom colour is ignored while off, the swatch while on |
| AppSettings.DefaultToggleKeepsColor | src/App.tsx:42-46 | the default colour is `#1a1a1a`, and switching to the custom colour keeps it |
| AppSettings.CoverPropsFor | src/App.tsx:243-246 | the cover receives the resolved paper colour |
| AppSettings.OpenAngleShownWhenItMatters | src/App.tsx:21-27 | the open angle is displayed exactly when changing it changes the rotations |
| AppSettings.HiddenCustomColorInert | src/App.tsx:43-46 | a hidden custom colour cannot change the paper colour |
| AppSettings.FoilColorShownWhenItMatters | src/App.tsx:63-66 | a hidden foil colour changes neither material nor tint; for gloss and matte it changes the material |

## Left out

- The scene graph is not modelled: meshes, groups, positions, box and plane geometry, shadows, transparency, `depthWrite`, lights and camera. Only the values and conditions that feed it are.
- Spring motion over time is not modelled, only the spring configuration. It belongs to the animation library.
- Bump-map wrapping, the 4 × 4 repeat, colour space, `needsUpdate` and the UV rotation centre are texture-object settings. The model keeps only the bitmap, its presence and the rotation angle.
- Canvas drawing state beyond the calls is not modelled: `clearRect`, `textBaseline = 'middle'`, the font string format, and the integer truncation of `canvas.width` and `canvas.height`. All panel sizes here are whole pixels.
- The four `getContext('2d')` calls (Cover.tsx:62 for the paper canvas, and Cover.tsx:372 once per panel) are assumed to give the same answer: one `contextAvailable` stands for all of them. A browser without a 2D canvas fails all four. Separate outcomes per canvas are not modelled, so `CoverScene.OverlaysTogether` and the coupling of the bump map to the text textures rest on this assumption.
- Floating point is not modelled: all arithmetic is on exact reals, and `Math.random` values are arbitrary inputs.
- Text measurement is an arbitrary function. The alignment lemmas assume that a line's width is the sum of its characters' widths, that is, no kerning.
- The Google Fonts stylesheet loading effect and `textureRef` are not modelled (Cover.tsx:450-471). They are network and DOM side effects.
- Memoisation (which dependency change regenerates which texture) is not modelled. Every render is computed afresh.
- `debossEnabled` and `debossDepth` are accepted and carried through, but the cover never uses them.
- Text is a sequence of characters. The code indexes UTF-16 code units (`line[i]`, `line.length`), so a character outside the Basic Multilingual Plane is drawn as two calls of lone surrogates and counts twice in the reserved width. This is not modelled.
- Case mapping is ASCII only. `toUpperCase` and `toLowerCase` on other letters are not modelled.
- Paper-colour names (the kebab-case keys) are not modelled as strings. Swatches are constructors, and the option list is the 27 constructors.
- Slider step sizes and the control panel widgets are not modelled, only ranges and display conditions. Scene.tsx is not part of this model. `CoverPropsFor` forwards the settings to the cover as Scene.tsx does.

## Findings

| source | as written | input that shows it | evidently intended | confidence | as-written member | corrected member |
|---|---|---|---|---|---|---|
| src/components/Cover.tsx:396-430 | per-character drawing keeps `textAlign` at the block's alignment, so each character is centred on (centre) or ends at (right) the pen position computed for its left edge; gaps become spacing + (wᵢ − wᵢ₊₁)/2 or spacing + wᵢ − wᵢ₊₁, and a centred line sits left of the middle | any centred or right-aligned line with letter spacing above 0.1 mm whose neighbouring characters differ in width, e.g. the default "SIT WITH THAT" (centred, 0.5 mm) | each character drawn from its left edge during the per-character loop, so every gap is the letter spacing and the line is centred or ends at the right anchor | high, not executed | TextTexture.AsWrittenUnevenDrawing | TextTexture.CorrectedEvenDrawing |
