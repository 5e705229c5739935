/**
 * The text-texture generator (src/components/Cover.tsx, `useTextTexture`):
 * size an off-screen canvas for a panel, apply the case transform, split the
 * text into lines, centre the block vertically, anchor each line
 * horizontally, and draw each line either in one call or character by
 * character with manual letter spacing.
 *
 * The canvas is modelled by the `fillText` calls made on it. Text width
 * (`measureText(s).width`) depends on the font set on the canvas: the
 * texture takes it as `measure: Font -> string -> real`, and the drawing of
 * one block uses `measure(FontOf(t))`, its width under the block's own font.
 * Nothing is assumed about widths except where a lemma says so.
 */
module TextTexture {
  import opened Types
  import opened Wrappers
  import CaseTransform

  /** Canvas pixels per scene unit are 100 * Resolution, i.e. 4 pixels per millimetre. */
  const Resolution: real := 4.0

  /** Letter spacing above this many millimetres switches to per-character drawing. */
  const SpacingThreshold: real := 0.1

  datatype Canvas = Canvas(w: real, h: real)

  /**
   * The canvas for a panel of `width` x `height` scene units. A rotated panel
   * (the spine, whose text runs along its length) gets the two sides swapped.
   */
  function CanvasFor(width: real, height: real, rotated: bool): (c: Canvas)
    ensures c.w * c.h == (width * 100.0 * Resolution) * (height * 100.0 * Resolution)
    ensures width > 0.0 && height > 0.0 ==> c.w > 0.0 && c.h > 0.0
    ensures rotated ==> c.w == height * 400.0 && c.h == width * 400.0
    ensures !rotated ==> c.w == width * 400.0 && c.h == height * 400.0
  {
    if rotated then Canvas(height * 100.0 * Resolution, width * 100.0 * Resolution)
    else Canvas(width * 100.0 * Resolution, height * 100.0 * Resolution)
  }

  /** Rotating swaps the two canvas sides and nothing else. */
  lemma RotationSwapsCanvas(width: real, height: real)
    ensures CanvasFor(width, height, true) == Canvas(CanvasFor(width, height, false).h, CanvasFor(width, height, false).w)
  {
  }

  /** The font size in canvas pixels: the millimetre setting times 4 times the resolution, 16 pixels per millimetre. */
  function FontPx(fontSize: real): (px: real)
    ensures px == 16.0 * fontSize
    ensures px > 0.0 <==> fontSize > 0.0
  {
    fontSize * 4.0 * Resolution
  }

  /**
   * The letter spacing in canvas pixels, scaled exactly like the font; a
   * spacing that selects per-character drawing is more than 1.6 pixels.
   */
  function SpacingPx(letterSpacing: real): (px: real)
    ensures px == FontPx(letterSpacing)
    ensures letterSpacing > SpacingThreshold ==> px > 1.6
  {
    letterSpacing * 4.0 * Resolution
  }

  /** The canvas font: pixel size and family, falling back to sans-serif. */
  datatype Font = Font(px: real, family: string)

  /** The font a block is set in on its canvas. */
  function FontOf(t: Typography): (f: Font)
    ensures f.px == FontPx(t.fontSize) && f.family == t.fontFamily
  {
    Font(FontPx(t.fontSize), t.fontFamily)
  }

  /**
   * Two blocks are set in the same font exactly when they share size and
   * family, whatever their text, spacing, case or alignment.
   */
  lemma SameFontExactlyForSameSizeAndFamily(a: Typography, b: Typography)
    ensures FontOf(a) == FontOf(b) <==> a.fontSize == b.fontSize && a.fontFamily == b.fontFamily
  {
    if FontOf(a) == FontOf(b) {
      assert 16.0 * a.fontSize == 16.0 * b.fontSize;
    }
  }

  /**
   * Since the canvas has 4 pixels per millimetre of panel while the font is
   * scaled by 16 pixels per millimetre of setting, a font size of f mm is
   * drawn 4 f mm tall on the panel.
   */
  lemma FontScaleOnPanel(fontSize: real, panelMm: real)
    ensures FontPx(fontSize) == 4.0 * (fontSize * (Resolution * 100.0 * 0.01))
    ensures CanvasFor(panelMm * 0.01, 1.0, false).w == panelMm * Resolution
  {
  }

  /** Whether a block is drawn character by character. */
  predicate Spaced(t: Typography)
  {
    t.letterSpacing > SpacingThreshold
  }

  /**
   * The line anchor per alignment: 10% in from the left edge, the middle,
   * or 10% in from the right edge; left and right mirror each other.
   */
  function AnchorX(alignment: Alignment, canvasW: real): (x: real)
    ensures canvasW >= 0.0 ==> 0.0 <= x <= canvasW
    ensures alignment == Center ==> x == canvasW - x
  {
    match alignment
    case Left => canvasW * 0.1
    case Center => canvasW / 2.0
    case Right => canvasW * 0.9
  }

  /** The left and right anchors lie the same distance in from their edges. */
  lemma AnchorsMirror(canvasW: real)
    ensures AnchorX(Left, canvasW) + AnchorX(Right, canvasW) == canvasW
    ensures AnchorX(Left, canvasW) < AnchorX(Center, canvasW) < AnchorX(Right, canvasW) <==> canvasW > 0.0
  {
  }

  // ---------------------------------------------------------------------
  // Lines

  /** Occurrences of `c` in `s`. */
  function Count(s: string, c: char): nat
  {
    if s == [] then 0 else (if s[0] == c then 1 else 0) + Count(s[1..], c)
  }

  /** `text.split('\n')`: the pieces between line breaks; the empty text is one empty line. */
  function Split(s: string): (lines: seq<string>)
    ensures |lines| >= 1
    ensures forall k :: 0 <= k < |lines| ==> '\n' !in lines[k]
  {
    if s == [] then [""]
    else
      var rest := Split(s[1..]);
      if s[0] == '\n' then [""] + rest
      else [[s[0]] + rest[0]] + rest[1..]
  }

  /** Lines joined back with line breaks. */
  function Join(lines: seq<string>): string
  {
    if |lines| == 0 then ""
    else if |lines| == 1 then lines[0]
    else lines[0] + "\n" + Join(lines[1..])
  }

  /** Joining the pieces restores the text. */
  lemma {:induction false} JoinSplit(s: string)
    ensures Join(Split(s)) == s
  {
    if s != [] {
      var rest := Split(s[1..]);
      JoinSplit(s[1..]);
      if s[0] == '\n' {
        assert Split(s) == [""] + rest;
        assert ([""] + rest)[1..] == rest;
        assert Join(Split(s)) == "" + "\n" + Join(rest);
      } else {
        var lines := [[s[0]] + rest[0]] + rest[1..];
        assert Split(s) == lines;
        if |rest| == 1 {
          assert Join(lines) == [s[0]] + rest[0];
        } else {
          assert lines[1..] == rest[1..];
          assert Join(rest) == rest[0] + "\n" + Join(rest[1..]);
          assert Join(lines) == ([s[0]] + rest[0]) + "\n" + Join(rest[1..]);
        }
      }
    }
  }

  /** Splitting joined lines that contain no line break gives the lines back. */
  lemma {:induction false} SplitJoin(lines: seq<string>)
    requires |lines| >= 1
    requires forall k :: 0 <= k < |lines| ==> '\n' !in lines[k]
    ensures Split(Join(lines)) == lines
  {
    if |lines| == 1 {
      SplitLine(lines[0], []);
      assert lines[0] + [] == lines[0];
      assert Split([]) == [""];
    } else {
      var tail := "\n" + Join(lines[1..]);
      SplitJoin(lines[1..]);
      assert Join(lines) == lines[0] + tail;
      SplitLine(lines[0], tail);
      assert tail[0] == '\n' && tail[1..] == Join(lines[1..]);
      assert Split(tail) == [""] + lines[1..];
      assert Split(tail)[0] == "" && Split(tail)[1..] == lines[1..];
      assert lines[0] + "" == lines[0];
      assert lines == [lines[0]] + lines[1..];
    }
  }

  /** A break-free prefix joins the first piece of whatever follows it. */
  lemma {:induction false} SplitLine(line: string, rest: string)
    requires '\n' !in line
    requires rest == [] || rest[0] == '\n'
    ensures Split(line + rest) == [line + Split(rest)[0]] + Split(rest)[1..]
  {
    if line == [] {
      assert line + rest == rest;
      assert Split(rest) == [Split(rest)[0]] + Split(rest)[1..];
    } else {
      assert (line + rest)[0] == line[0];
      assert (line + rest)[1..] == line[1..] + rest;
      SplitLine(line[1..], rest);
      assert [line[0]] + (line[1..] + Split(rest)[0]) == line + Split(rest)[0];
    }
  }

  /** There is one more line than there are line breaks. */
  lemma {:induction false} LineCount(s: string)
    ensures |Split(s)| == Count(s, '\n') + 1
  {
    if s != [] {
      LineCount(s[1..]);
    }
  }

  /** Total number of characters over all lines. */
  function TotalLength(lines: seq<string>): nat
  {
    if lines == [] then 0 else |lines[0]| + TotalLength(lines[1..])
  }

  lemma {:induction false} TotalLengthSnoc(lines: seq<string>, line: string)
    ensures TotalLength(lines + [line]) == TotalLength(lines) + |line|
  {
    if lines != [] {
      assert (lines + [line])[1..] == lines[1..] + [line];
      TotalLengthSnoc(lines[1..], line);
    }
  }

  /** The lines hold every character of the text except the line breaks. */
  lemma {:induction false} LineCharacters(s: string)
    ensures TotalLength(Split(s)) == |s| - Count(s, '\n')
  {
    if s != [] {
      LineCharacters(s[1..]);
      var rest := Split(s[1..]);
      if s[0] == '\n' {
        assert ([""] + rest)[1..] == rest;
      } else {
        assert ([[s[0]] + rest[0]] + rest[1..])[1..] == rest[1..];
      }
    }
  }

  /** Two texts with line breaks in the same places have the same number of them. */
  lemma {:induction false} SameBreaksSameCount(a: string, b: string)
    requires |a| == |b|
    requires forall i :: 0 <= i < |a| ==> (a[i] == '\n' <==> b[i] == '\n')
    ensures Count(a, '\n') == Count(b, '\n')
  {
    if a != [] {
      SameBreaksSameCount(a[1..], b[1..]);
    }
  }

  /** The case transform keeps the number of lines and the characters on them. */
  lemma CaseKeepsLines(s: string, textCase: TextCase)
    ensures |Split(CaseTransform.ApplyCase(s, textCase))| == Count(s, '\n') + 1
    ensures TotalLength(Split(CaseTransform.ApplyCase(s, textCase))) == |s| - Count(s, '\n')
  {
    var t := CaseTransform.ApplyCase(s, textCase);
    forall i | 0 <= i < |s| ensures t[i] == '\n' <==> s[i] == '\n'
    {
      CaseTransform.KeepsLineBreaks(s, textCase, i);
    }
    SameBreaksSameCount(t, s);
    LineCount(t);
    LineCharacters(t);
  }

  // ---------------------------------------------------------------------
  // Vertical placement

  /** The distance between consecutive baselines: the pixel font size times the line height. */
  function LinePitch(t: Typography): real
  {
    FontPx(t.fontSize) * t.lineHeight
  }

  /**
   * The y of line `k` of `n`: half a pitch below the top of a block centred
   * in the canvas, that is, k - (n - 1)/2 pitches from the canvas middle.
   */
  function LineY(canvasH: real, pitch: real, n: nat, k: nat): (y: real)
    ensures y == canvasH / 2.0 + (k as real - (n as real - 1.0) / 2.0) * pitch
  {
    assert (k as real - (n as real - 1.0) / 2.0) * pitch == k as real * pitch - n as real * pitch / 2.0 + pitch / 2.0;
    (canvasH - n as real * pitch) / 2.0 + pitch / 2.0 + k as real * pitch
  }

  /**
   * Consecutive lines are exactly one pitch apart, and the first and last
   * line average to the middle of the canvas: the block is centred.
   */
  lemma LinesCentred(canvasH: real, pitch: real, n: nat, k: nat)
    requires n >= 1
    ensures LineY(canvasH, pitch, n, k + 1) - LineY(canvasH, pitch, n, k) == pitch
    ensures LineY(canvasH, pitch, n, 0) + LineY(canvasH, pitch, n, n - 1) == canvasH
  {
    assert (k + 1) as real * pitch == k as real * pitch + pitch;
    assert (n - 1) as real * pitch == n as real * pitch - pitch;
  }

  // ---------------------------------------------------------------------
  // Drawing

  /** One `fillText(text, x, y)` call, with the `textAlign` then in effect. */
  datatype FillText = FillText(text: string, x: real, y: real, align: Alignment)

  /** How far left of `x` a text of width `w` starts under an alignment. */
  function AlignOffset(align: Alignment, w: real): real
  {
    match align
    case Left => 0.0
    case Center => w / 2.0
    case Right => w
  }

  /** Left and right edges of what a call paints. */
  function InkLeft(call: FillText, measure: string -> real): real
  {
    call.x - AlignOffset(call.align, measure(call.text))
  }

  function InkRight(call: FillText, measure: string -> real): real
  {
    InkLeft(call, measure) + measure(call.text)
  }

  /** Sum of the single-character widths of `s`. */
  function SumWidths(s: string, measure: string -> real): real
  {
    if s == [] then 0.0 else SumWidths(s[..|s| - 1], measure) + measure([s[|s| - 1]])
  }

  /** How far the pen has moved after drawing `s`: each character's width plus the spacing. */
  function Advance(s: string, spacing: real, measure: string -> real): real
  {
    if s == [] then 0.0 else Advance(s[..|s| - 1], spacing, measure) + measure([s[|s| - 1]]) + spacing
  }

  lemma {:induction false} AdvanceIsWidthsPlusSpacing(s: string, spacing: real, measure: string -> real)
    ensures Advance(s, spacing, measure) == SumWidths(s, measure) + |s| as real * spacing
  {
    if s != [] {
      AdvanceIsWidthsPlusSpacing(s[..|s| - 1], spacing, measure);
      assert (|s| - 1) as real * spacing + spacing == |s| as real * spacing;
    }
  }

  /**
   * The calls of per-character drawing: character i at the start plus the
   * advance over the characters before it, with `glyphAlign` in effect.
   */
  function SpacedCalls(line: string, startX: real, y: real, spacing: real, glyphAlign: Alignment,
                       measure: string -> real): (calls: seq<FillText>)
    ensures |calls| == |line|
  {
    seq(|line|, i requires 0 <= i < |line| =>
      FillText([line[i]], startX + Advance(line[..i], spacing, measure), y, glyphAlign))
  }

  /**
   * The per-character loop: draws each character at the pen position, then
   * moves the pen on by that character's width plus the spacing.
   */
  method DrawSpaced(line: string, startX: real, y: real, spacing: real, glyphAlign: Alignment,
                    measure: string -> real) returns (calls: seq<FillText>)
    ensures calls == SpacedCalls(line, startX, y, spacing, glyphAlign, measure)
  {
    calls := [];
    var currentX := startX;
    var i := 0;
    while i < |line|
      invariant 0 <= i <= |line|
      invariant currentX == startX + Advance(line[..i], spacing, measure)
      invariant calls == SpacedCalls(line, startX, y, spacing, glyphAlign, measure)[..i]
    {
      calls := calls + [FillText([line[i]], currentX, y, glyphAlign)];
      assert line[..i + 1][..i] == line[..i];
      currentX := currentX + measure([line[i]]) + spacing;
      i := i + 1;
    }
  }

  /**
   * The width the per-character layout reserves for a line: the spacing
   * between characters plus the width of the whole line.
   */
  function SpacedWidth(line: string, spacing: real, measure: string -> real): real
  {
    (|line| - 1) as real * spacing + measure(line)
  }

  /** Where per-character drawing starts the pen: the left anchor, or the reserved width back from the middle or the right anchor. */
  function SpacedStart(alignment: Alignment, canvasW: real, line: string, spacing: real,
                       measure: string -> real): (x: real)
    ensures alignment == Left ==> x == AnchorX(Left, canvasW)
    ensures alignment == Center ==> x + (x + SpacedWidth(line, spacing, measure)) == canvasW
    ensures alignment == Right ==> x + SpacedWidth(line, spacing, measure) == AnchorX(Right, canvasW)
  {
    match alignment
    case Left => AnchorX(Left, canvasW)
    case Center => (canvasW - SpacedWidth(line, spacing, measure)) / 2.0
    case Right => AnchorX(Right, canvasW) - SpacedWidth(line, spacing, measure)
  }

  /**
   * With positive spacing the per-character layout reserves at least the
   * width of the whole line, and strictly more once the line has two
   * characters: the spacing adds width, never removes it.
   */
  lemma SpacedWiderThanWholeLine(line: string, spacing: real, measure: string -> real)
    requires |line| >= 1 && spacing > 0.0
    ensures SpacedWidth(line, spacing, measure) >= measure(line)
    ensures |line| >= 2 ==> SpacedWidth(line, spacing, measure) > measure(line)
  {
    var gaps := (|line| - 1) as real;
    assert gaps >= 0.0;
    assert gaps * spacing >= 0.0 by {
      if gaps > 0.0 {
        assert gaps * spacing > 0.0 * spacing;
      }
    }
    if |line| >= 2 {
      assert gaps >= 1.0;
      assert gaps * spacing >= 1.0 * spacing;
    }
  }

  /**
   * With widths that add up, the pen after every character but the last,
   * plus the last character's width, is the width the layout reserves.
   */
  lemma PenReachesWidth(line: string, spacing: real, measure: string -> real)
    requires |line| >= 1
    requires measure(line) == SumWidths(line, measure)
    ensures Advance(line[..|line| - 1], spacing, measure) + measure([line[|line| - 1]]) == SpacedWidth(line, spacing, measure)
  {
    var pre := line[..|line| - 1];
    AdvanceIsWidthsPlusSpacing(pre, spacing, measure);
    assert measure(line) == SumWidths(pre, measure) + measure([line[|line| - 1]]);
  }

  /**
   * With widths that add up, the first character is painted from the start
   * and the last one ends at the start plus the reserved width, each shifted
   * by its alignment offset.
   */
  lemma SpacedExtent(line: string, startX: real, y: real, spacing: real, glyphAlign: Alignment,
                     measure: string -> real)
    requires |line| >= 1
    requires measure(line) == SumWidths(line, measure)
    ensures InkLeft(SpacedCalls(line, startX, y, spacing, glyphAlign, measure)[0], measure)
         == startX - AlignOffset(glyphAlign, measure([line[0]]))
    ensures InkRight(SpacedCalls(line, startX, y, spacing, glyphAlign, measure)[|line| - 1], measure)
         == startX + SpacedWidth(line, spacing, measure) - AlignOffset(glyphAlign, measure([line[|line| - 1]]))
  {
    var calls := SpacedCalls(line, startX, y, spacing, glyphAlign, measure);
    assert line[..0] == [];
    assert calls[0].x == startX;
    assert calls[|line| - 1].x == startX + Advance(line[..|line| - 1], spacing, measure);
    PenReachesWidth(line, spacing, measure);
  }

  /**
   * The gap between consecutive characters as painted: the spacing, shifted
   * by the difference of the two characters' alignment offsets.
   */
  lemma GlyphGap(line: string, startX: real, y: real, spacing: real, glyphAlign: Alignment,
                 measure: string -> real, i: nat)
    requires i + 1 < |line|
    ensures var calls := SpacedCalls(line, startX, y, spacing, glyphAlign, measure);
      InkLeft(calls[i + 1], measure) - InkRight(calls[i], measure)
      == spacing + AlignOffset(glyphAlign, measure([line[i]])) - AlignOffset(glyphAlign, measure([line[i + 1]]))
  {
    assert line[..i + 1][..i] == line[..i];
  }

  /**
   * As written, the per-character loop keeps `textAlign` at the block's
   * alignment. For centred text each character is then centred on the pen
   * position meant for its left edge, so the gap between two characters is
   * the spacing plus half the difference of their widths.
   */
  lemma AsWrittenCentredGap(line: string, startX: real, y: real, spacing: real,
                            measure: string -> real, i: nat)
    requires i + 1 < |line|
    ensures var calls := SpacedCalls(line, startX, y, spacing, Center, measure);
      InkLeft(calls[i + 1], measure) - InkRight(calls[i], measure)
      == spacing + (measure([line[i]]) - measure([line[i + 1]])) / 2.0
  {
    GlyphGap(line, startX, y, spacing, Center, measure, i);
  }

  /**
   * Any two neighbouring characters of different widths (an `S` followed by
   * an `I` in a proportional font) are painted at a gap other than the
   * letter spacing, for centred and for right-aligned text.
   */
  lemma AsWrittenUnevenGaps(line: string, startX: real, y: real, spacing: real, glyphAlign: Alignment,
                            measure: string -> real, i: nat)
    requires i + 1 < |line| && glyphAlign != Left
    requires measure([line[i]]) != measure([line[i + 1]])
    ensures var calls := SpacedCalls(line, startX, y, spacing, glyphAlign, measure);
      InkLeft(calls[i + 1], measure) - InkRight(calls[i], measure) != spacing
  {
    GlyphGap(line, startX, y, spacing, glyphAlign, measure, i);
  }

  /**
   * As written, with widths that add up, a centred line's painted extent is
   * shifted left of the middle by a quarter of its first and last widths.
   */
  lemma AsWrittenCentredShift(line: string, canvasW: real, y: real, spacing: real, measure: string -> real)
    requires |line| >= 1
    requires measure(line) == SumWidths(line, measure)
    ensures var calls := SpacedCalls(line, SpacedStart(Center, canvasW, line, spacing, measure), y, spacing, Center, measure);
      InkLeft(calls[0], measure) + InkRight(calls[|line| - 1], measure)
      == canvasW - (measure([line[0]]) + measure([line[|line| - 1]])) / 2.0
  {
    SpacedExtent(line, SpacedStart(Center, canvasW, line, spacing, measure), y, spacing, Center, measure);
  }

  /** Corrected: with each character drawn from its left edge, every gap is exactly the letter spacing. */
  lemma CorrectedEvenGaps(line: string, startX: real, y: real, spacing: real, measure: string -> real, i: nat)
    requires i + 1 < |line|
    ensures var calls := SpacedCalls(line, startX, y, spacing, Left, measure);
      InkLeft(calls[i + 1], measure) - InkRight(calls[i], measure) == spacing
  {
    GlyphGap(line, startX, y, spacing, Left, measure, i);
  }

  /**
   * Corrected: with widths that add up, the painted line starts at the left
   * anchor, is centred on the middle, or ends at the right anchor, exactly as
   * the whole-line drawing places it.
   */
  lemma CorrectedLineAligned(alignment: Alignment, line: string, canvasW: real, y: real, spacing: real,
                             measure: string -> real)
    requires |line| >= 1
    requires measure(line) == SumWidths(line, measure)
    ensures var calls := SpacedCalls(line, SpacedStart(alignment, canvasW, line, spacing, measure), y, spacing, Left, measure);
      && InkRight(calls[|line| - 1], measure) - InkLeft(calls[0], measure) == SpacedWidth(line, spacing, measure)
      && (alignment == Left ==> InkLeft(calls[0], measure) == AnchorX(Left, canvasW))
      && (alignment == Center ==> InkLeft(calls[0], measure) + InkRight(calls[|line| - 1], measure) == canvasW)
      && (alignment == Right ==> InkRight(calls[|line| - 1], measure) == AnchorX(Right, canvasW))
  {
    SpacedExtent(line, SpacedStart(alignment, canvasW, line, spacing, measure), y, spacing, Left, measure);
  }

  /**
   * Whole-line drawing paints a line starting at the left anchor, centred on
   * the middle, or ending at the right anchor.
   */
  lemma WholeLineAligned(alignment: Alignment, line: string, canvasW: real, y: real, measure: string -> real)
    ensures var call := FillText(line, AnchorX(alignment, canvasW), y, alignment);
      && (alignment == Left ==> InkLeft(call, measure) == AnchorX(Left, canvasW))
      && (alignment == Center ==> InkLeft(call, measure) + InkRight(call, measure) == canvasW)
      && (alignment == Right ==> InkRight(call, measure) == AnchorX(Right, canvasW))
  {
  }

  /**
   * The calls for line `k` of `n`, with `glyphAlign` the `textAlign` in
   * effect during per-character drawing: one whole-line call at the anchor
   * when the spacing is at most the threshold, otherwise one call per
   * character. Every call of the line is at the line's y.
   */
  function LineCalls(t: Typography, c: Canvas, measure: string -> real, glyphAlign: Alignment,
                     line: string, n: nat, k: nat): (calls: seq<FillText>)
    ensures |calls| == if Spaced(t) then |line| else 1
    ensures forall i :: 0 <= i < |calls| ==>
      calls[i].align == (if Spaced(t) then glyphAlign else t.alignment) && calls[i].y == LineY(c.h, LinePitch(t), n, k)
  {
    var y := LineY(c.h, LinePitch(t), n, k);
    if Spaced(t) then
      var spacing := SpacingPx(t.letterSpacing);
      SpacedCalls(line, SpacedStart(t.alignment, c.w, line, spacing, measure), y, spacing, glyphAlign, measure)
    else
      [FillText(line, AnchorX(t.alignment, c.w), y, t.alignment)]
  }

  /** The calls of every line of `lines`, line by line. */
  function PerLineCalls(t: Typography, c: Canvas, measure: string -> real, glyphAlign: Alignment,
                        lines: seq<string>): (parts: seq<seq<FillText>>)
    ensures |parts| == |lines|
    ensures forall k :: 0 <= k < |lines| ==> parts[k] == LineCalls(t, c, measure, glyphAlign, lines[k], |lines|, k)
  {
    seq(|lines|, k requires 0 <= k < |lines| => LineCalls(t, c, measure, glyphAlign, lines[k], |lines|, k))
  }

  /** The parts joined in order. */
  function Flatten<T>(parts: seq<seq<T>>): seq<T>
  {
    if parts == [] then [] else Flatten(parts[..|parts| - 1]) + parts[|parts| - 1]
  }

  /** Element `i` of part `k` follows every element of the parts before it. */
  lemma {:induction false} FlattenAt<T>(parts: seq<seq<T>>, k: nat, i: nat)
    requires k < |parts| && i < |parts[k]|
    ensures |Flatten(parts[..k])| + i < |Flatten(parts)|
    ensures Flatten(parts)[|Flatten(parts[..k])| + i] == parts[k][i]
  {
    var n := |parts|;
    var init := parts[..n - 1];
    assert Flatten(parts) == Flatten(init) + parts[n - 1];
    if k == n - 1 {
      assert init == parts[..k];
    } else {
      FlattenAt(init, k, i);
      assert init[..k] == parts[..k];
    }
  }

  /** Parts as long as the lines hold as many elements as the lines hold characters. */
  lemma {:induction false} FlattenLength<T>(parts: seq<seq<T>>, lines: seq<string>)
    requires |parts| == |lines|
    requires forall k :: 0 <= k < |parts| ==> |parts[k]| == |lines[k]|
    ensures |Flatten(parts)| == TotalLength(lines)
  {
    if parts != [] {
      var n := |parts|;
      FlattenLength(parts[..n - 1], lines[..n - 1]);
      assert lines == lines[..n - 1] + [lines[n - 1]];
      TotalLengthSnoc(lines[..n - 1], lines[n - 1]);
    }
  }

  /** Parts of one element each flatten to those elements, in order. */
  lemma {:induction false} FlattenSingles<T>(parts: seq<seq<T>>)
    requires forall k :: 0 <= k < |parts| ==> |parts[k]| == 1
    ensures |Flatten(parts)| == |parts|
    ensures forall k :: 0 <= k < |parts| ==> Flatten(parts)[k] == parts[k][0]
  {
    if parts != [] {
      FlattenSingles(parts[..|parts| - 1]);
    }
  }

  /** When every call of every part is made under `align`, so is every call of the whole. */
  lemma {:induction false} FlattenAligned(parts: seq<seq<FillText>>, align: Alignment)
    requires forall k, j :: 0 <= k < |parts| && 0 <= j < |parts[k]| ==> parts[k][j].align == align
    ensures forall i :: 0 <= i < |Flatten(parts)| ==> Flatten(parts)[i].align == align
  {
    if parts != [] {
      var init := parts[..|parts| - 1];
      FlattenAligned(init, align);
      var last := parts[|parts| - 1];
      forall i | 0 <= i < |Flatten(parts)| ensures Flatten(parts)[i].align == align {
        if i >= |Flatten(init)| {
          assert Flatten(parts)[i] == last[i - |Flatten(init)|];
        }
      }
    }
  }

  /** Every call of every line is made under `glyphAlign` when spaced, under the block's alignment otherwise. */
  lemma LinesAligned(t: Typography, c: Canvas, measure: string -> real, glyphAlign: Alignment, lines: seq<string>)
    ensures var parts := PerLineCalls(t, c, measure, glyphAlign, lines);
      forall i :: 0 <= i < |Flatten(parts)| ==> Flatten(parts)[i].align == (if Spaced(t) then glyphAlign else t.alignment)
  {
    var parts: seq<seq<FillText>> := PerLineCalls(t, c, measure, glyphAlign, lines);
    var align := if Spaced(t) then glyphAlign else t.alignment;
    forall k: nat, j: nat | k < |parts| && j < |parts[k]| ensures parts[k][j].align == align {
      assert parts[k] == LineCalls(t, c, measure, glyphAlign, lines[k], |lines|, k);
    }
    FlattenAligned(parts, align);
  }

  /** The text a block draws: its text with the case transform applied. */
  function CasedText(t: Typography): string
  {
    CaseTransform.ApplyCase(t.text, t.textCase)
  }

  /**
   * Every call drawing a block on a canvas, as the code makes them:
   * `textAlign` is set once to the block's alignment and stays in effect
   * for the per-character calls too.
   */
  function Drawing(t: Typography, c: Canvas, measure: Font -> string -> real): (calls: seq<FillText>)
    ensures forall i :: 0 <= i < |calls| ==> calls[i].align == t.alignment
  {
    var lines := Split(CasedText(t));
    LinesAligned(t, c, measure(FontOf(t)), t.alignment, lines);
    Flatten(PerLineCalls(t, c, measure(FontOf(t)), t.alignment, lines))
  }

  /**
   * The drawing with each spaced character drawn from its left edge, the
   * placement the per-character pen positions are computed for.
   */
  function CorrectedDrawing(t: Typography, c: Canvas, measure: Font -> string -> real): (calls: seq<FillText>)
    ensures forall i :: 0 <= i < |calls| ==> calls[i].align == (if Spaced(t) then Left else t.alignment)
  {
    var lines := Split(CasedText(t));
    LinesAligned(t, c, measure(FontOf(t)), Left, lines);
    Flatten(PerLineCalls(t, c, measure(FontOf(t)), Left, lines))
  }

  /** A finished text texture: its canvas, the drawing state, the calls, and the UV rotation in degrees. */
  datatype TextTexture = TextTexture(canvas: Canvas, font: Font, fill: string, calls: seq<FillText>, uvRotation: real)

  /**
   * The texture memo. Without a 2D context there is no texture. Otherwise
   * the canvas is sized for the panel, the block's font is set, the text is
   * case-transformed and split, and each line is drawn at its centred y
   * with widths measured in that font; the spine's texture is turned by 90
   * degrees so that its text runs along the spine.
   */
  method MakeTextTexture(t: Typography, width: real, height: real, color: string, rotated: bool,
                         contextAvailable: bool, measure: Font -> string -> real)
    returns (tex: Option<TextTexture>)
    ensures tex.None? <==> !contextAvailable
    ensures tex.Some? ==> tex.value.canvas == CanvasFor(width, height, rotated)
    ensures tex.Some? ==> tex.value.font == FontOf(t) && tex.value.fill == color
    ensures tex.Some? ==> tex.value.calls == Drawing(t, tex.value.canvas, measure)
    ensures tex.Some? ==> tex.value.uvRotation == (if rotated then 90.0 else 0.0)
  {
    var canvas := CanvasFor(width, height, rotated);
    if !contextAvailable {
      return None;
    }
    var text := CaseTransform.ApplyCase(t.text, t.textCase);
    var font := FontOf(t);
    var widths := measure(font);
    var lines := Split(text);
    ghost var parts := PerLineCalls(t, canvas, widths, t.alignment, lines);
    var calls: seq<FillText> := [];
    var k := 0;
    while k < |lines|
      invariant 0 <= k <= |lines|
      invariant calls == Flatten(parts[..k])
    {
      assert parts[..k + 1][..k] == parts[..k];
      var line := lines[k];
      var y := LineY(canvas.h, LinePitch(t), |lines|, k);
      if Spaced(t) {
        var spacing := SpacingPx(t.letterSpacing);
        var lineCalls := DrawSpaced(line, SpacedStart(t.alignment, canvas.w, line, spacing, widths), y, spacing,
                                    t.alignment, widths);
        calls := calls + lineCalls;
      } else {
        calls := calls + [FillText(line, AnchorX(t.alignment, canvas.w), y, t.alignment)];
      }
      k := k + 1;
    }
    assert parts[..k] == parts;
    tex := Some(TextTexture(canvas, font, color, calls, if rotated then 90.0 else 0.0));
  }

  // ---------------------------------------------------------------------
  // Properties of the drawing

  /**
   * With spacing at most 0.1 mm each line is drawn in one call at the
   * alignment anchor, one line per call, at its centred y.
   */
  lemma WholeLineDrawing(t: Typography, c: Canvas, measure: Font -> string -> real)
    requires !Spaced(t)
    ensures var lines := Split(CasedText(t));
      && |Drawing(t, c, measure)| == |lines| == Count(t.text, '\n') + 1
      && forall k :: 0 <= k < |lines| ==>
           Drawing(t, c, measure)[k] == FillText(lines[k], AnchorX(t.alignment, c.w), LineY(c.h, LinePitch(t), |lines|, k), t.alignment)
  {
    var lines := Split(CasedText(t));
    var parts := PerLineCalls(t, c, measure(FontOf(t)), t.alignment, lines);
    FlattenSingles(parts);
    CaseKeepsLines(t.text, t.textCase);
  }

  /** Below the threshold the letter spacing has no effect at all. */
  lemma TightSpacingIgnored(t: Typography, spacing: real, c: Canvas, measure: Font -> string -> real)
    requires !Spaced(t) && spacing <= SpacingThreshold
    ensures Drawing(t.(letterSpacing := spacing), c, measure) == Drawing(t, c, measure)
  {
    var t' := t.(letterSpacing := spacing);
    var lines := Split(CasedText(t));
    assert CasedText(t') == CasedText(t) && LinePitch(t') == LinePitch(t) && FontOf(t') == FontOf(t);
    var parts := PerLineCalls(t, c, measure(FontOf(t)), t.alignment, lines);
    var parts' := PerLineCalls(t', c, measure(FontOf(t)), t.alignment, lines);
    forall k | 0 <= k < |lines| ensures parts'[k] == parts[k] { }
    assert parts' == parts;
  }

  /** Above the threshold there is one call per character, line breaks excepted. */
  lemma PerCharacterDrawing(t: Typography, c: Canvas, measure: Font -> string -> real)
    requires Spaced(t)
    ensures |Drawing(t, c, measure)| == |t.text| - Count(t.text, '\n')
  {
    var lines := Split(CasedText(t));
    FlattenLength(PerLineCalls(t, c, measure(FontOf(t)), t.alignment, lines), lines);
    CaseKeepsLines(t.text, t.textCase);
  }

  /**
   * In a spaced block, character `i` of line `k` is drawn by the call that
   * follows one call for every character of the lines before it.
   */
  lemma SpacedCallInBlock(t: Typography, c: Canvas, measure: string -> real, glyphAlign: Alignment,
                          lines: seq<string>, k: nat, i: nat)
    requires Spaced(t) && k < |lines| && i < |lines[k]|
    ensures var calls := Flatten(PerLineCalls(t, c, measure, glyphAlign, lines));
      && TotalLength(lines[..k]) + i < |calls|
      && calls[TotalLength(lines[..k]) + i]
         == SpacedCalls(lines[k], SpacedStart(t.alignment, c.w, lines[k], SpacingPx(t.letterSpacing), measure),
                        LineY(c.h, LinePitch(t), |lines|, k), SpacingPx(t.letterSpacing), glyphAlign, measure)[i]
  {
    var parts := PerLineCalls(t, c, measure, glyphAlign, lines);
    assert parts[k] == LineCalls(t, c, measure, glyphAlign, lines[k], |lines|, k);
    FlattenAt(parts, k, i);
    FlattenLength(parts[..k], lines[..k]);
  }

  /**
   * As written, in a centred or right-aligned spaced block, two neighbouring
   * characters of different widths in the block's font are painted at a
   * gap other than the letter spacing: the program's own drawing.
   */
  lemma AsWrittenUnevenDrawing(t: Typography, c: Canvas, measure: Font -> string -> real, k: nat, i: nat)
    requires Spaced(t) && t.alignment != Left
    requires k < |Split(CasedText(t))| && i + 1 < |Split(CasedText(t))[k]|
    requires measure(FontOf(t))([Split(CasedText(t))[k][i]]) != measure(FontOf(t))([Split(CasedText(t))[k][i + 1]])
    ensures var lines := Split(CasedText(t));
      var calls := Drawing(t, c, measure);
      var at := TotalLength(lines[..k]) + i;
      && at + 1 < |calls|
      && InkLeft(calls[at + 1], measure(FontOf(t))) - InkRight(calls[at], measure(FontOf(t))) != SpacingPx(t.letterSpacing)
  {
    var lines := Split(CasedText(t));
    var widths := measure(FontOf(t));
    var line := lines[k];
    var spacing := SpacingPx(t.letterSpacing);
    var startX := SpacedStart(t.alignment, c.w, line, spacing, widths);
    var y := LineY(c.h, LinePitch(t), |lines|, k);
    var calls := Drawing(t, c, measure);
    var at := TotalLength(lines[..k]) + i;
    assert calls == Flatten(PerLineCalls(t, c, widths, t.alignment, lines));
    SpacedCallInBlock(t, c, widths, t.alignment, lines, k, i);
    SpacedCallInBlock(t, c, widths, t.alignment, lines, k, i + 1);
    var glyphs := SpacedCalls(line, startX, y, spacing, t.alignment, widths);
    assert calls[at] == glyphs[i] && calls[at + 1] == glyphs[i + 1];
    AsWrittenUnevenGaps(line, startX, y, spacing, t.alignment, widths, i);
  }

  /** Corrected: in a spaced block every two neighbouring characters are painted exactly the letter spacing apart. */
  lemma CorrectedEvenDrawing(t: Typography, c: Canvas, measure: Font -> string -> real, k: nat, i: nat)
    requires Spaced(t)
    requires k < |Split(CasedText(t))| && i + 1 < |Split(CasedText(t))[k]|
    ensures var lines := Split(CasedText(t));
      var calls := CorrectedDrawing(t, c, measure);
      var at := TotalLength(lines[..k]) + i;
      && at + 1 < |calls|
      && InkLeft(calls[at + 1], measure(FontOf(t))) - InkRight(calls[at], measure(FontOf(t))) == SpacingPx(t.letterSpacing)
  {
    var lines := Split(CasedText(t));
    var widths := measure(FontOf(t));
    var line := lines[k];
    var spacing := SpacingPx(t.letterSpacing);
    var startX := SpacedStart(t.alignment, c.w, line, spacing, widths);
    var y := LineY(c.h, LinePitch(t), |lines|, k);
    var calls := CorrectedDrawing(t, c, measure);
    var at := TotalLength(lines[..k]) + i;
    assert calls == Flatten(PerLineCalls(t, c, widths, Left, lines));
    SpacedCallInBlock(t, c, widths, Left, lines, k, i);
    SpacedCallInBlock(t, c, widths, Left, lines, k, i + 1);
    var glyphs := SpacedCalls(line, startX, y, spacing, Left, widths);
    assert calls[at] == glyphs[i] && calls[at + 1] == glyphs[i + 1];
    CorrectedEvenGaps(line, startX, y, spacing, widths, i);
  }

  /**
   * All three default blocks are centred with 0.5 mm letter spacing, so
   * each is drawn character by character.
   */
  lemma DefaultBlocksSpacedAndCentred()
    ensures Spaced(DefaultSettings.frontTypography) && DefaultSettings.frontTypography.alignment == Center
    ensures Spaced(DefaultSettings.backTypography) && DefaultSettings.backTypography.alignment == Center
    ensures Spaced(DefaultSettings.spineTypography) && DefaultSettings.spineTypography.alignment == Center
    ensures SpacingPx(DefaultSettings.frontTypography.letterSpacing) == 8.0
  {
  }
}
