/**
 * The procedural paper texture (src/components/Cover.tsx, the `textureCanvas`
 * memo): a 512 x 512 RGBA bitmap filled with grey `#888888`, whose colour
 * channels are then perturbed pixel by pixel with random noise scaled by the
 * texture intensity and clamped to the byte range.
 *
 * The random source is a parameter: `draws[p]` is the value `Math.random()`
 * returned for pixel `p`. The pixel buffer is a clamped byte array: storing a
 * number into it rounds to the nearest integer, ties to even.
 */
module PaperNoise {
  import opened Wrappers

  /** One channel of a clamped 8-bit pixel buffer. */
  type byte = x: int | 0 <= x < 256

  /** The bitmap is 512 pixels square, four channels (R, G, B, A) per pixel. */
  const Side: nat := 512
  const PixelCount: nat := Side * Side

  /** The neutral grey fill `#888888`: 0x88 in each colour channel, fully opaque. */
  const Grey: byte := 0x88
  const Opaque: byte := 255

  /** `Math.max(0, Math.min(255, x))`. */
  function Clamp(x: real): (r: real)
    ensures 0.0 <= r <= 255.0
    ensures 0.0 <= x <= 255.0 ==> r == x
    ensures x < 0.0 ==> r == 0.0
    ensures x > 255.0 ==> r == 255.0
  {
    if x > 255.0 then 255.0 else if x < 0.0 then 0.0 else x
  }

  /** The integer nearest to `x`, and the even one of the two when `x` lies halfway. */
  function RoundHalfEven(x: real): (n: int)
    ensures n as real - 0.5 <= x <= n as real + 0.5
    ensures x == x.Floor as real ==> n == x.Floor
    ensures x - x.Floor as real == 0.5 ==> n % 2 == 0
  {
    var f := x.Floor;
    var d := x - f as real;
    if d < 0.5 then f
    else if d > 0.5 then f + 1
    else if f % 2 == 0 then f
    else f + 1
  }

  /** What one channel holds after `data[i] = Math.max(0, Math.min(255, x))`. */
  function StoreChannel(x: real): (b: byte)
    ensures 0.0 <= x <= 255.0 ==> b as real - 0.5 <= x <= b as real + 0.5
  {
    RoundHalfEven(Clamp(x))
  }

  /** The noise added to every colour channel of one pixel, from that pixel's random draw. */
  function Noise(draw: real, intensity: real): (n: real)
    ensures n == 0.0 <==> draw == 0.5 || intensity == 0.0
    ensures intensity > 0.0 ==> (n > 0.0 <==> draw > 0.5)
  {
    var offset := (draw - 0.5) * 30.0;
    ProductSign(offset, intensity);
    offset * intensity
  }

  /**
   * The buffer after the noise pass: for every pixel the same noise is added
   * to red, green and blue; the alpha channel (index 3 of each pixel) is left
   * alone.
   */
  function Perturbed(pixels: seq<byte>, draws: seq<real>, intensity: real): (r: seq<byte>)
    requires |pixels| == 4 * |draws|
    ensures |r| == |pixels|
  {
    seq(|pixels|, i requires 0 <= i < |pixels| =>
      if i % 4 == 3 then pixels[i] else StoreChannel(pixels[i] as real + Noise(draws[i / 4], intensity)))
  }

  /** Channel `k` of pixel `p` after the noise pass: alpha kept, colour noised with the pixel's draw. */
  lemma PerturbedAt(pixels: seq<byte>, draws: seq<real>, intensity: real, p: nat, k: nat)
    requires |pixels| == 4 * |draws| && p < |draws| && k < 4
    ensures Perturbed(pixels, draws, intensity)[4 * p + k]
         == if k == 3 then pixels[4 * p + k] else StoreChannel(pixels[4 * p + k] as real + Noise(draws[p], intensity))
  {
    assert (4 * p + k) / 4 == p && (4 * p + k) % 4 == k;
  }

  /** Noises the three colour channels of the pixel starting at `i`; its alpha and every other pixel are kept. */
  method NoisePixel(data: array<byte>, i: nat, noise: real)
    requires i + 3 < data.Length
    modifies data
    ensures data[i] == StoreChannel(old(data[i]) as real + noise)
    ensures data[i + 1] == StoreChannel(old(data[i + 1]) as real + noise)
    ensures data[i + 2] == StoreChannel(old(data[i + 2]) as real + noise)
    ensures forall j :: 0 <= j < data.Length && !(i <= j < i + 3) ==> data[j] == old(data[j])
  {
    var red := StoreChannel(data[i] as real + noise);
    var green := StoreChannel(data[i + 1] as real + noise);
    var blue := StoreChannel(data[i + 2] as real + noise);
    data[i] := red;
    data[i + 1] := green;
    data[i + 2] := blue;
  }

  /** Pixel `q` of `result` is pixel `q` of `original` with `noise` added to its colour channels. */
  predicate PixelNoised(original: seq<byte>, result: seq<byte>, noise: real, q: nat)
    requires |result| == |original| && 4 * q + 3 < |original|
  {
    && result[4 * q] == StoreChannel(original[4 * q] as real + noise)
    && result[4 * q + 1] == StoreChannel(original[4 * q + 1] as real + noise)
    && result[4 * q + 2] == StoreChannel(original[4 * q + 2] as real + noise)
    && result[4 * q + 3] == original[4 * q + 3]
  }

  /** Channel `k` of a noised pixel `q` agrees with the noise pass. */
  lemma NoisedChannel(original: seq<byte>, draws: seq<real>, intensity: real, result: seq<byte>, q: nat, k: nat)
    requires |original| == 4 * |draws| && |result| == |original| && q < |draws| && k < 4
    requires PixelNoised(original, result, Noise(draws[q], intensity), q)
    ensures result[4 * q + k] == Perturbed(original, draws, intensity)[4 * q + k]
  {
    PerturbedAt(original, draws, intensity, q, k);
    if k == 0 {
      assert result[4 * q] == StoreChannel(original[4 * q] as real + Noise(draws[q], intensity));
    } else if k == 1 {
      assert result[4 * q + 1] == StoreChannel(original[4 * q + 1] as real + Noise(draws[q], intensity));
    } else if k == 2 {
      assert result[4 * q + 2] == StoreChannel(original[4 * q + 2] as real + Noise(draws[q], intensity));
    } else {
      assert result[4 * q + 3] == original[4 * q + 3];
    }
  }

  /** A buffer in which every pixel is noised with its own draw is the noise pass's result. */
  lemma PixelsMakePerturbed(original: seq<byte>, draws: seq<real>, intensity: real, result: seq<byte>)
    requires |original| == 4 * |draws| && |result| == |original|
    requires forall q :: 0 <= q < |draws| ==> PixelNoised(original, result, Noise(draws[q], intensity), q)
    ensures result == Perturbed(original, draws, intensity)
  {
    forall j | 0 <= j < |result| ensures result[j] == Perturbed(original, draws, intensity)[j]
    {
      var q, k := j / 4, j % 4;
      assert j == 4 * q + k && q < |draws|;
      NoisedChannel(original, draws, intensity, result, q, k);
    }
  }

  /**
   * One step of the noise loop, on the buffer's contents: if the pixels
   * before `p` are already noised and the rest still original, noising the
   * colour channels of pixel `p` extends the noised prefix by one pixel.
   */
  lemma PixelStep(original: seq<byte>, draws: seq<real>, intensity: real, p: nat, before: seq<byte>, after: seq<byte>)
    requires |original| == 4 * |draws| && p < |draws| && |before| == |original| && |after| == |original|
    requires forall q :: 0 <= q < p ==> PixelNoised(original, before, Noise(draws[q], intensity), q)
    requires forall j :: 4 * p <= j < |before| ==> before[j] == original[j]
    requires after[4 * p] == StoreChannel(before[4 * p] as real + Noise(draws[p], intensity))
    requires after[4 * p + 1] == StoreChannel(before[4 * p + 1] as real + Noise(draws[p], intensity))
    requires after[4 * p + 2] == StoreChannel(before[4 * p + 2] as real + Noise(draws[p], intensity))
    requires forall j :: 0 <= j < |after| && !(4 * p <= j < 4 * p + 3) ==> after[j] == before[j]
    ensures forall q :: 0 <= q < p + 1 ==> PixelNoised(original, after, Noise(draws[q], intensity), q)
    ensures forall j :: 4 * p + 4 <= j < |after| ==> after[j] == original[j]
  {
    forall q | 0 <= q < p + 1 ensures PixelNoised(original, after, Noise(draws[q], intensity), q)
    {
      if q < p {
        assert PixelNoised(original, before, Noise(draws[q], intensity), q);
        assert after[4 * q] == before[4 * q] && after[4 * q + 1] == before[4 * q + 1];
        assert after[4 * q + 2] == before[4 * q + 2] && after[4 * q + 3] == before[4 * q + 3];
      }
    }
  }

  /**
   * The noise loop: walks the buffer one pixel (four channels) at a time and
   * overwrites its three colour channels in place.
   */
  method AddNoise(data: array<byte>, draws: seq<real>, intensity: real)
    requires data.Length == 4 * |draws|
    modifies data
    ensures data[..] == Perturbed(old(data[..]), draws, intensity)
  {
    ghost var original := data[..];
    var p := 0;
    while p < |draws|
      invariant 0 <= p <= |draws|
      invariant forall q :: 0 <= q < p ==> PixelNoised(original, data[..], Noise(draws[q], intensity), q)
      invariant forall j :: 4 * p <= j < data.Length ==> data[j] == original[j]
    {
      ghost var before := data[..];
      NoisePixel(data, 4 * p, Noise(draws[p], intensity));
      PixelStep(original, draws, intensity, p, before, data[..]);
      p := p + 1;
    }
    PixelsMakePerturbed(original, draws, intensity, data[..]);
  }

  /** The grey fill of `n` pixels. */
  function GreyFill(n: nat): (r: seq<byte>)
    ensures |r| == 4 * n
  {
    seq(4 * n, i requires 0 <= i < 4 * n => if i % 4 == 3 then Opaque else Grey)
  }

  /**
   * The texture memo: no bitmap when the texture is switched off or no 2D
   * context is available; otherwise the grey fill with the noise pass applied.
   */
  method PaperTexture(paperTexture: bool, contextAvailable: bool, draws: seq<real>, intensity: real)
    returns (bitmap: Option<seq<byte>>)
    requires |draws| == PixelCount
    ensures bitmap.None? <==> !paperTexture || !contextAvailable
    ensures bitmap.Some? ==> bitmap.value == Perturbed(GreyFill(PixelCount), draws, intensity)
  {
    if !paperTexture || !contextAvailable {
      return None;
    }
    var data := new byte[4 * PixelCount](i => if i % 4 == 3 then Opaque else Grey);
    assert data[..] == GreyFill(PixelCount);
    AddNoise(data, draws, intensity);
    bitmap := Some(data[..]);
  }

  /** Storing a whole byte back unchanged is the identity. */
  lemma StoreWholeByte(v: byte)
    ensures StoreChannel(v as real) == v
  {
    assert (v as real).Floor == v;
  }

  /** Clamping and rounding move a channel by at most the noise plus half a step. */
  lemma {:induction false} StoreNear(v: byte, noise: real)
    ensures -(if noise < 0.0 then -noise else noise) - 0.5
            <= StoreChannel(v as real + noise) as real - v as real
            <= (if noise < 0.0 then -noise else noise) + 0.5
  {
    var x := v as real + noise;
    var c := Clamp(x);
    // Clamping pulls x towards [0, 255], where v already lies.
    assert (if c < v as real then v as real - c else c - v as real)
        <= (if noise < 0.0 then -noise else noise);
    var n := RoundHalfEven(c);
    assert n as real - 0.5 <= c <= n as real + 0.5;
  }

  /** Zero intensity leaves the buffer exactly as it was, whatever the draws. */
  lemma {:induction false} ZeroIntensityIsIdentity(pixels: seq<byte>, draws: seq<real>)
    requires |pixels| == 4 * |draws|
    ensures Perturbed(pixels, draws, 0.0) == pixels
  {
    forall i | 0 <= i < |pixels|
      ensures Perturbed(pixels, draws, 0.0)[i] == pixels[i]
    {
      assert Noise(draws[i / 4], 0.0) == 0.0;
      StoreWholeByte(pixels[i]);
    }
  }

  /** A draw in [0, 1) gives noise within 15 * intensity of zero. */
  lemma NoiseRange(draw: real, intensity: real)
    requires 0.0 <= draw < 1.0 && 0.0 <= intensity
    ensures -15.0 * intensity <= Noise(draw, intensity) <= 15.0 * intensity
  {
    var a := (draw - 0.5) * 30.0;
    assert -15.0 <= a <= 15.0;
    assert Noise(draw, intensity) == a * intensity;
    ProductNonNegative(15.0 - a, intensity);
    ProductNonNegative(a + 15.0, intensity);
  }

  /** A product is zero exactly when a factor is, and positive exactly when the factors share a sign. */
  lemma ProductSign(x: real, y: real)
    ensures x * y == 0.0 <==> x == 0.0 || y == 0.0
    ensures x * y > 0.0 <==> (x > 0.0 && y > 0.0) || (x < 0.0 && y < 0.0)
  {
    if x > 0.0 && y > 0.0 {
      ProductPositive(x, y);
    } else if x < 0.0 && y < 0.0 {
      ProductPositive(-x, -y);
    } else if x > 0.0 && y < 0.0 {
      ProductPositive(x, -y);
    } else if x < 0.0 && y > 0.0 {
      ProductPositive(-x, y);
    }
  }

  lemma ProductPositive(x: real, y: real)
    requires x > 0.0 && y > 0.0
    ensures x * y > 0.0
  {
  }

  lemma ProductNonNegative(x: real, y: real)
    requires x >= 0.0 && y >= 0.0
    ensures x * y >= 0.0
  {
  }

  /**
   * Every channel stays within the byte range, alpha is never touched, and,
   * with draws in [0, 1) and intensity in [0, 1], no colour channel moves by
   * more than 15 * intensity + 1/2.
   */
  lemma {:induction false} NoiseBounded(pixels: seq<byte>, draws: seq<real>, intensity: real)
    requires |pixels| == 4 * |draws|
    requires forall p :: 0 <= p < |draws| ==> 0.0 <= draws[p] < 1.0
    requires 0.0 <= intensity <= 1.0
    ensures forall i :: 0 <= i < |pixels| ==> 0 <= Perturbed(pixels, draws, intensity)[i] <= 255
    ensures forall i :: 0 <= i < |pixels| && i % 4 == 3 ==> Perturbed(pixels, draws, intensity)[i] == pixels[i]
    ensures forall i :: 0 <= i < |pixels| ==>
      pixels[i] as real - 15.0 * intensity - 0.5 <= Perturbed(pixels, draws, intensity)[i] as real
                                                  <= pixels[i] as real + 15.0 * intensity + 0.5
  {
    forall i | 0 <= i < |pixels| && i % 4 != 3
      ensures pixels[i] as real - 15.0 * intensity - 0.5 <= Perturbed(pixels, draws, intensity)[i] as real
                                                         <= pixels[i] as real + 15.0 * intensity + 0.5
    {
      NoiseRange(draws[i / 4], intensity);
      StoreNear(pixels[i], Noise(draws[i / 4], intensity));
    }
  }

  /**
   * Starting from the grey fill, the texture is opaque and every colour
   * channel stays within [121, 151] for any draws in [0, 1) and intensity in
   * [0, 1]: the clamp to [0, 255] never comes into play.
   */
  lemma {:induction false} GreyTextureRange(draws: seq<real>, intensity: real)
    requires forall p :: 0 <= p < |draws| ==> 0.0 <= draws[p] < 1.0
    requires 0.0 <= intensity <= 1.0
    ensures forall i :: 0 <= i < 4 * |draws| && i % 4 == 3 ==> Perturbed(GreyFill(|draws|), draws, intensity)[i] == Opaque
    ensures forall i :: 0 <= i < 4 * |draws| && i % 4 != 3 ==> 121 <= Perturbed(GreyFill(|draws|), draws, intensity)[i] <= 151
  {
    var fill := GreyFill(|draws|);
    NoiseBounded(fill, draws, intensity);
    forall i | 0 <= i < 4 * |draws| && i % 4 != 3
      ensures 121 <= Perturbed(fill, draws, intensity)[i] <= 151
    {
      assert fill[i] == Grey;
    }
  }
}
