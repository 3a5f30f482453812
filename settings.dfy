/**
 * The lens-flare parameter record shared by a configuration asset
 * (`UCustomLensFlareConfig`) and the per-view blended copy
 * (`FPerViewExtensionData`): both carry the same fields. This module holds the
 * per-view defaults and the blend law of `OverrideBlendableSettings`.
 */
module Settings {
  import opened Common
  import opened Vectors

  /** `FLensFlareGhostSettings`: one ghost slot. */
  datatype GhostSettings = GhostSettings(color: LinearColor, scale: real)

  datatype LensFlareSettings = LensFlareSettings(
    intensity: real,
    tint: LinearColor,
    gradient: Option<TextureAsset>,
    thresholdLevel: real,
    thresholdRange: real,
    ghostIntensity: real,
    ghostChromaShift: real,
    ghost1: GhostSettings,
    ghost2: GhostSettings,
    ghost3: GhostSettings,
    ghost4: GhostSettings,
    ghost5: GhostSettings,
    ghost6: GhostSettings,
    ghost7: GhostSettings,
    ghost8: GhostSettings,
    haloIntensity: real,
    haloWidth: real,
    haloMask: real,
    haloCompression: real,
    haloChromaShift: real,
    glareIntensity: real,
    glareDivider: real,
    glareScale: Vector3,
    glareAngles: Vector3,
    glareTint: LinearColor,
    glareLineMask: Option<TextureAsset>,
    flareTint: LinearColor,
    flareIntensity: real)

  /** Ghost slot `k`, counting from 1 as the fields `Ghost1` .. `Ghost8` do. */
  function Ghost(s: LensFlareSettings, k: int): GhostSettings
    requires 1 <= k <= 8
  {
    match k
    case 1 => s.ghost1
    case 2 => s.ghost2
    case 3 => s.ghost3
    case 4 => s.ghost4
    case 5 => s.ghost5
    case 6 => s.ghost6
    case 7 => s.ghost7
    case _ => s.ghost8
  }

  /** The eight ghost colours in slot order, as the ghost pass uploads them. */
  function GhostColors(s: LensFlareSettings): (colors: seq<LinearColor>)
    ensures |colors| == 8
    ensures forall k :: 1 <= k <= 8 ==> colors[k - 1] == Ghost(s, k).color
  {
    [s.ghost1.color, s.ghost2.color, s.ghost3.color, s.ghost4.color,
     s.ghost5.color, s.ghost6.color, s.ghost7.color, s.ghost8.color]
  }

  /** The eight signed ghost scales in slot order, as the ghost pass uploads them. */
  function GhostScales(s: LensFlareSettings): (scales: seq<real>)
    ensures |scales| == 8
    ensures forall k :: 1 <= k <= 8 ==> scales[k - 1] == Ghost(s, k).scale
  {
    [s.ghost1.scale, s.ghost2.scale, s.ghost3.scale, s.ghost4.scale,
     s.ghost5.scale, s.ghost6.scale, s.ghost7.scale, s.ghost8.scale]
  }

  /** A freshly added per-view record: the field initialisers of `FPerViewExtensionData`. */
  function DefaultPerViewData(): (d: LensFlareSettings)
    ensures d.intensity == 1.0 && d.tint == LinearColor(1.0, 0.85, 0.7, 1.0)
    ensures d.gradient == None && d.glareLineMask == None
    ensures d.thresholdLevel == 1.0 && d.thresholdRange == 1.0
    ensures GhostScales(d) == [-1.5, 2.5, -5.0, 10.0, 0.7, -0.4, -0.2, -0.1]
    ensures forall k :: 1 <= k <= 8 ==> Ghost(d, k).color.a == 1.0
    ensures d.glareIntensity == 0.02 && d.glareDivider == 60.0
    ensures d.glareScale == Vector3(1.0, 1.0, 1.0)
    // the angles are pi/3, pi/2 and 5*pi/6 to six decimals
    ensures 3.14159 < 3.0 * d.glareAngles.x < 3.14160
    ensures 3.14159 < 2.0 * d.glareAngles.y < 3.14160
    ensures 3.14159 < 1.2 * d.glareAngles.z < 3.14160
  {
    LensFlareSettings(
      1.0,
      LinearColor(1.0, 0.85, 0.7, 1.0),
      None,
      1.0,
      1.0,
      1.0,
      0.015,
      GhostSettings(LinearColor(1.0, 0.8, 0.4, 1.0), -1.5),
      GhostSettings(LinearColor(1.0, 1.0, 0.6, 1.0), 2.5),
      GhostSettings(LinearColor(0.8, 0.8, 1.0, 1.0), -5.0),
      GhostSettings(LinearColor(0.5, 1.0, 0.4, 1.0), 10.0),
      GhostSettings(LinearColor(0.5, 0.8, 1.0, 1.0), 0.7),
      GhostSettings(LinearColor(0.9, 1.0, 0.8, 1.0), -0.4),
      GhostSettings(LinearColor(1.0, 0.8, 0.4, 1.0), -0.2),
      GhostSettings(LinearColor(0.9, 0.7, 0.7, 1.0), -0.1),
      1.0,
      0.6,
      0.5,
      0.65,
      0.015,
      0.02,
      60.0,
      Vector3(1.0, 1.0, 1.0),
      Vector3(1.047197, 1.570796, 2.617994),
      LinearColor(1.0, 1.0, 1.0, 1.0),
      None,
      LinearColor(1.0, 0.85, 0.7, 1.0),
      1.0)
  }

  /** `FMath::Lerp` on a ghost slot: colour and scale each lerped. */
  function LerpGhost(a: GhostSettings, b: GhostSettings, w: real): GhostSettings {
    GhostSettings(LerpColor(a.color, b.color, w), Lerp(a.scale, b.scale, w))
  }

  /**
   * The record after one `OverrideBlendableSettings(View, Weight)` of `config`:
   * numbers and colours lerped toward the config, the two texture references
   * taken from the config outright.
   */
  function Blend(current: LensFlareSettings, config: LensFlareSettings, weight: real): (r: LensFlareSettings)
    // the texture references follow the config whatever the weight
    ensures r.gradient == config.gradient && r.glareLineMask == config.glareLineMask
    // full weight: the config replaces the record
    ensures weight == 1.0 ==> r == config
    // zero weight: only the texture references can change
    ensures weight == 0.0 ==> r == current.(gradient := config.gradient, glareLineMask := config.glareLineMask)
    // every ghost slot blends only with the config's slot of the same number
    ensures forall k :: 1 <= k <= 8 ==> Ghost(r, k) == LerpGhost(Ghost(current, k), Ghost(config, k), weight)
  {
    LensFlareSettings(
      Lerp(current.intensity, config.intensity, weight),
      LerpColor(current.tint, config.tint, weight),
      config.gradient,
      Lerp(current.thresholdLevel, config.thresholdLevel, weight),
      Lerp(current.thresholdRange, config.thresholdRange, weight),
      Lerp(current.ghostIntensity, config.ghostIntensity, weight),
      Lerp(current.ghostChromaShift, config.ghostChromaShift, weight),
      LerpGhost(current.ghost1, config.ghost1, weight),
      LerpGhost(current.ghost2, config.ghost2, weight),
      LerpGhost(current.ghost3, config.ghost3, weight),
      LerpGhost(current.ghost4, config.ghost4, weight),
      LerpGhost(current.ghost5, config.ghost5, weight),
      LerpGhost(current.ghost6, config.ghost6, weight),
      LerpGhost(current.ghost7, config.ghost7, weight),
      LerpGhost(current.ghost8, config.ghost8, weight),
      Lerp(current.haloIntensity, config.haloIntensity, weight),
      Lerp(current.haloWidth, config.haloWidth, weight),
      Lerp(current.haloMask, config.haloMask, weight),
      Lerp(current.haloCompression, config.haloCompression, weight),
      Lerp(current.haloChromaShift, config.haloChromaShift, weight),
      Lerp(current.glareIntensity, config.glareIntensity, weight),
      Lerp(current.glareDivider, config.glareDivider, weight),
      LerpVector3(current.glareScale, config.glareScale, weight),
      LerpVector3(current.glareAngles, config.glareAngles, weight),
      LerpColor(current.glareTint, config.glareTint, weight),
      config.glareLineMask,
      LerpColor(current.flareTint, config.flareTint, weight),
      Lerp(current.flareIntensity, config.flareIntensity, weight))
  }

  /**
   * Blending the same config twice is one blend whose weight is the combined
   * coverage `w1 + w2 - w1 * w2`: what the first blend left of the record is
   * scaled again by `1 - w2`.
   */
  lemma BlendTwice(current: LensFlareSettings, config: LensFlareSettings, w1: real, w2: real)
    ensures Blend(Blend(current, config, w1), config, w2) == Blend(current, config, w1 + w2 - w1 * w2)
  {
    var c, t := current, config;
    LerpRepeat(c.intensity, t.intensity, w1, w2);
    LerpColorRepeat(c.tint, t.tint, w1, w2);
    LerpRepeat(c.thresholdLevel, t.thresholdLevel, w1, w2);
    LerpRepeat(c.thresholdRange, t.thresholdRange, w1, w2);
    LerpRepeat(c.ghostIntensity, t.ghostIntensity, w1, w2);
    LerpRepeat(c.ghostChromaShift, t.ghostChromaShift, w1, w2);
    LerpGhostRepeat(c.ghost1, t.ghost1, w1, w2);
    LerpGhostRepeat(c.ghost2, t.ghost2, w1, w2);
    LerpGhostRepeat(c.ghost3, t.ghost3, w1, w2);
    LerpGhostRepeat(c.ghost4, t.ghost4, w1, w2);
    LerpGhostRepeat(c.ghost5, t.ghost5, w1, w2);
    LerpGhostRepeat(c.ghost6, t.ghost6, w1, w2);
    LerpGhostRepeat(c.ghost7, t.ghost7, w1, w2);
    LerpGhostRepeat(c.ghost8, t.ghost8, w1, w2);
    LerpRepeat(c.haloIntensity, t.haloIntensity, w1, w2);
    LerpRepeat(c.haloWidth, t.haloWidth, w1, w2);
    LerpRepeat(c.haloMask, t.haloMask, w1, w2);
    LerpRepeat(c.haloCompression, t.haloCompression, w1, w2);
    LerpRepeat(c.haloChromaShift, t.haloChromaShift, w1, w2);
    LerpRepeat(c.glareIntensity, t.glareIntensity, w1, w2);
    LerpRepeat(c.glareDivider, t.glareDivider, w1, w2);
    LerpVector3Repeat(c.glareScale, t.glareScale, w1, w2);
    LerpVector3Repeat(c.glareAngles, t.glareAngles, w1, w2);
    LerpColorRepeat(c.glareTint, t.glareTint, w1, w2);
    LerpColorRepeat(c.flareTint, t.flareTint, w1, w2);
    LerpRepeat(c.flareIntensity, t.flareIntensity, w1, w2);
  }

  lemma LerpGhostRepeat(a: GhostSettings, b: GhostSettings, w1: real, w2: real)
    ensures LerpGhost(LerpGhost(a, b, w1), b, w2) == LerpGhost(a, b, w1 + w2 - w1 * w2)
  {
    LerpColorRepeat(a.color, b.color, w1, w2);
    LerpRepeat(a.scale, b.scale, w1, w2);
  }

  /**
   * Blends of two configs do not commute: when their intensities differ,
   * blending both at full weight gives a different record in each order,
   * because the config applied last wins.
   */
  lemma BlendOrderMatters(d: LensFlareSettings, a: LensFlareSettings, b: LensFlareSettings)
    requires a.intensity != b.intensity
    ensures Blend(Blend(d, a, 1.0), b, 1.0) != Blend(Blend(d, b, 1.0), a, 1.0)
  {
  }

  /** At any weight, the two orders of blending leave intensities that differ by `w*w*(b - a)`. */
  lemma BlendOrderIntensity(d: LensFlareSettings, a: LensFlareSettings, b: LensFlareSettings, w: real)
    ensures Blend(Blend(d, a, w), b, w).intensity - Blend(Blend(d, b, w), a, w).intensity
         == w * w * (b.intensity - a.intensity)
  {
    var x, p, q := d.intensity, a.intensity, b.intensity;
    var u, v := Lerp(x, p, w), Lerp(x, q, w);
    assert u - v == (p - q) * w by {
      assert u - v == (p - x) * w - (q - x) * w;
    }
    calc {
      Blend(Blend(d, a, w), b, w).intensity - Blend(Blend(d, b, w), a, w).intensity;
      Lerp(u, q, w) - Lerp(v, p, w);
      (u - v) + (q - u) * w - (p - v) * w;
      (u - v) + ((q - p) - (u - v)) * w;
      (p - q) * w + ((q - p) - (p - q) * w) * w;
      w * w * (q - p);
    }
  }
}
