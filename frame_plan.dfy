/**
 * What one lens-flare frame declares into the render graph, stage by stage,
 * as pure functions of the frame's inputs, the loaded config and the number
 * of textures created before the stage (transient textures are known by
 * their creation index). The renderer's methods are proved to append exactly
 * these passes and textures; the lemmas here state what the plan promises.
 */
module FramePlan {
  import opened Common
  import opened IntRects
  import opened Vectors
  import opened Settings
  import opened Decimal
  import opened RenderGraph

  /** `SMALL_NUMBER` of the engine's math library. */
  const SmallNumber: real := 0.00000001

  /** The least glare divider `RenderGlare` hands to the geometry shader. */
  const GlareDividerFloor: real := 0.01

  /** The passes and textures one `Render*` call declares, and the texture it returns. */
  datatype Stage = Stage(passes: seq<Pass>, textures: seq<TextureDesc>, output: TextureRef)

  /** A screen-pass texture: the texture, the rectangle of it in use, and its full extent. */
  datatype ScreenTexture = ScreenTexture(texture: TextureRef, rect: IntRect, extent: IntPoint)

  /** `r.LensFlare.RenderBloom`, `r.LensFlare.RenderFlare` and `r.LensFlare.RenderGlare`, read on the render thread. */
  datatype ConsoleVariables = ConsoleVariables(renderBloom: int, renderFlare: int, renderGlare: int)

  /** What the lens-flare hook is given for one view. */
  datatype FrameInputs = FrameInputs(
    bloom: ScreenTexture, halfSceneColor: ScreenTexture, viewRect: IntRect, cvars: ConsoleVariables)

  /** Everything one `RenderLensFlare` declares, and the texture and rectangle it writes to `Outputs`. */
  datatype Plan = Plan(passes: seq<Pass>, textures: seq<TextureDesc>, outputTexture: TextureRef, outputRect: IntRect)

  function Max(a: real, b: real): (m: real)
    ensures m >= a && m >= b && (m == a || m == b)
  {
    if a >= b then a else b
  }

  /** A texture reference from a config: the engine's white texture when it is null. */
  function Binding(t: Option<TextureAsset>): (b: TextureBinding)
    ensures b == WhiteTexture <==> t.None?
    ensures t.Some? ==> b == AssetTexture(t.value)
  {
    match t
    case None => WhiteTexture
    case Some(a) => AssetTexture(a)
  }

  /**
   * `GetInputViewportSize`: the rectangle's corners scaled by the inverse
   * extent, max minus min. Undefined (IEEE infinities) for an empty extent.
   */
  function GetInputViewportSize(input: IntRect, extent: IntPoint): (r: Option<Vector2>)
    ensures r.Some? <==> extent.x != 0 && extent.y != 0
  {
    if extent.x == 0 || extent.y == 0 then None
    else
      var ix, iy := 1.0 / (extent.x as real), 1.0 / (extent.y as real);
      Some(Vector2(
        (input.max.x as real) * ix - (input.min.x as real) * ix,
        (input.max.y as real) * iy - (input.min.y as real) * iy))
  }

  /** The viewport size is the rectangle's size as a fraction of the extent. */
  lemma InputViewportSizeIsFraction(input: IntRect, extent: IntPoint)
    requires extent.x != 0 && extent.y != 0
    ensures GetInputViewportSize(input, extent)
         == Some(Vector2((input.Width() as real) / (extent.x as real), (input.Height() as real) / (extent.y as real)))
  {
    var ex, ey := extent.x as real, extent.y as real;
    var r := GetInputViewportSize(input, extent).value;
    assert r.x == (input.max.x as real) * (1.0 / ex) - (input.min.x as real) * (1.0 / ex);
    assert r.x == ((input.max.x - input.min.x) as real) / ex;
    assert r.y == (input.max.y as real) * (1.0 / ey) - (input.min.y as real) * (1.0 / ey);
    assert r.y == ((input.max.y - input.min.y) as real) / ey;
  }

  /** A rectangle covers its whole texture exactly when its viewport size is (1, 1). */
  lemma FullViewportIffSizeMatches(input: IntRect, extent: IntPoint)
    requires extent.x != 0 && extent.y != 0
    ensures GetInputViewportSize(input, extent) == Some(Vector2(1.0, 1.0)) <==> input.Size() == extent
  {
    InputViewportSizeIsFraction(input, extent);
    var ex, ey := extent.x as real, extent.y as real;
    if (input.Width() as real) / ex == 1.0 {
      assert input.Width() as real == ex;
    }
    if (input.Height() as real) / ey == 1.0 {
      assert input.Height() as real == ey;
    }
  }

  // ---------------------------------------------------------------------
  // RenderBlur: a ladder of 2 * steps Kawase passes
  // ---------------------------------------------------------------------

  /** Number of blur passes: `ArraySize = BlurSteps * 2`, none when that is not positive. */
  function BlurCount(steps: int): nat {
    if steps > 0 then 2 * steps else 0
  }

  /**
   * Rectangle `i` of the ladder is the viewport divided by `2^LadderExponent`:
   * `Divider` starts at 2, doubles after every pass but the last Down pass, and
   * halves after every later one.
   */
  function LadderExponent(steps: int, i: int): nat
    requires 0 <= i < 2 * steps
  {
    if i < steps then i + 1 else 2 * steps - 1 - i
  }

  function BlurRect(viewport: IntRect, steps: int, i: int): IntRect
    requires 0 <= i < 2 * steps
  {
    var d := Pow2(LadderExponent(steps, i));
    Rect(0, 0, CDiv(viewport.Width(), d), CDiv(viewport.Height(), d))
  }

  /** The rectangle pass `i` reads: the viewport for the first pass, the previous rectangle after it. */
  function BlurInputRect(viewport: IntRect, steps: int, i: int): IntRect
    requires 0 <= i < 2 * steps
  {
    if i == 0 then viewport else BlurRect(viewport, steps, i - 1)
  }

  function BlurName(viewport: IntRect, steps: int, i: int): PassName
    requires 0 <= i < 2 * steps
  {
    var r := BlurRect(viewport, steps, i);
    KawaseBlurName(i, i < steps, r.Width(), r.Height())
  }

  function BlurTexture(viewport: IntRect, steps: int, i: int): TextureDesc
    requires 0 <= i < 2 * steps
  {
    TextureDesc(BlurName(viewport, steps, i), BlurRect(viewport, steps, i).Size())
  }

  /** Pass `i` reads the previous pass's buffer (the input for pass 0) and writes texture `t0 + i`. */
  function BlurPass(input: TextureRef, viewport: IntRect, steps: int, t0: nat, i: int): Pass
    requires 0 <= i < 2 * steps
  {
    var r := BlurRect(viewport, steps, i);
    Pass(
      BlurName(viewport, steps, i),
      if i < steps then KawaseDownShader else KawaseUpShader,
      if i == 0 then input else Transient(t0 + i - 1),
      Transient(t0 + i),
      NoAction,
      ClearBlend,
      Rectangle(BlurInputRect(viewport, steps, i), r),
      BlurParams(r.Size()))
  }

  /** `RenderBlur(InputTexture, Viewport, BlurSteps)` declared with `t0` textures already created. */
  function BlurStage(input: TextureRef, viewport: IntRect, steps: int, t0: nat): (st: Stage)
    ensures |st.passes| == |st.textures| == BlurCount(steps)
  {
    var n := BlurCount(steps);
    Stage(
      seq(n, i requires 0 <= i < n => BlurPass(input, viewport, steps, t0, i)),
      seq(n, i requires 0 <= i < n => BlurTexture(viewport, steps, i)),
      if n == 0 then input else Transient(t0 + n - 1))
  }

  /** With no steps the blur declares nothing and hands its input back. */
  lemma BlurNoSteps(input: TextureRef, viewport: IntRect, steps: int, t0: nat)
    requires steps <= 0
    ensures BlurStage(input, viewport, steps, t0) == Stage([], [], input)
  {
  }

  /** While going down, each rectangle is the previous one halved (with truncation), per axis. */
  lemma BlurDownHalves(viewport: IntRect, steps: int, i: int)
    requires 0 <= i && i + 1 < steps
    ensures BlurRect(viewport, steps, i + 1).Width() == CDiv(BlurRect(viewport, steps, i).Width(), 2)
    ensures BlurRect(viewport, steps, i + 1).Height() == CDiv(BlurRect(viewport, steps, i).Height(), 2)
  {
    var d := Pow2(i + 1);
    assert Pow2(i + 2) == 2 * d;
    CDivTwice(viewport.Width(), d);
    CDivTwice(viewport.Height(), d);
  }

  /** The first rectangle is the viewport halved. */
  lemma BlurFirstRect(viewport: IntRect, steps: int)
    requires steps >= 1
    ensures BlurRect(viewport, steps, 0) == Rect(0, 0, CDiv(viewport.Width(), 2), CDiv(viewport.Height(), 2))
  {
  }

  /** The Up passes retrace the Down rectangles in reverse: rectangle `i` equals rectangle `2 * steps - 2 - i`. */
  lemma BlurLadderMirror(viewport: IntRect, steps: int, i: int)
    requires 0 <= i < 2 * steps - 1
    ensures BlurRect(viewport, steps, i) == BlurRect(viewport, steps, 2 * steps - 2 - i)
  {
  }

  /** The last Up pass writes a rectangle of the viewport's own size at the origin. */
  lemma BlurLastRect(viewport: IntRect, steps: int)
    requires steps >= 1
    ensures BlurRect(viewport, steps, 2 * steps - 1) == Rect(0, 0, viewport.Width(), viewport.Height())
  {
  }

  /**
   * The shape of the blur: pass `i` is Down exactly when `i < steps`; it
   * reads the buffer and the rectangle the previous pass wrote (the input
   * and the viewport for pass 0); its texture has the size of its rectangle;
   * the stage returns the last buffer written.
   */
  lemma BlurChain(input: TextureRef, viewport: IntRect, steps: int, t0: nat)
    requires steps >= 1
    ensures var st := BlurStage(input, viewport, steps, t0);
      && st.passes[0].input == input
      && st.passes[0].draw.inputRect == viewport
      && st.output == st.passes[|st.passes| - 1].target
      && (forall i :: 0 <= i < |st.passes| ==>
            && (st.passes[i].shader == KawaseDownShader <==> i < steps)
            && st.passes[i].draw.Rectangle?
            && st.textures[i].extent == st.passes[i].draw.outputRect.Size()
            && st.textures[i].name == st.passes[i].name)
      && (forall i :: 0 < i < |st.passes| ==>
            && st.passes[i].input == st.passes[i - 1].target
            && st.passes[i].draw.inputRect == st.passes[i - 1].draw.outputRect)
  {
    var st := BlurStage(input, viewport, steps, t0);
    forall i | 0 <= i < |st.passes|
      ensures (st.passes[i].shader == KawaseDownShader <==> i < steps)
      ensures st.passes[i].draw.Rectangle?
      ensures st.textures[i].extent == st.passes[i].draw.outputRect.Size()
      ensures st.textures[i].name == st.passes[i].name
    {
      BlurAt(input, viewport, steps, t0, i);
    }
    forall i | 0 < i < |st.passes|
      ensures st.passes[i].input == st.passes[i - 1].target
      ensures st.passes[i].draw.inputRect == st.passes[i - 1].draw.outputRect
    {
      BlurAt(input, viewport, steps, t0, i);
      BlurAt(input, viewport, steps, t0, i - 1);
    }
    BlurAt(input, viewport, steps, t0, 0);
    BlurAt(input, viewport, steps, t0, |st.passes| - 1);
  }

  lemma BlurAt(input: TextureRef, viewport: IntRect, steps: int, t0: nat, i: int)
    requires 0 <= i < BlurCount(steps)
    ensures BlurStage(input, viewport, steps, t0).passes[i] == BlurPass(input, viewport, steps, t0, i)
    ensures BlurStage(input, viewport, steps, t0).textures[i] == BlurTexture(viewport, steps, i)
  {
  }

  /** No two passes of one blur share a name. */
  lemma BlurNamesDistinct(input: TextureRef, viewport: IntRect, steps: int, t0: nat, i: int, j: int)
    requires 0 <= i < j < BlurCount(steps)
    ensures BlurStage(input, viewport, steps, t0).passes[i].name.Text() != BlurStage(input, viewport, steps, t0).passes[j].name.Text()
  {
    BlurAt(input, viewport, steps, t0, i);
    BlurAt(input, viewport, steps, t0, j);
    var ri, rj := BlurRect(viewport, steps, i), BlurRect(viewport, steps, j);
    BlurPassNamesDistinct(i, j, i < steps, j < steps, ri.Width(), rj.Width(), ri.Height(), rj.Height());
  }

  /** The blur reads only its input and its own buffers, writes only the textures it created, and returns one of those or its input. */
  lemma BlurClosed(input: TextureRef, viewport: IntRect, steps: int, t0: nat)
    ensures Closed(BlurStage(input, viewport, steps, t0).passes, {input})
    ensures TargetsIn(BlurStage(input, viewport, steps, t0).passes, t0, t0 + BlurCount(steps))
    ensures BlurStage(input, viewport, steps, t0).output in {input} + Written(BlurStage(input, viewport, steps, t0).passes)
  {
    BlurReadsEarlier(input, viewport, steps, t0);
    BlurTargets(input, viewport, steps, t0);
  }

  /** Each blur pass reads its input or the buffer the pass before it wrote. */
  lemma BlurReadsEarlier(input: TextureRef, viewport: IntRect, steps: int, t0: nat)
    ensures Closed(BlurStage(input, viewport, steps, t0).passes, {input})
  {
    var ps := BlurStage(input, viewport, steps, t0).passes;
    forall i | 0 <= i < |ps|
      ensures Reads(ps[i]) <= {input} + WrittenBefore(ps, i)
    {
      BlurAt(input, viewport, steps, t0, i);
      if i > 0 {
        BlurAt(input, viewport, steps, t0, i - 1);
        assert ps[i - 1].target in WrittenBefore(ps, i);
      }
    }
  }

  /** Blur pass `i` writes texture `t0 + i`, and the blur returns the last one written, or its input. */
  lemma BlurTargets(input: TextureRef, viewport: IntRect, steps: int, t0: nat)
    ensures TargetsIn(BlurStage(input, viewport, steps, t0).passes, t0, t0 + BlurCount(steps))
    ensures BlurStage(input, viewport, steps, t0).output in {input} + Written(BlurStage(input, viewport, steps, t0).passes)
  {
    var st := BlurStage(input, viewport, steps, t0);
    forall i | 0 <= i < |st.passes|
      ensures st.passes[i].target == Transient(t0 + i)
    {
      BlurAt(input, viewport, steps, t0, i);
    }
    if |st.passes| > 0 {
      assert st.passes[|st.passes| - 1].target == st.output;
    }
  }

  // ---------------------------------------------------------------------
  // RenderThreshold, RenderFlare, RenderGlare
  // ---------------------------------------------------------------------

  /** `RenderThreshold`: a downsample to `InputRect / 2` (per corner), then a one-step blur of it. */
  function ThresholdStage(input: TextureRef, inputRect: IntRect, config: LensFlareSettings, t0: nat): Stage {
    var v4 := DivRect(inputRect, 2);
    var down := Pass(
      Named("LensFlareDownsample"), DownsampleShader, input, Transient(t0), NoAction, ClearBlend,
      Rectangle(inputRect, v4), DownsampleParams(inputRect.Size(), config.thresholdLevel, config.thresholdRange));
    var blur := BlurStage(Transient(t0), v4, 1, t0 + 1);
    Stage([down] + blur.passes, [TextureDesc(Named("LensFlareDownsample"), v4.Size())] + blur.textures, blur.output)
  }

  /** The flare working rectangle: the view halved, at the origin. */
  function FlareViewport(viewRect: IntRect): IntRect {
    Rect(0, 0, CDiv(viewRect.Width(), 2), CDiv(viewRect.Height(), 2))
  }

  /** The three passes `RenderFlare` draws before its blur: chromatic shift, ghosts and halo. */
  function FlareFront(input: TextureRef, viewRect: IntRect, config: LensFlareSettings, t0: nat): seq<Pass> {
    var v2 := FlareViewport(viewRect);
    var chroma := Pass(
      Named("LensFlareChromaGhost"), ChromaShader, input, Transient(t0), NoAction, ClearBlend,
      Rectangle(v2, v2), ChromaParams(config.ghostChromaShift));
    var ghosts := Pass(
      Named("LensFlareGhosts"), GhostsShader, Transient(t0), Transient(t0 + 1), NoAction, ClearBlend,
      Rectangle(v2, v2), GhostParams(config.ghostIntensity, GhostColors(config), GhostScales(config)));
    var halo := Pass(
      Named("LensFlareHalo"), HaloShader, input, Transient(t0 + 1), Load, AdditiveBlend,
      Rectangle(v2, v2),
      HaloParams(config.haloIntensity, config.haloWidth, config.haloMask, config.haloCompression, config.haloChromaShift));
    [chroma, ghosts, halo]
  }

  /**
   * `RenderFlare`: chromatic shift of the input, ghosts from that, the halo
   * of the input added onto the ghosts' buffer, then a one-step blur of it.
   */
  function FlareStage(input: TextureRef, viewRect: IntRect, config: LensFlareSettings, t0: nat): Stage {
    var v2 := FlareViewport(viewRect);
    var blur := BlurStage(Transient(t0 + 1), v2, 1, t0 + 2);
    Stage(
      FlareFront(input, viewRect, config, t0) + blur.passes,
      [TextureDesc(Named("LensFlareChromaGhost"), v2.Size()), TextureDesc(Named("LensFlareGhosts"), v2.Size())] + blur.textures,
      blur.output)
  }

  /** The glare working rectangle: the view quartered, at the origin. */
  function GlareViewport(viewRect: IntRect): IntRect {
    Rect(0, 0, CDiv(viewRect.Width(), 4), CDiv(viewRect.Height(), 4))
  }

  /** One point per 2x2 block of the glare rectangle. */
  function GlareTileCount(v4: IntRect): IntPoint {
    IntPoint(CDiv(v4.Width(), 2), CDiv(v4.Height(), 2))
  }

  /** `BufferRatio = (Height / Width, 1)`; no real value for an empty width. */
  function GlareBufferRatio(v4: IntRect): Option<Vector2> {
    if v4.Width() == 0 then None else Some(Vector2((v4.Height() as real) / (v4.Width() as real), 1.0))
  }

  /** `PixelSize = (1 / Width, 1 / Height, 1 / Width, -1 / Height)`; no real value for an empty side. */
  function GlarePixelSize(v4: IntRect): Option<Vector4> {
    if v4.Width() == 0 || v4.Height() == 0 then None
    else
      var px, py := 1.0 / (v4.Width() as real), 1.0 / (v4.Height() as real);
      Some(Vector4(px, py, px, -py))
  }

  /** `RenderGlare`: nothing unless the glare intensity exceeds `SMALL_NUMBER`, else one additive point pass. */
  function GlareStage(input: TextureRef, viewRect: IntRect, config: LensFlareSettings, t0: nat): Option<Stage> {
    if !(config.glareIntensity > SmallNumber) then None
    else
      var v4 := GlareViewport(viewRect);
      var tiles := GlareTileCount(v4);
      var pass := Pass(
        Named("LensFlareGlare"), GlareShader, input, Transient(t0), Clear, AdditiveBlend,
        Points(v4, tiles.x * tiles.y),
        GlareParams(
          tiles, v4.Size(), GlareBufferRatio(v4), GlarePixelSize(v4),
          config.glareIntensity, config.glareTint, config.glareScale, config.glareAngles,
          Max(config.glareDivider, GlareDividerFloor), Binding(config.glareLineMask)));
      Some(Stage([pass], [TextureDesc(Named("LensFlareGlare"), v4.Size())], Transient(t0)))
  }

  /** The threshold viewport is `InputRect / 2`, corner by corner, and the blur after it starts from there. */
  lemma ThresholdShape(input: TextureRef, inputRect: IntRect, config: LensFlareSettings, t0: nat)
    ensures var st := ThresholdStage(input, inputRect, config, t0);
      && |st.passes| == 3 && |st.textures| == 3
      && st.passes[0].input == input
      && st.passes[0].draw == Rectangle(inputRect, DivRect(inputRect, 2))
      && st.passes[0].params.inputSize == inputRect.Size()
      && st.passes[1].input == st.passes[0].target
      && st.passes[1].draw.inputRect == DivRect(inputRect, 2)
      && st.output == st.passes[2].target
      && st.passes[2].draw.outputRect.Size() == DivRect(inputRect, 2).Size()
  {
    var v4 := DivRect(inputRect, 2);
    BlurLastRect(v4, 1);
  }

  /**
   * The flare works on the view halved: chroma, ghosts and halo at that
   * rectangle, the halo adding onto (and so reading) the ghosts' buffer,
   * and the blur ending at a rectangle of the same size.
   */
  lemma FlareShape(input: TextureRef, viewRect: IntRect, config: LensFlareSettings, t0: nat)
    ensures var st := FlareStage(input, viewRect, config, t0);
      var v2 := Rect(0, 0, CDiv(viewRect.Width(), 2), CDiv(viewRect.Height(), 2));
      && |st.passes| == 5 && |st.textures| == 4
      && st.passes[0].input == input && st.passes[2].input == input
      && st.passes[1].input == st.passes[0].target
      && st.passes[2].target == st.passes[1].target
      && st.passes[2].load == Load && st.passes[2].blend == AdditiveBlend
      && (forall k :: 0 <= k < 3 ==> st.passes[k].draw == Rectangle(v2, v2))
      && st.passes[3].input == st.passes[2].target
      && st.output == st.passes[4].target
      && st.passes[4].draw.outputRect == v2
  {
    var v2 := FlareViewport(viewRect);
    BlurLastRect(v2, 1);
  }

  /** The ghost pass uploads slot k's colour and scale at position k - 1. */
  lemma FlareGhostSlots(input: TextureRef, viewRect: IntRect, config: LensFlareSettings, t0: nat, k: int)
    requires 1 <= k <= 8
    ensures var p := FlareStage(input, viewRect, config, t0).passes[1].params;
      p.ghostColors[k - 1] == Ghost(config, k).color && p.ghostScales[k - 1] == Ghost(config, k).scale
  {
  }

  /**
   * The glare is skipped exactly when its intensity is at most `SMALL_NUMBER`.
   * Otherwise it clears a quarter-view texture and adds one point per 2x2
   * tile onto it, tile counts being the view divided by 8 with truncation;
   * the divider it passes on is the config's, but never below the floor;
   * the line mask is white unless the config sets one.
   */
  lemma GlareShape(input: TextureRef, viewRect: IntRect, config: LensFlareSettings, t0: nat)
    ensures GlareStage(input, viewRect, config, t0).None? <==> config.glareIntensity <= SmallNumber
    ensures GlareStage(input, viewRect, config, t0).Some? ==>
      var st := GlareStage(input, viewRect, config, t0).value;
      var p := st.passes[0];
      var tiles := IntPoint(CDiv(viewRect.Width(), 8), CDiv(viewRect.Height(), 8));
      && |st.passes| == 1 && |st.textures| == 1
      && st.output == p.target && p.input == input
      && p.load == Clear && p.blend == AdditiveBlend
      && st.textures[0].extent == IntPoint(CDiv(viewRect.Width(), 4), CDiv(viewRect.Height(), 4))
      && p.params.tileCount == tiles
      && p.draw == Points(GlareViewport(viewRect), tiles.x * tiles.y)
      && p.params.glareDivider >= GlareDividerFloor
      && (config.glareDivider >= GlareDividerFloor ==> p.params.glareDivider == config.glareDivider)
      && (p.params.lineMask == WhiteTexture <==> config.glareLineMask.None?)
  {
    CDivTwice(viewRect.Width(), 4);
    CDivTwice(viewRect.Height(), 4);
  }

  /**
   * The defaults of the per-view record, read as glare parameters, pass the
   * intensity gate, and their divider of 60 passes the floor unchanged. The
   * renderer itself reads its loaded config, not this record: this states
   * only that the defaults sit on the running side of both thresholds.
   */
  lemma DefaultsRunGlare(input: TextureRef, viewRect: IntRect, t0: nat)
    ensures GlareStage(input, viewRect, DefaultPerViewData(), t0).Some?
    ensures GlareStage(input, viewRect, DefaultPerViewData(), t0).value.passes[0].params.glareDivider == 60.0
  {
  }

  // ---------------------------------------------------------------------
  // RenderLensFlare
  // ---------------------------------------------------------------------

  /** The rescale pass runs when the half-scene-colour rectangle does not cover its extent. */
  predicate NeedsRescale(sc: ScreenTexture) {
    sc.rect.Width() != sc.extent.x || sc.rect.Height() != sc.extent.y
  }

  /** `LensFlareRescale`: copies the half-scene-colour rectangle into a texture of exactly its size. */
  function RescaleStage(sc: ScreenTexture, t0: nat): Stage {
    var p := Pass(
      Named("LensFlareRescale"), RescaleShader, sc.texture, Transient(t0), NoAction, ClearBlend,
      Rectangle(sc.rect, sc.rect), RescaleParams(GetInputViewportSize(sc.rect, sc.extent)));
    Stage([p], [TextureDesc(Named("LensFlareRescale"), sc.rect.Size())], Transient(t0))
  }

  /** The mix rectangle, which is also the output rectangle: the view's size at the origin. */
  function MixViewport(viewRect: IntRect): IntRect {
    Rect(0, 0, viewRect.Width(), viewRect.Height())
  }

  function MixPixelSize(mv: IntRect): Option<Vector2> {
    if mv.Width() == 0 || mv.Height() == 0 then None
    else Some(Vector2(1.0 / (mv.Width() as real), 1.0 / (mv.Height() as real)))
  }

  function Flag(b: bool): int {
    if b then 1 else 0
  }

  /** `LensFlareMix`: the flare (or the input) as main input, the bloom and the glare (or the input) bound beside it. */
  function MixPass(inp: FrameInputs, config: LensFlareSettings, input: TextureRef,
                   flare: Option<TextureRef>, glare: Option<TextureRef>, t: nat): Pass
  {
    var mv := MixViewport(inp.viewRect);
    Pass(
      Named("LensFlareMix"), MixShader, flare.GetOr(input), Transient(t), NoAction, ClearBlend,
      Rectangle(mv, mv),
      MixParams(
        IntVector(inp.cvars.renderBloom, Flag(flare.Some?), Flag(glare.Some?)),
        inp.bloom.texture, glare.GetOr(input), Binding(config.gradient), config.tint, config.intensity,
        mv.Size(), MixPixelSize(mv), GetInputViewportSize(inp.bloom.rect, inp.bloom.extent)))
  }

  function OptPasses(s: Option<Stage>): seq<Pass> {
    if s.Some? then s.value.passes else []
  }

  function OptTextures(s: Option<Stage>): seq<TextureDesc> {
    if s.Some? then s.value.textures else []
  }

  function OptOutput(s: Option<Stage>): Option<TextureRef> {
    if s.Some? then Some(s.value.output) else None
  }

  /** The optional rescale: when it runs, its output replaces the bloom texture as the input of later passes. */
  function RescaleStep(inp: FrameInputs, t0: nat): Stage {
    if NeedsRescale(inp.halfSceneColor) then RescaleStage(inp.halfSceneColor, t0)
    else Stage([], [], inp.bloom.texture)
  }

  function FlareStep(inp: FrameInputs, config: LensFlareSettings, input: TextureRef, t: nat): Option<Stage> {
    if inp.cvars.renderFlare != 0 then Some(FlareStage(input, inp.viewRect, config, t)) else None
  }

  function GlareStep(inp: FrameInputs, config: LensFlareSettings, input: TextureRef, t: nat): Option<Stage> {
    if inp.cvars.renderGlare != 0 then GlareStage(input, inp.viewRect, config, t) else None
  }

  /** The stages of one frame, each declared after the ones before it. */
  datatype FrameStages = FrameStages(
    rescale: Stage, threshold: Stage, flare: Option<Stage>, glare: Option<Stage>, mix: Pass, mixTexture: TextureDesc)

  function Stages(inp: FrameInputs, config: LensFlareSettings, t0: nat): FrameStages {
    var rescale := RescaleStep(inp, t0);
    var t1 := t0 + |rescale.textures|;
    var threshold := ThresholdStage(rescale.output, inp.halfSceneColor.rect, config, t1);
    var t2 := t1 + |threshold.textures|;
    var flare := FlareStep(inp, config, threshold.output, t2);
    var t3 := t2 + |OptTextures(flare)|;
    var glare := GlareStep(inp, config, threshold.output, t3);
    var t4 := t3 + |OptTextures(glare)|;
    FrameStages(
      rescale, threshold, flare, glare,
      MixPass(inp, config, rescale.output, OptOutput(flare), OptOutput(glare), t4),
      TextureDesc(Named("LensFlareMix"), MixViewport(inp.viewRect).Size()))
  }

  /** `RenderLensFlare` with a valid config, `t0` textures having been created before it. */
  function Frame(inp: FrameInputs, config: LensFlareSettings, t0: nat): Plan {
    var s := Stages(inp, config, t0);
    Plan(
      s.rescale.passes + s.threshold.passes + OptPasses(s.flare) + OptPasses(s.glare) + [s.mix],
      s.rescale.textures + s.threshold.textures + OptTextures(s.flare) + OptTextures(s.glare) + [s.mixTexture],
      s.mix.target,
      MixViewport(inp.viewRect))
  }

  // ---------------------------------------------------------------------
  // Properties of a whole frame
  // ---------------------------------------------------------------------

  /**
   * A rescale pass is declared exactly when the half-scene-colour rectangle
   * does not cover its extent; it reads the half-scene colour into a texture
   * of the rectangle's size, which the threshold then reads. Without it the
   * threshold reads the bloom texture.
   */
  lemma FrameRescale(inp: FrameInputs, config: LensFlareSettings, t0: nat)
    ensures var pl := Frame(inp, config, t0);
      var sc := inp.halfSceneColor;
      && (pl.passes[0].shader == RescaleShader <==> NeedsRescale(sc))
      && (NeedsRescale(sc) ==>
            && pl.passes[0].input == sc.texture
            && pl.textures[0].extent == sc.rect.Size()
            && pl.passes[1].input == pl.passes[0].target)
      && (!NeedsRescale(sc) ==> pl.passes[0].input == inp.bloom.texture)
  {
  }

  /**
   * The mix is the last pass and writes the output: a texture of the view's
   * size over the rectangle `(0, 0, ViewW, ViewH)`. Its `MixPass` flags are
   * the bloom console variable, whether a flare texture exists and whether a
   * glare texture exists. The flare and glare outputs are bound when those
   * stages ran, and the input texture in place of a missing one.
   */
  lemma FrameMix(inp: FrameInputs, config: LensFlareSettings, t0: nat)
    ensures var pl := Frame(inp, config, t0);
      var mix := pl.passes[|pl.passes| - 1];
      var input := RescaleStep(inp, t0).output;
      var hasFlare := inp.cvars.renderFlare != 0;
      var hasGlare := inp.cvars.renderGlare != 0 && config.glareIntensity > SmallNumber;
      && mix.shader == MixShader
      && pl.outputTexture == mix.target
      && pl.outputRect == Rect(0, 0, inp.viewRect.Width(), inp.viewRect.Height())
      && mix.draw == Rectangle(pl.outputRect, pl.outputRect)
      && pl.textures[|pl.textures| - 1].extent == pl.outputRect.Size()
      && mix.params.mixPass == IntVector(inp.cvars.renderBloom, Flag(hasFlare), Flag(hasGlare))
      && mix.params.bloomTexture == inp.bloom.texture
      && (!hasFlare ==> mix.input == input)
      && (!hasGlare ==> mix.params.glareTexture == input)
      && (Stages(inp, config, t0).flare.Some? ==> mix.input == Stages(inp, config, t0).flare.value.output)
      && (Stages(inp, config, t0).glare.Some? ==> mix.params.glareTexture == Stages(inp, config, t0).glare.value.output)
      && (mix.params.gradient == WhiteTexture <==> config.gradient.None?)
  {
  }

  /** How many passes and textures a frame declares, by which stages run. */
  lemma FrameCounts(inp: FrameInputs, config: LensFlareSettings, t0: nat)
    ensures var pl := Frame(inp, config, t0);
      var r := Flag(NeedsRescale(inp.halfSceneColor));
      var f := Flag(inp.cvars.renderFlare != 0);
      var g := Flag(inp.cvars.renderGlare != 0 && config.glareIntensity > SmallNumber);
      && |pl.passes| == r + 3 + 5 * f + g + 1
      && |pl.textures| == r + 3 + 4 * f + g + 1
  {
  }

  lemma ThresholdClosed(input: TextureRef, inputRect: IntRect, config: LensFlareSettings, t0: nat)
    ensures Closed(ThresholdStage(input, inputRect, config, t0).passes, {input})
    ensures TargetsIn(ThresholdStage(input, inputRect, config, t0).passes, t0, t0 + 3)
    ensures |ThresholdStage(input, inputRect, config, t0).textures| == 3
    ensures ThresholdStage(input, inputRect, config, t0).output in Written(ThresholdStage(input, inputRect, config, t0).passes)
  {
    var st := ThresholdStage(input, inputRect, config, t0);
    var v4 := DivRect(inputRect, 2);
    var down := [st.passes[0]];
    var blur := BlurStage(Transient(t0), v4, 1, t0 + 1);
    assert st.passes == down + blur.passes;
    assert Written(down) == {Transient(t0)} by {
      assert down[0].target == Transient(t0);
    }
    BlurClosed(Transient(t0), v4, 1, t0 + 1);
    ClosedMonotone(blur.passes, {Transient(t0)}, {input} + Written(down));
    ClosedAppend(down, blur.passes, {input});
    TargetsInAppend(down, blur.passes, t0, t0 + 1, t0 + 3);
  }

  lemma FlareClosed(input: TextureRef, viewRect: IntRect, config: LensFlareSettings, t0: nat)
    ensures Closed(FlareStage(input, viewRect, config, t0).passes, {input})
    ensures TargetsIn(FlareStage(input, viewRect, config, t0).passes, t0, t0 + 4)
    ensures |FlareStage(input, viewRect, config, t0).textures| == 4
    ensures FlareStage(input, viewRect, config, t0).output in Written(FlareStage(input, viewRect, config, t0).passes)
  {
    var front := FlareFront(input, viewRect, config, t0);
    var blur := BlurStage(Transient(t0 + 1), FlareViewport(viewRect), 1, t0 + 2);
    FlareFrontClosed(input, viewRect, config, t0);
    BlurClosed(Transient(t0 + 1), FlareViewport(viewRect), 1, t0 + 2);
    ClosedMonotone(blur.passes, {Transient(t0 + 1)}, {input} + Written(front));
    ClosedAppend(front, blur.passes, {input});
    TargetsInAppend(front, blur.passes, t0, t0 + 2, t0 + 4);
  }

  lemma FlareFrontClosed(input: TextureRef, viewRect: IntRect, config: LensFlareSettings, t0: nat)
    ensures Closed(FlareFront(input, viewRect, config, t0), {input})
    ensures TargetsIn(FlareFront(input, viewRect, config, t0), t0, t0 + 2)
    ensures Transient(t0 + 1) in Written(FlareFront(input, viewRect, config, t0))
  {
    var front := FlareFront(input, viewRect, config, t0);
    assert front[1].input == front[0].target;
    assert front[2].target == front[1].target == Transient(t0 + 1);
  }

  lemma GlareClosed(input: TextureRef, viewRect: IntRect, config: LensFlareSettings, t0: nat)
    requires GlareStage(input, viewRect, config, t0).Some?
    ensures Closed(GlareStage(input, viewRect, config, t0).value.passes, {input})
    ensures TargetsIn(GlareStage(input, viewRect, config, t0).value.passes, t0, t0 + 1)
    ensures |GlareStage(input, viewRect, config, t0).value.textures| == 1
    ensures GlareStage(input, viewRect, config, t0).value.output in Written(GlareStage(input, viewRect, config, t0).value.passes)
  {
    var st := GlareStage(input, viewRect, config, t0).value;
    assert st.passes[0].target == st.output;
  }

  /** Five blocks run in order, each reading what the blocks before it provide, are closed together. */
  lemma BlocksClosed(a: seq<Pass>, b: seq<Pass>, c: seq<Pass>, d: seq<Pass>, e: seq<Pass>,
                     avail: set<TextureRef>, x: TextureRef, y: TextureRef)
    requires Closed(a, avail) && x in avail + Written(a)
    requires Closed(b, {x}) && y in Written(b)
    requires Closed(c, {y}) && Closed(d, {y})
    requires Closed(e, avail + Written(a) + Written(b) + Written(c) + Written(d))
    ensures Closed(a + b + c + d + e, avail)
  {
    ClosedMonotone(b, {x}, avail + Written(a));
    ClosedAppend(a, b, avail);
    ClosedMonotone(c, {y}, avail + Written(a + b));
    ClosedAppend(a + b, c, avail);
    ClosedMonotone(d, {y}, avail + Written(a + b + c));
    ClosedAppend(a + b + c, d, avail);
    ClosedAppend(a + b + c + d, e, avail);
  }

  lemma BlocksTargets(a: seq<Pass>, b: seq<Pass>, c: seq<Pass>, d: seq<Pass>, e: seq<Pass>,
                      t0: nat, t1: nat, t2: nat, t3: nat, t4: nat, t5: nat)
    requires t0 <= t1 <= t2 <= t3 <= t4 <= t5
    requires TargetsIn(a, t0, t1) && TargetsIn(b, t1, t2) && TargetsIn(c, t2, t3)
    requires TargetsIn(d, t3, t4) && TargetsIn(e, t4, t5)
    ensures TargetsIn(a + b + c + d + e, t0, t5)
  {
    TargetsInAppend(a, b, t0, t1, t2);
    TargetsInAppend(a + b, c, t0, t2, t3);
    TargetsInAppend(a + b + c, d, t0, t3, t4);
    TargetsInAppend(a + b + c + d, e, t0, t4, t5);
  }

  /** The mix reads the bloom texture, the frame's input and whichever of flare and glare exist. */
  lemma MixReads(inp: FrameInputs, config: LensFlareSettings, input: TextureRef,
                 flare: Option<TextureRef>, glare: Option<TextureRef>, t: nat, avail: set<TextureRef>)
    requires inp.bloom.texture in avail && input in avail
    requires flare.Some? ==> flare.value in avail
    requires glare.Some? ==> glare.value in avail
    ensures Closed([MixPass(inp, config, input, flare, glare, t)], avail)
  {
    var mix := MixPass(inp, config, input, flare, glare, t);
    assert Reads(mix) == {flare.GetOr(input), inp.bloom.texture, glare.GetOr(input)};
  }

  /**
   * A frame is a valid graph: every pass reads only the two textures the
   * hook was given or a texture an earlier pass wrote, and every pass writes
   * a texture the frame created. The output is the last texture created.
   */
  lemma FrameClosed(inp: FrameInputs, config: LensFlareSettings, t0: nat)
    ensures var pl := Frame(inp, config, t0);
      && Closed(pl.passes, {inp.bloom.texture, inp.halfSceneColor.texture})
      && TargetsIn(pl.passes, t0, t0 + |pl.textures|)
      && pl.outputTexture == Transient(t0 + |pl.textures| - 1)
  {
    FramePassesClosed(inp, config, t0);
    FrameTargets(inp, config, t0);
  }

  lemma FramePassesClosed(inp: FrameInputs, config: LensFlareSettings, t0: nat)
    ensures Closed(Frame(inp, config, t0).passes, {inp.bloom.texture, inp.halfSceneColor.texture})
  {
    var avail := {inp.bloom.texture, inp.halfSceneColor.texture};
    var s := Stages(inp, config, t0);
    var a, b, c, d := s.rescale.passes, s.threshold.passes, OptPasses(s.flare), OptPasses(s.glare);
    RescaleStepClosed(inp, t0);
    ThresholdStepClosed(inp, config, t0);
    FlareStepClosed(inp, config, t0);
    GlareStepClosed(inp, config, t0);
    MixStepClosed(inp, config, t0, avail + Written(a) + Written(b) + Written(c) + Written(d));
    BlocksClosed(a, b, c, d, [s.mix], avail, s.rescale.output, s.threshold.output);
  }

  lemma FrameTargets(inp: FrameInputs, config: LensFlareSettings, t0: nat)
    ensures TargetsIn(Frame(inp, config, t0).passes, t0, t0 + |Frame(inp, config, t0).textures|)
    ensures Frame(inp, config, t0).outputTexture == Transient(t0 + |Frame(inp, config, t0).textures| - 1)
  {
    var s := Stages(inp, config, t0);
    var t1 := t0 + |s.rescale.textures|;
    var t2 := t1 + |s.threshold.textures|;
    var t3 := t2 + |OptTextures(s.flare)|;
    var t4 := t3 + |OptTextures(s.glare)|;
    RescaleStepClosed(inp, t0);
    ThresholdStepClosed(inp, config, t0);
    FlareStepClosed(inp, config, t0);
    GlareStepClosed(inp, config, t0);
    var outs := {inp.bloom.texture, s.rescale.output}
      + (if s.flare.Some? then {s.flare.value.output} else {})
      + (if s.glare.Some? then {s.glare.value.output} else {});
    MixStepClosed(inp, config, t0, outs);
    BlocksTargets(s.rescale.passes, s.threshold.passes, OptPasses(s.flare), OptPasses(s.glare), [s.mix],
                  t0, t1, t2, t3, t4, t4 + 1);
  }

  lemma RescaleStepClosed(inp: FrameInputs, t0: nat)
    ensures Closed(RescaleStep(inp, t0).passes, {inp.bloom.texture, inp.halfSceneColor.texture})
    ensures RescaleStep(inp, t0).output in {inp.bloom.texture, inp.halfSceneColor.texture} + Written(RescaleStep(inp, t0).passes)
    ensures TargetsIn(RescaleStep(inp, t0).passes, t0, t0 + |RescaleStep(inp, t0).textures|)
  {
    var r := RescaleStep(inp, t0);
    if NeedsRescale(inp.halfSceneColor) {
      assert r.passes[0].target == r.output;
    }
  }

  lemma ThresholdStepClosed(inp: FrameInputs, config: LensFlareSettings, t0: nat)
    ensures var s := Stages(inp, config, t0);
      var t1 := t0 + |s.rescale.textures|;
      Closed(s.threshold.passes, {s.rescale.output}) && s.threshold.output in Written(s.threshold.passes)
      && TargetsIn(s.threshold.passes, t1, t1 + |s.threshold.textures|)
  {
    var s := Stages(inp, config, t0);
    var t1 := t0 + |s.rescale.textures|;
    assert s.threshold == ThresholdStage(s.rescale.output, inp.halfSceneColor.rect, config, t1);
    ThresholdClosed(s.rescale.output, inp.halfSceneColor.rect, config, t1);
  }

  lemma FlareStepClosed(inp: FrameInputs, config: LensFlareSettings, t0: nat)
    ensures var s := Stages(inp, config, t0);
      var t2 := t0 + |s.rescale.textures| + |s.threshold.textures|;
      var c := OptPasses(s.flare);
      Closed(c, {s.threshold.output}) && TargetsIn(c, t2, t2 + |OptTextures(s.flare)|)
      && (s.flare.Some? ==> s.flare.value.output in Written(c))
  {
    var s := Stages(inp, config, t0);
    var t2 := t0 + |s.rescale.textures| + |s.threshold.textures|;
    assert s.flare == FlareStep(inp, config, s.threshold.output, t2);
    if s.flare.Some? {
      FlareClosed(s.threshold.output, inp.viewRect, config, t2);
    }
  }

  lemma GlareStepClosed(inp: FrameInputs, config: LensFlareSettings, t0: nat)
    ensures var s := Stages(inp, config, t0);
      var t3 := t0 + |s.rescale.textures| + |s.threshold.textures| + |OptTextures(s.flare)|;
      var d := OptPasses(s.glare);
      Closed(d, {s.threshold.output}) && TargetsIn(d, t3, t3 + |OptTextures(s.glare)|)
      && (s.glare.Some? ==> s.glare.value.output in Written(d))
  {
    var s := Stages(inp, config, t0);
    var t3 := t0 + |s.rescale.textures| + |s.threshold.textures| + |OptTextures(s.flare)|;
    assert s.glare == GlareStep(inp, config, s.threshold.output, t3);
    if s.glare.Some? {
      GlareClosed(s.threshold.output, inp.viewRect, config, t3);
    }
  }

  lemma MixStepClosed(inp: FrameInputs, config: LensFlareSettings, t0: nat, avail: set<TextureRef>)
    requires var s := Stages(inp, config, t0);
      && inp.bloom.texture in avail && s.rescale.output in avail
      && (s.flare.Some? ==> s.flare.value.output in avail)
      && (s.glare.Some? ==> s.glare.value.output in avail)
    ensures var s := Stages(inp, config, t0);
      var t4 := t0 + |s.rescale.textures| + |s.threshold.textures| + |OptTextures(s.flare)| + |OptTextures(s.glare)|;
      Closed([s.mix], avail) && TargetsIn([s.mix], t4, t4 + 1)
  {
    var s := Stages(inp, config, t0);
    var t4 := t0 + |s.rescale.textures| + |s.threshold.textures| + |OptTextures(s.flare)| + |OptTextures(s.glare)|;
    assert s.mix == MixPass(inp, config, s.rescale.output, OptOutput(s.flare), OptOutput(s.glare), t4);
    MixReads(inp, config, s.rescale.output, OptOutput(s.flare), OptOutput(s.glare), t4, avail);
  }

  /** The stages of a frame one by one, each declared with the textures of the ones before it counted. */
  lemma StagesInOrder(inp: FrameInputs, config: LensFlareSettings, t0: nat)
    ensures Stages(inp, config, t0).rescale == RescaleStep(inp, t0)
    ensures Stages(inp, config, t0).threshold
         == ThresholdStage(Stages(inp, config, t0).rescale.output, inp.halfSceneColor.rect, config,
                           t0 + |Stages(inp, config, t0).rescale.textures|)
    ensures Stages(inp, config, t0).flare
         == FlareStep(inp, config, Stages(inp, config, t0).threshold.output,
                      t0 + |Stages(inp, config, t0).rescale.textures| + |Stages(inp, config, t0).threshold.textures|)
    ensures Stages(inp, config, t0).glare
         == GlareStep(inp, config, Stages(inp, config, t0).threshold.output,
                      t0 + |Stages(inp, config, t0).rescale.textures| + |Stages(inp, config, t0).threshold.textures|
                         + |OptTextures(Stages(inp, config, t0).flare)|)
    ensures Stages(inp, config, t0).mix
         == MixPass(inp, config, Stages(inp, config, t0).rescale.output,
                    OptOutput(Stages(inp, config, t0).flare), OptOutput(Stages(inp, config, t0).glare),
                    t0 + |Stages(inp, config, t0).rescale.textures| + |Stages(inp, config, t0).threshold.textures|
                       + |OptTextures(Stages(inp, config, t0).flare)| + |OptTextures(Stages(inp, config, t0).glare)|)
    ensures Stages(inp, config, t0).mixTexture == TextureDesc(Named("LensFlareMix"), MixViewport(inp.viewRect).Size())
    ensures Frame(inp, config, t0).passes
         == Stages(inp, config, t0).rescale.passes + Stages(inp, config, t0).threshold.passes
            + OptPasses(Stages(inp, config, t0).flare) + OptPasses(Stages(inp, config, t0).glare) + [Stages(inp, config, t0).mix]
    ensures Frame(inp, config, t0).textures
         == Stages(inp, config, t0).rescale.textures + Stages(inp, config, t0).threshold.textures
            + OptTextures(Stages(inp, config, t0).flare) + OptTextures(Stages(inp, config, t0).glare)
            + [Stages(inp, config, t0).mixTexture]
    ensures Frame(inp, config, t0).outputTexture == Stages(inp, config, t0).mix.target
    ensures Frame(inp, config, t0).outputRect == MixViewport(inp.viewRect)
  {
  }

  /**
   * Declaring the rescale step, the threshold, the flare step, the glare
   * step and the mix one after another, each after the textures of the
   * ones before it, declares the frame.
   */
  lemma FrameBySteps(inp: FrameInputs, config: LensFlareSettings,
                     p0: seq<Pass>, p1: seq<Pass>, p2: seq<Pass>, p3: seq<Pass>, p4: seq<Pass>, p5: seq<Pass>,
                     x0: seq<TextureDesc>, x1: seq<TextureDesc>, x2: seq<TextureDesc>, x3: seq<TextureDesc>,
                     x4: seq<TextureDesc>, x5: seq<TextureDesc>,
                     input: TextureRef, threshold: TextureRef, flare: Option<TextureRef>, glare: Option<TextureRef>,
                     output: TextureRef, outputRect: IntRect)
    requires p1 == p0 + RescaleStep(inp, |x0|).passes && x1 == x0 + RescaleStep(inp, |x0|).textures
    requires input == RescaleStep(inp, |x0|).output
    requires p2 == p1 + ThresholdStage(input, inp.halfSceneColor.rect, config, |x1|).passes
    requires x2 == x1 + ThresholdStage(input, inp.halfSceneColor.rect, config, |x1|).textures
    requires threshold == ThresholdStage(input, inp.halfSceneColor.rect, config, |x1|).output
    requires p3 == p2 + OptPasses(FlareStep(inp, config, threshold, |x2|))
    requires x3 == x2 + OptTextures(FlareStep(inp, config, threshold, |x2|))
    requires flare == OptOutput(FlareStep(inp, config, threshold, |x2|))
    requires p4 == p3 + OptPasses(GlareStep(inp, config, threshold, |x3|))
    requires x4 == x3 + OptTextures(GlareStep(inp, config, threshold, |x3|))
    requires glare == OptOutput(GlareStep(inp, config, threshold, |x3|))
    requires p5 == p4 + [MixPass(inp, config, input, flare, glare, |x4|)]
    requires x5 == x4 + [TextureDesc(Named("LensFlareMix"), MixViewport(inp.viewRect).Size())]
    requires output == Transient(|x4|) && outputRect == MixViewport(inp.viewRect)
    ensures p5 == p0 + Frame(inp, config, |x0|).passes
    ensures x5 == x0 + Frame(inp, config, |x0|).textures
    ensures output == Frame(inp, config, |x0|).outputTexture && outputRect == Frame(inp, config, |x0|).outputRect
  {
    var s := Stages(inp, config, |x0|);
    StagesInOrder(inp, config, |x0|);
    assert s.rescale == RescaleStep(inp, |x0|);
    assert |x1| == |x0| + |s.rescale.textures|;
    assert s.threshold == ThresholdStage(input, inp.halfSceneColor.rect, config, |x1|);
    assert |x2| == |x1| + |s.threshold.textures|;
    assert s.flare == FlareStep(inp, config, threshold, |x2|);
    assert |x3| == |x2| + |OptTextures(s.flare)|;
    assert s.glare == GlareStep(inp, config, threshold, |x3|);
    assert |x4| == |x3| + |OptTextures(s.glare)|;
    assert s.mix == MixPass(inp, config, input, flare, glare, |x4|);
    AppendBlocks(p0, s.rescale.passes, s.threshold.passes, OptPasses(s.flare), OptPasses(s.glare), [s.mix]);
    AppendBlocks(x0, s.rescale.textures, s.threshold.textures, OptTextures(s.flare), OptTextures(s.glare), [s.mixTexture]);
  }
}
