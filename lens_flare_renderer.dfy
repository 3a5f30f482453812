/**
 * `FCustomLensFlareSceneViewExtension`: the loaded config, the lazily
 * created pipeline states, and the `Render*` methods that declare passes
 * into a graph builder. Each method appends exactly the passes and textures
 * the matching stage function of `FramePlan` describes, so every property
 * proved there holds of what the renderer declares.
 */
module LensFlareRenderer {
  import opened Common
  import opened IntRects
  import opened Vectors
  import opened Settings
  import opened Decimal
  import opened RenderGraph
  import opened FramePlan

  class Renderer {
    /** `Config`: the asset named by `ConfigPath`, once loaded. */
    var config: Option<LensFlareSettings>
    /** Whether `ClearBlendState` (and the other cached states and samplers) have been created. */
    var statesCached: bool
    /** Whether `LensFlaresHook` is bound to the renderer. */
    var hookBound: bool

    constructor()
      ensures config == None && !statesCached && !hookBound
    {
      config := None;
      statesCached := false;
      hookBound := false;
    }

    /**
     * `Initialize`: when the game ini names a config, the loaded asset
     * becomes `Config` and the hook is bound; otherwise nothing changes.
     * `loaded` is the asset `ConfigPath` names, `None` when there is no entry.
     */
    method Initialize(loaded: Option<LensFlareSettings>)
      modifies this
      ensures config == (if loaded.Some? then loaded else old(config))
      ensures hookBound == (loaded.Some? || old(hookBound))
      ensures statesCached == old(statesCached)
    {
      if loaded.Some? {
        config := loaded;
        hookBound := true;
      }
    }

    /**
     * The ladder of `RenderBlur`'s rectangles: the divider doubles after
     * each Down rectangle but the last and halves after every other one.
     */
    method BlurLadder(viewport: IntRect, steps: int) returns (viewports: seq<IntRect>)
      ensures |viewports| == BlurCount(steps)
      ensures forall k :: 0 <= k < |viewports| ==> viewports[k] == BlurRect(viewport, steps, k)
    {
      var arraySize := steps * 2;
      var divider := 2;
      viewports := [];
      var i := 0;
      while i < arraySize
        invariant 0 <= i <= BlurCount(steps)
        invariant |viewports| == i
        invariant forall k :: 0 <= k < i ==> viewports[k] == BlurRect(viewport, steps, k)
        invariant i < arraySize ==> divider == Pow2(LadderExponent(steps, i))
      {
        viewports := viewports + [Rect(0, 0, CDiv(viewport.Width(), divider), CDiv(viewport.Height(), divider))];
        if i < steps - 1 {
          divider := divider * 2;
        } else {
          divider := divider / 2;
        }
        i := i + 1;
      }
    }

    /**
     * One iteration of `RenderBlur`'s pass loop: the buffer of rectangle
     * `i`, named after the pass, and the Down or Up pass that draws the
     * previous buffer into it.
     */
    method AddBlurPass(g: GraphBuilder, input: TextureRef, viewport: IntRect, steps: int, ghost t0: nat,
                       viewports: seq<IntRect>, i: int, previous: TextureRef) returns (buffer: TextureRef)
      requires 0 <= i < BlurCount(steps) && |viewports| == BlurCount(steps)
      requires forall k :: 0 <= k < |viewports| ==> viewports[k] == BlurRect(viewport, steps, k)
      requires |g.textures| == t0 + i
      requires previous == if i == 0 then input else Transient(t0 + i - 1)
      modifies g
      ensures buffer == Transient(t0 + i)
      ensures g.passes == old(g.passes) + [BlurPass(input, viewport, steps, t0, i)]
      ensures g.textures == old(g.textures) + [BlurTexture(viewport, steps, i)]
    {
      var size := viewports[i].Size();
      var name := KawaseBlurName(i, i < steps, viewports[i].Width(), viewports[i].Height());
      buffer := g.CreateTexture(TextureDesc(name, size));
      if i < steps {
        var inputRect := if i == 0 then viewport else viewports[i - 1];
        g.AddPass(Pass(name, KawaseDownShader, previous, buffer, NoAction, ClearBlend,
                       Rectangle(inputRect, viewports[i]), BlurParams(size)));
      } else {
        g.AddPass(Pass(name, KawaseUpShader, previous, buffer, NoAction, ClearBlend,
                       Rectangle(viewports[i - 1], viewports[i]), BlurParams(size)));
      }
    }

    /**
     * `RenderBlur`: first the ladder of rectangles, then one pass per
     * rectangle, each reading the buffer the pass before it wrote.
     */
    method RenderBlur(g: GraphBuilder, input: TextureRef, viewport: IntRect, steps: int) returns (output: TextureRef)
      modifies g
      ensures g.passes == old(g.passes) + BlurStage(input, viewport, steps, |old(g.textures)|).passes
      ensures g.textures == old(g.textures) + BlurStage(input, viewport, steps, |old(g.textures)|).textures
      ensures output == BlurStage(input, viewport, steps, |old(g.textures)|).output
    {
      var arraySize := steps * 2;
      var viewports := BlurLadder(viewport, steps);
      var i := 0;
      ghost var t0 := |g.textures|;
      ghost var st := BlurStage(input, viewport, steps, t0);
      var previous := input;
      while i < arraySize
        invariant 0 <= i <= |st.passes| && |viewports| == |st.passes|
        invariant |g.textures| == t0 + i
        invariant g.passes == old(g.passes) + st.passes[..i]
        invariant g.textures == old(g.textures) + st.textures[..i]
        invariant previous == if i == 0 then input else Transient(t0 + i - 1)
      {
        previous := AddBlurPass(g, input, viewport, steps, t0, viewports, i, previous);
        BlurAt(input, viewport, steps, t0, i);
        ExtendPrefix(old(g.passes), st.passes, i);
        ExtendPrefix(old(g.textures), st.textures, i);
        i := i + 1;
      }
      assert st.passes[..i] == st.passes && st.textures[..i] == st.textures;
      output := previous;
    }

    /** `RenderThreshold`: the downsample to `InputRect / 2`, then a one-step blur. */
    method RenderThreshold(g: GraphBuilder, input: TextureRef, inputRect: IntRect) returns (output: TextureRef)
      requires config.Some?
      modifies g
      ensures g.passes == old(g.passes) + ThresholdStage(input, inputRect, config.value, |old(g.textures)|).passes
      ensures g.textures == old(g.textures) + ThresholdStage(input, inputRect, config.value, |old(g.textures)|).textures
      ensures output == ThresholdStage(input, inputRect, config.value, |old(g.textures)|).output
    {
      var cfg := config.value;
      var viewport4 := DivRect(inputRect, 2);
      var name := Named("LensFlareDownsample");
      var texture := g.CreateTexture(TextureDesc(name, viewport4.Size()));
      g.AddPass(Pass(name, DownsampleShader, input, texture, NoAction, ClearBlend,
                     Rectangle(inputRect, viewport4),
                     DownsampleParams(inputRect.Size(), cfg.thresholdLevel, cfg.thresholdRange)));
      output := RenderBlur(g, texture, viewport4, 1);
      assert g.passes == old(g.passes) + ThresholdStage(input, inputRect, cfg, |old(g.textures)|).passes;
    }

    /**
     * `RenderFlare`: chromatic shift of the input into a buffer, ghosts of
     * that into a second buffer, the halo of the input added onto the
     * second buffer, then a one-step blur of it.
     */
    method RenderFlare(g: GraphBuilder, input: TextureRef, viewRect: IntRect) returns (output: TextureRef)
      requires config.Some?
      modifies g
      ensures g.passes == old(g.passes) + FlareStage(input, viewRect, config.value, |old(g.textures)|).passes
      ensures g.textures == old(g.textures) + FlareStage(input, viewRect, config.value, |old(g.textures)|).textures
      ensures output == FlareStage(input, viewRect, config.value, |old(g.textures)|).output
    {
      var cfg := config.value;
      var viewport2 := Rect(0, 0, CDiv(viewRect.Width(), 2), CDiv(viewRect.Height(), 2));

      var chromaTexture := g.CreateTexture(TextureDesc(Named("LensFlareChromaGhost"), viewport2.Size()));
      g.AddPass(Pass(Named("LensFlareChromaGhost"), ChromaShader, input, chromaTexture, NoAction, ClearBlend,
                     Rectangle(viewport2, viewport2), ChromaParams(cfg.ghostChromaShift)));

      var texture := g.CreateTexture(TextureDesc(Named("LensFlareGhosts"), viewport2.Size()));
      g.AddPass(Pass(Named("LensFlareGhosts"), GhostsShader, chromaTexture, texture, NoAction, ClearBlend,
                     Rectangle(viewport2, viewport2),
                     GhostParams(cfg.ghostIntensity, GhostColors(cfg), GhostScales(cfg))));

      g.AddPass(Pass(Named("LensFlareHalo"), HaloShader, input, texture, Load, AdditiveBlend,
                     Rectangle(viewport2, viewport2),
                     HaloParams(cfg.haloIntensity, cfg.haloWidth, cfg.haloMask, cfg.haloCompression, cfg.haloChromaShift)));

      output := RenderBlur(g, texture, viewport2, 1);
      assert g.passes == old(g.passes) + FlareStage(input, viewRect, cfg, |old(g.textures)|).passes;
    }

    /**
     * `RenderGlare`: nothing, and no texture, unless the glare intensity
     * exceeds `SMALL_NUMBER`; otherwise one pass drawing a point per 2x2
     * tile of the quarter-view rectangle into a cleared buffer.
     */
    method RenderGlare(g: GraphBuilder, input: TextureRef, viewRect: IntRect) returns (output: Option<TextureRef>)
      requires config.Some?
      modifies g
      ensures g.passes == old(g.passes) + OptPasses(GlareStage(input, viewRect, config.value, |old(g.textures)|))
      ensures g.textures == old(g.textures) + OptTextures(GlareStage(input, viewRect, config.value, |old(g.textures)|))
      ensures output == OptOutput(GlareStage(input, viewRect, config.value, |old(g.textures)|))
    {
      var cfg := config.value;
      output := None;
      var viewport4 := Rect(0, 0, CDiv(viewRect.Width(), 4), CDiv(viewRect.Height(), 4));
      if cfg.glareIntensity > SmallNumber {
        var size := viewport4.Size();
        var tileCount := IntPoint(CDiv(size.x, 2), CDiv(size.y, 2));
        var amount := tileCount.x * tileCount.y;
        var bufferRatio := if viewport4.Width() == 0 then None
          else Some(Vector2((viewport4.Height() as real) / (viewport4.Width() as real), 1.0));
        var glareTexture := g.CreateTexture(TextureDesc(Named("LensFlareGlare"), size));
        var pixelSize: Option<Vector4> := None;
        if viewport4.Width() != 0 && viewport4.Height() != 0 {
          var px := 1.0 / (viewport4.Width() as real);
          var py := 1.0 / (viewport4.Height() as real);
          pixelSize := Some(Vector4(px, py, px, py * -1.0));
        }
        var lineMask := WhiteTexture;
        if cfg.glareLineMask.Some? {
          lineMask := AssetTexture(cfg.glareLineMask.value);
        }
        g.AddPass(Pass(Named("LensFlareGlare"), GlareShader, input, glareTexture, Clear, AdditiveBlend,
                       Points(viewport4, amount),
                       GlareParams(
                         tileCount, size, bufferRatio, pixelSize,
                         cfg.glareIntensity, cfg.glareTint, cfg.glareScale, cfg.glareAngles,
                         Max(cfg.glareDivider, GlareDividerFloor), lineMask)));
        output := Some(glareTexture);
      }
    }

    /**
     * The rescale block of `RenderLensFlare`: when the half-scene-colour
     * rectangle does not cover its extent, it is copied into a texture of
     * the rectangle's size, which becomes the input; otherwise the input
     * stays the bloom texture.
     */
    method RenderRescale(g: GraphBuilder, inp: FrameInputs) returns (input: TextureRef)
      modifies g
      ensures g.passes == old(g.passes) + RescaleStep(inp, |old(g.textures)|).passes
      ensures g.textures == old(g.textures) + RescaleStep(inp, |old(g.textures)|).textures
      ensures input == RescaleStep(inp, |old(g.textures)|).output
    {
      input := inp.bloom.texture;
      var sc := inp.halfSceneColor;
      if sc.rect.Width() != sc.extent.x || sc.rect.Height() != sc.extent.y {
        var rescaleTexture := g.CreateTexture(TextureDesc(Named("LensFlareRescale"), sc.rect.Size()));
        g.AddPass(Pass(Named("LensFlareRescale"), RescaleShader, sc.texture, rescaleTexture, NoAction, ClearBlend,
                       Rectangle(sc.rect, sc.rect), RescaleParams(GetInputViewportSize(sc.rect, sc.extent))));
        input := rescaleTexture;
      }
    }

    /** The flare of `RenderLensFlare`: drawn from the threshold's output when its console variable is on. */
    method RenderFlareIfEnabled(g: GraphBuilder, inp: FrameInputs, threshold: TextureRef) returns (flare: Option<TextureRef>)
      requires config.Some?
      modifies g
      ensures g.passes == old(g.passes) + OptPasses(FlareStep(inp, config.value, threshold, |old(g.textures)|))
      ensures g.textures == old(g.textures) + OptTextures(FlareStep(inp, config.value, threshold, |old(g.textures)|))
      ensures flare == OptOutput(FlareStep(inp, config.value, threshold, |old(g.textures)|))
    {
      flare := None;
      if inp.cvars.renderFlare != 0 {
        var f := RenderFlare(g, threshold, inp.viewRect);
        flare := Some(f);
      }
    }

    /** The glare of `RenderLensFlare`: drawn from the threshold's output when its console variable is on. */
    method RenderGlareIfEnabled(g: GraphBuilder, inp: FrameInputs, threshold: TextureRef) returns (glare: Option<TextureRef>)
      requires config.Some?
      modifies g
      ensures g.passes == old(g.passes) + OptPasses(GlareStep(inp, config.value, threshold, |old(g.textures)|))
      ensures g.textures == old(g.textures) + OptTextures(GlareStep(inp, config.value, threshold, |old(g.textures)|))
      ensures glare == OptOutput(GlareStep(inp, config.value, threshold, |old(g.textures)|))
    {
      glare := None;
      if inp.cvars.renderGlare != 0 {
        glare := RenderGlare(g, threshold, inp.viewRect);
      }
    }

    /**
     * The mix block of `RenderLensFlare`: a view-sized texture, drawn from
     * the flare (or the input), with the bloom and the glare (or the input)
     * bound beside it, the gradient white unless the config sets one.
     */
    method RenderMix(g: GraphBuilder, inp: FrameInputs, input: TextureRef,
                     flare: Option<TextureRef>, glare: Option<TextureRef>)
      returns (outputTexture: TextureRef, outputRect: IntRect)
      requires config.Some?
      modifies g
      ensures g.passes == old(g.passes) + [MixPass(inp, config.value, input, flare, glare, |old(g.textures)|)]
      ensures g.textures == old(g.textures) + [TextureDesc(Named("LensFlareMix"), MixViewport(inp.viewRect).Size())]
      ensures outputTexture == Transient(|old(g.textures)|) && outputRect == MixViewport(inp.viewRect)
    {
      var cfg := config.value;
      var mixViewport := Rect(0, 0, inp.viewRect.Width(), inp.viewRect.Height());
      var mixTexture := g.CreateTexture(TextureDesc(Named("LensFlareMix"), mixViewport.Size()));
      var gradient := WhiteTexture;
      if cfg.gradient.Some? {
        gradient := AssetTexture(cfg.gradient.value);
      }
      var mixPass := IntVector(inp.cvars.renderBloom, if flare.Some? then 1 else 0, if glare.Some? then 1 else 0);
      var mainInput := if flare.Some? then flare.value else input;
      var glareInput := if glare.Some? then glare.value else input;
      g.AddPass(Pass(Named("LensFlareMix"), MixShader, mainInput, mixTexture, NoAction, ClearBlend,
                     Rectangle(mixViewport, mixViewport),
                     MixParams(
                       mixPass, inp.bloom.texture, glareInput, gradient, cfg.tint, cfg.intensity,
                       mixViewport.Size(), MixPixelSize(mixViewport),
                       GetInputViewportSize(inp.bloom.rect, inp.bloom.extent))));
      outputTexture, outputRect := mixTexture, mixViewport;
    }

    /**
     * `RenderLensFlare`: nothing without a valid config (the outputs stay
     * empty). Otherwise the states are created on first use; the half-scene
     * colour is rescaled when its rectangle does not cover its extent, and
     * the rescaled texture then replaces the bloom texture as input; the
     * threshold always runs, the flare and the glare when their console
     * variables are set; the mix combines them into the output.
     */
    method RenderLensFlare(g: GraphBuilder, inp: FrameInputs) returns (outputs: Option<(TextureRef, IntRect)>)
      modifies this, g
      ensures config == old(config) && hookBound == old(hookBound)
      ensures statesCached == (old(statesCached) || config.Some?)
      ensures config.None? ==> outputs.None? && g.passes == old(g.passes) && g.textures == old(g.textures)
      ensures config.Some? ==> g.passes == old(g.passes) + Frame(inp, config.value, |old(g.textures)|).passes
      ensures config.Some? ==> g.textures == old(g.textures) + Frame(inp, config.value, |old(g.textures)|).textures
      ensures config.Some? ==> outputs == Some((Frame(inp, config.value, |old(g.textures)|).outputTexture,
                                                Frame(inp, config.value, |old(g.textures)|).outputRect))
    {
      if config.None? {
        return None;
      }
      if !statesCached {
        statesCached := true;
      }
      ghost var p0, x0 := g.passes, g.textures;
      var input := RenderRescale(g, inp);
      ghost var p1, x1 := g.passes, g.textures;

      var inputRect := inp.halfSceneColor.rect;
      var threshold := RenderThreshold(g, input, inputRect);
      ghost var p2, x2 := g.passes, g.textures;

      var flare := RenderFlareIfEnabled(g, inp, threshold);
      ghost var p3, x3 := g.passes, g.textures;

      var glare := RenderGlareIfEnabled(g, inp, threshold);
      ghost var p4, x4 := g.passes, g.textures;

      var mixTexture, mixViewport := RenderMix(g, inp, input, flare, glare);
      FrameBySteps(inp, config.value, p0, p1, p2, p3, p4, g.passes, x0, x1, x2, x3, x4, g.textures,
                   input, threshold, flare, glare, mixTexture, mixViewport);
      outputs := Some((mixTexture, mixViewport));
    }
  }
}
