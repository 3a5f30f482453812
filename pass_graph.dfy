/**
 * The render graph as the lens-flare passes use it: an append-only builder
 * (`FRDGBuilder`) that hands out transient textures and records passes in
 * declaration order. Shaders are opaque tags; a pass records what it reads,
 * what it writes, how, over which rectangles, and the parameters that the
 * renderer computes on the CPU.
 */
module RenderGraph {
  import opened Common
  import opened IntRects
  import opened Vectors
  import opened Decimal

  /** A texture a pass can read or write: one the frame was given, or one created in the graph (by creation index). */
  datatype TextureRef = External(id: nat) | Transient(index: nat)

  /** A texture bound from an asset: the engine's white texture, or an asset's own texture. */
  datatype TextureBinding = WhiteTexture | AssetTexture(asset: TextureAsset)

  datatype Shader =
    | RescaleShader | DownsampleShader | ChromaShader | GhostsShader | HaloShader
    | KawaseDownShader | KawaseUpShader | GlareShader | MixShader

  /** `ClearBlendState` (overwrite) or `AdditiveBlendState` (one-one add). */
  datatype BlendMode = ClearBlend | AdditiveBlend

  /** `ERenderTargetLoadAction`: `ENoAction`, `ELoad` (keeps what the target holds) or `EClear`. */
  datatype LoadAction = NoAction | Load | Clear

  /**
   * What the pass lambda draws: a rectangle from an input viewport onto an
   * output viewport, or `instances` point primitives inside a viewport.
   */
  datatype Draw =
    | Rectangle(inputRect: IntRect, outputRect: IntRect)
    | Points(viewport: IntRect, instances: int)

  datatype IntVector = IntVector(x: int, y: int, z: int)

  /** The CPU-side shader parameters each pass is given (samplers left out). */
  datatype ShaderParams =
    | RescaleParams(inputViewportSize: Option<Vector2>)
    | DownsampleParams(inputSize: IntPoint, thresholdLevel: real, thresholdRange: real)
    | ChromaParams(chromaShift: real)
    | GhostParams(ghostIntensity: real, ghostColors: seq<LinearColor>, ghostScales: seq<real>)
    | HaloParams(haloIntensity: real, width: real, mask: real, compression: real, haloChromaShift: real)
    | BlurParams(bufferSize: IntPoint)
    | GlareParams(
        tileCount: IntPoint, glareBufferSize: IntPoint, bufferRatio: Option<Vector2>, pixelSize: Option<Vector4>,
        glareIntensity: real, glareTint: LinearColor, glareScales: Vector3, glareAngles: Vector3,
        glareDivider: real, lineMask: TextureBinding)
    | MixParams(
        mixPass: IntVector, bloomTexture: TextureRef, glareTexture: TextureRef, gradient: TextureBinding,
        tint: LinearColor, intensity: real, mixBufferSize: IntPoint, mixPixelSize: Option<Vector2>,
        mixInputViewportSize: Option<Vector2>)

  /**
   * A debug name as the pass gives it to `RDG_EVENT_NAME`: a fixed text, or
   * the blur's format `KawaseBlur_%i_%s_%ix%i` with its four arguments.
   */
  datatype PassName = Named(text: string) | KawaseBlurName(index: int, down: bool, width: int, height: int) {
    /** The text the event and the texture are labelled with. */
    function Text(): string {
      match this
      case Named(t) => t
      case KawaseBlurName(i, d, w, h) => BlurPassName(i, d, w, h)
    }
  }

  datatype Pass = Pass(
    name: PassName,
    shader: Shader,
    input: TextureRef,
    target: TextureRef,
    load: LoadAction,
    blend: BlendMode,
    draw: Draw,
    params: ShaderParams)

  /** What `CreateTexture` is told: the debug name and the extent (format and clear value left out). */
  datatype TextureDesc = TextureDesc(name: PassName, extent: IntPoint)

  /** Every texture a pass reads: its input, the extra textures the mix binds, and its target when it loads it. */
  function Reads(p: Pass): (r: set<TextureRef>)
    ensures p.input in r
    ensures p.load == Load ==> p.target in r
    ensures p.params.MixParams? ==> p.params.bloomTexture in r && p.params.glareTexture in r
  {
    {p.input}
    + (if p.params.MixParams? then {p.params.bloomTexture, p.params.glareTexture} else {})
    + (if p.load == Load then {p.target} else {})
  }

  /** The targets of the first `n` passes. */
  function WrittenBefore(ps: seq<Pass>, n: nat): set<TextureRef>
    requires n <= |ps|
  {
    set j | 0 <= j < n :: ps[j].target
  }

  function Written(ps: seq<Pass>): set<TextureRef> {
    WrittenBefore(ps, |ps|)
  }

  /**
   * The passes read only textures that were available beforehand or that an
   * earlier pass wrote: declaration order is a valid execution order.
   */
  predicate Closed(ps: seq<Pass>, avail: set<TextureRef>) {
    forall i :: 0 <= i < |ps| ==> Reads(ps[i]) <= avail + WrittenBefore(ps, i)
  }

  /** Every pass writes a texture created in the index range `[lo, hi)`. */
  predicate TargetsIn(ps: seq<Pass>, lo: nat, hi: nat) {
    forall i :: 0 <= i < |ps| ==> ps[i].target.Transient? && lo <= ps[i].target.index < hi
  }

  lemma WrittenAppend(a: seq<Pass>, b: seq<Pass>, n: nat)
    requires n <= |b|
    ensures WrittenBefore(a + b, |a| + n) == Written(a) + WrittenBefore(b, n)
  {
    var ab := a + b;
    forall t | t in WrittenBefore(ab, |a| + n)
      ensures t in Written(a) + WrittenBefore(b, n)
    {
      var j :| 0 <= j < |a| + n && ab[j].target == t;
      if j >= |a| {
        assert b[j - |a|].target == t;
      }
    }
    forall t | t in Written(a) + WrittenBefore(b, n)
      ensures t in WrittenBefore(ab, |a| + n)
    {
      if t in Written(a) {
        var j :| 0 <= j < |a| && a[j].target == t;
        assert ab[j].target == t;
      } else {
        var j :| 0 <= j < n && b[j].target == t;
        assert ab[|a| + j].target == t;
      }
    }
  }

  /** Running one closed block of passes after another keeps the whole closed. */
  lemma ClosedAppend(a: seq<Pass>, b: seq<Pass>, avail: set<TextureRef>)
    requires Closed(a, avail)
    requires Closed(b, avail + Written(a))
    ensures Closed(a + b, avail)
    ensures Written(a + b) == Written(a) + Written(b)
  {
    var ab := a + b;
    forall i | 0 <= i < |ab|
      ensures Reads(ab[i]) <= avail + WrittenBefore(ab, i)
    {
      if i < |a| {
        assert ab[i] == a[i];
        assert WrittenBefore(ab, i) == WrittenBefore(a, i) by {
          assert forall j :: 0 <= j < i ==> ab[j] == a[j];
        }
      } else {
        assert ab[i] == b[i - |a|];
        WrittenAppend(a, b, i - |a|);
      }
    }
    WrittenAppend(a, b, |b|);
  }

  /** A closed block stays closed when more textures are available. */
  lemma ClosedMonotone(ps: seq<Pass>, avail: set<TextureRef>, more: set<TextureRef>)
    requires Closed(ps, avail) && avail <= more
    ensures Closed(ps, more)
  {
  }

  lemma TargetsInAppend(a: seq<Pass>, b: seq<Pass>, lo: nat, mid: nat, hi: nat)
    requires TargetsIn(a, lo, mid) && TargetsIn(b, mid, hi) && lo <= mid <= hi
    ensures TargetsIn(a + b, lo, hi)
  {
    var ab := a + b;
    forall i | 0 <= i < |ab|
      ensures ab[i].target.Transient? && lo <= ab[i].target.index < hi
    {
      if i < |a| { assert ab[i] == a[i]; } else { assert ab[i] == b[i - |a|]; }
    }
  }

  /** Appending five blocks one after another appends their concatenation. */
  lemma AppendBlocks<T>(p: seq<T>, a: seq<T>, b: seq<T>, c: seq<T>, d: seq<T>, e: seq<T>)
    ensures p + a + b + c + d + e == p + (a + b + c + d + e)
  {
  }

  /** Appending element `i` of `s` after its first `i` elements extends the prefix by one. */
  lemma ExtendPrefix<T>(a: seq<T>, s: seq<T>, i: int)
    requires 0 <= i < |s|
    ensures a + s[..i] + [s[i]] == a + s[..i + 1]
  {
    assert s[..i + 1] == s[..i] + [s[i]];
  }

  /**
   * `FRDGBuilder`, reduced to what the passes declare: the textures created,
   * in creation order, and the passes added, in declaration order.
   */
  class GraphBuilder {
    var textures: seq<TextureDesc>
    var passes: seq<Pass>

    constructor()
      ensures textures == [] && passes == []
    {
      textures := [];
      passes := [];
    }

    /** `CreateTexture`: the new texture is known by its creation index. */
    method CreateTexture(desc: TextureDesc) returns (t: TextureRef)
      modifies this
      ensures t == Transient(|old(textures)|)
      ensures textures == old(textures) + [desc]
      ensures passes == old(passes)
    {
      t := Transient(|textures|);
      textures := textures + [desc];
    }

    /** `AddPass`: the pass is appended after every pass declared so far. */
    method AddPass(p: Pass)
      modifies this
      ensures passes == old(passes) + [p]
      ensures textures == old(textures)
    {
      passes := passes + [p];
    }
  }
}
