/**
 * Constructor arithmetic of models/MultiChannelDeformerModified.py, an
 * unfinished variant of the MultiChannelDeformer: its CNN front ends always
 * apply the spatial convolution and end in a (1, 2) max-pool, so the time
 * axes are halved once before the Transformer halves them again per level;
 * one embedding size serves every modality. Its `forward` is not modelled.
 */
module Modified {
  import opened Halving
  import opened Layers
  import opened CrossModal

  /**
   * The variant's Attention keeps only heads and the scale `dim_head ** -0.5`:
   * its projections are commented out.
   */
  datatype ModAttention = ModAttention(qDim: nat, heads: nat, dimHead: nat)

  /** `CrossChannelTransformerEncoderLayer(input_dimension, ...)` of the variant. */
  datatype ModCrossLayer = ModCrossLayer(sa: ModAttention, ffwd: FeedForward)

  /** One entry of `depth_layers`: [Attention, FeedForward, cnn_block, head projector, cross layer]. */
  datatype ModBlock = ModBlock(attn: ModAttention, ff: FeedForward, cnn: DenseBlock, headCreator: Linear, cross: ModCrossLayer)

  /** The keyword arguments of the variant's `Transformer(...)` (dropout left out). */
  datatype ModTransformerConfig = ModTransformerConfig(
    dims: seq<nat>, depth: nat, heads: nat, dimHead: nat, mlpDim: nat, inChans: seq<nat>,
    embDim: nat, outDim: nat, kernel: nat)

  datatype ModTransformer = ModTransformer(compression: seq<FeedForward>, outputFfwd: FeedForward, layers: seq<seq<ModBlock>>)

  /** The keyword arguments of the variant's `MultiChannelDeformer(...)` (dropout left out). */
  datatype ModDeformerConfig = ModDeformerConfig(
    dims: seq<nat>, numChannels: seq<nat>, temporalKernel: nat, numKernels: seq<nat>,
    embDim: nat, outDim: nat, depth: nat, heads: nat, mlpDim: nat, dimHead: nat)

  /** Positional embeddings are (1, num_kern, dim) parameters; the batch axis of 1 is dropped. */
  datatype ModDeformer = ModDeformer(encoders: seq<Encoder>, posEmbeddings: seq<TokenShape>, transformer: ModTransformer)

  // ---------------------------------------------------------------------------
  // Transformer.__init__
  // ---------------------------------------------------------------------------

  /**
   * The block of modality k at time dimension `dim`. `dim_head ** -0.5`
   * raises ZeroDivisionError when dim_head is 0.
   */
  function MakeModBlock(c: ModTransformerConfig, dim: nat, k: nat): (r: Result<ModBlock>)
    requires k < |c.inChans|
    ensures r.Ok? <==> c.dimHead >= 1
  {
    var inChan := c.inChans[k];
    if c.dimHead == 0 then Err(ZeroDivision)
    else Ok(ModBlock(ModAttention(dim, c.heads, c.dimHead), FeedForward(dim, c.mlpDim, dim), MakeDenseBlock(inChan, c.kernel),
                     Linear(dim, InnerDim(c.heads, c.dimHead)),
                     ModCrossLayer(ModAttention(inChan, c.heads, c.dimHead), FeedForward(inChan, inChan * 4, inChan))))
  }

  /** Every block can be built: in_chans covers all modalities and dim_head is not 0. */
  predicate ModBuildable(c: ModTransformerConfig)
  {
    |c.dims| == 0 || (|c.inChans| >= |c.dims| && c.dimHead >= 1)
  }

  /** The blocks of depth level i (0-based): modality k works at dims[k] / 2^(i+1). */
  function ModLevelBlocks(c: ModTransformerConfig, i: nat): (r: seq<ModBlock>)
    requires ModBuildable(c)
    ensures |r| == |c.dims|
  {
    seq(|c.dims|, k requires 0 <= k < |c.dims| => MakeModBlock(c, ScaledFloor(c.dims[k], i + 1), k).value)
  }

  /** The compressors: one FeedForward(size, emb_dim, emb_dim) per closed-form size. */
  function ModCompressionOf(c: ModTransformerConfig): seq<FeedForward>
  {
    var sizes := ModalityOutputSizes(c.dims, c.depth, c.inChans);
    seq(|sizes|, k requires 0 <= k < |sizes| => FeedForward(sizes[k], c.embDim, c.embDim))
  }

  /**
   * The error the level loop meets first: `in_chans[k]` is read before the
   * Attention is built, so an empty in_chans fails before a zero dim_head.
   */
  function ModConstructionError(c: ModTransformerConfig): (r: Option<Error>)
    ensures r.None? <==> c.depth == 0 || ModBuildable(c)
  {
    if c.depth == 0 || |c.dims| == 0 then None
    else if |c.inChans| == 0 then Some(IndexOutOfRange)
    else if c.dimHead == 0 then Some(ZeroDivision)
    else if |c.inChans| < |c.dims| then Some(IndexOutOfRange)
    else None
  }

  /** The variant's `Transformer.__init__`: the model it builds, or the error it raises. */
  function ModTransformerOf(c: ModTransformerConfig): Result<ModTransformer>
  {
    match ModConstructionError(c)
    case Some(e) => Err(e)
    case None =>
      Ok(ModTransformer(ModCompressionOf(c), FeedForward(c.embDim * |c.dims|, c.embDim, c.outDim),
                        seq(c.depth, i requires 0 <= i < c.depth => ModLevelBlocks(c, i))))
  }

  /** The blocks of level i, or the error a configuration with levels meets. */
  function ModLevelResult(c: ModTransformerConfig, i: nat): Result<seq<ModBlock>>
    requires c.depth >= 1
  {
    if ModBuildable(c) then Ok(ModLevelBlocks(c, i)) else Err(ModConstructionError(c).value)
  }

  /** The compressor loop over `get_modality_output_sizes`. */
  method BuildModCompression(c: ModTransformerConfig) returns (compression: seq<FeedForward>)
    ensures compression == ModCompressionOf(c)
  {
    var sizes := ModalityOutputSizes(c.dims, c.depth, c.inChans);
    compression := [];
    var j := 0;
    while j < |sizes|
      invariant j <= |sizes| && |compression| == j
      invariant forall j' :: 0 <= j' < j ==> compression[j'] == FeedForward(sizes[j'], c.embDim, c.embDim)
    {
      compression := compression + [FeedForward(sizes[j], c.embDim, c.embDim)];
      j := j + 1;
    }
  }

  /** One pass of the per-modality loop, `dims` already halved i + 1 times. */
  method BuildModLevel(c: ModTransformerConfig, dims: seq<nat>, i: nat) returns (r: Result<seq<ModBlock>>)
    requires i < c.depth && |dims| == |c.dims|
    requires forall k :: 0 <= k < |dims| ==> dims[k] == ScaledFloor(c.dims[k], i + 1)
    ensures r == ModLevelResult(c, i)
  {
    var depthLayers: seq<ModBlock> := [];
    var k := 0;
    while k < |dims|
      invariant k <= |dims| && |depthLayers| == k
      invariant k <= |c.inChans| && (k > 0 ==> c.dimHead >= 1)
      invariant forall k' :: 0 <= k' < k ==>
        depthLayers[k'] == MakeModBlock(c, ScaledFloor(c.dims[k'], i + 1), k').value
    {
      if k >= |c.inChans| {
        return Err(IndexOutOfRange);
      }
      var block := MakeModBlock(c, dims[k], k);
      if block.Err? {
        return Err(block.error);
      }
      depthLayers := depthLayers + [block.value];
      k := k + 1;
    }
    assert depthLayers == ModLevelBlocks(c, i);
    r := Ok(depthLayers);
  }

  /** The variant's `Transformer.__init__`: compressors, output head, then the depth loop rebinding `dims`. */
  method BuildModTransformer(c: ModTransformerConfig) returns (r: Result<ModTransformer>)
    ensures r == ModTransformerOf(c)
  {
    var compression := BuildModCompression(c);
    var outputFfwd := FeedForward(c.embDim * |c.dims|, c.embDim, c.outDim);
    var layers: seq<seq<ModBlock>> := [];
    var dims := c.dims;
    var i := 0;
    while i < c.depth
      invariant i <= c.depth && |layers| == i && |dims| == |c.dims|
      invariant forall k :: 0 <= k < |dims| ==> dims[k] == HalveTimes(c.dims[k], i)
      invariant i > 0 ==> ModBuildable(c)
      invariant forall i' :: 0 <= i' < i ==> layers[i'] == ModLevelBlocks(c, i')
    {
      dims := seq(|dims|, k requires 0 <= k < |dims| => Half(dims[k]));
      forall k | 0 <= k < |dims|
        ensures dims[k] == ScaledFloor(c.dims[k], i + 1)
      {
        HalveTimesIsScaledFloor(c.dims[k], i + 1);
      }
      var level := BuildModLevel(c, dims, i);
      if level.Err? {
        return Err(level.error);
      }
      layers := layers + [level.value];
      i := i + 1;
    }
    assert layers == seq(c.depth, i requires 0 <= i < c.depth => ModLevelBlocks(c, i));
    r := Ok(ModTransformer(compression, outputFfwd, layers));
  }

  // ---------------------------------------------------------------------------
  // MultiChannelDeformer.__init__
  // ---------------------------------------------------------------------------

  /** The variant's `cnn_block`: the spatial convolution is always there, and a (1, 2) max-pool follows. */
  function ModEncoderBlock(outChan: nat, kernel: nat, numChan: nat): (e: Encoder)
    ensures e.spatialRows == Some(numChan) && e.pooled
    ensures e.padding == Padding2D(kernel)
  {
    Encoder(outChan, kernel, Padding2D(kernel), Some(numChan), true)
  }

  /** `[int(0.5 * d) for d in dims]`: the time axes after the front ends. */
  function HalvedDims(dims: seq<nat>): (r: seq<nat>)
    ensures |r| == |dims|
  {
    seq(|dims|, k requires 0 <= k < |dims| => Half(dims[k]))
  }

  /** The front ends over the zip of num_channels and num_kernels, all with the one temporal kernel. */
  function ModEncodersOf(c: ModDeformerConfig): seq<Encoder>
  {
    var n := Min(|c.numChannels|, |c.numKernels|);
    seq(n, k requires 0 <= k < n => ModEncoderBlock(c.numKernels[k], c.temporalKernel, c.numChannels[k]))
  }

  /** The positional embeddings over the zip of the halved dims and num_kernels. */
  function ModPosEmbeddingsOf(c: ModDeformerConfig): seq<TokenShape>
  {
    var d := HalvedDims(c.dims);
    var m := Min(|d|, |c.numKernels|);
    seq(m, k requires 0 <= k < m => TokenShape(c.numKernels[k], d[k]))
  }

  /** The Transformer gets the halved dims and num_kernels as in_chans. */
  function ModTransformerConfigOf(c: ModDeformerConfig): ModTransformerConfig
  {
    ModTransformerConfig(HalvedDims(c.dims), c.depth, c.heads, c.dimHead, c.mlpDim, c.numKernels, c.embDim, c.outDim, c.temporalKernel)
  }

  /** The variant's `MultiChannelDeformer.__init__`. */
  function ModDeformerOf(c: ModDeformerConfig): Result<ModDeformer>
  {
    var t :- ModTransformerOf(ModTransformerConfigOf(c));
    Ok(ModDeformer(ModEncodersOf(c), ModPosEmbeddingsOf(c), t))
  }

  /** The variant's `MultiChannelDeformer.__init__`: two zip loops around the halving comprehension, then the Transformer. */
  method BuildModDeformer(c: ModDeformerConfig) returns (r: Result<ModDeformer>)
    ensures r == ModDeformerOf(c)
  {
    var encoders: seq<Encoder> := [];
    var k := 0;
    while k < |c.numChannels| && k < |c.numKernels|
      invariant k <= |c.numChannels| && k <= |c.numKernels| && |encoders| == k
      invariant forall j :: 0 <= j < k ==> encoders[j] == ModEncoderBlock(c.numKernels[j], c.temporalKernel, c.numChannels[j])
    {
      encoders := encoders + [ModEncoderBlock(c.numKernels[k], c.temporalKernel, c.numChannels[k])];
      k := k + 1;
    }
    assert encoders == ModEncodersOf(c);
    var dims := seq(|c.dims|, j requires 0 <= j < |c.dims| => Half(c.dims[j]));
    var pos: seq<TokenShape> := [];
    k := 0;
    while k < |dims| && k < |c.numKernels|
      invariant k <= |dims| && k <= |c.numKernels| && |pos| == k
      invariant forall j :: 0 <= j < k ==> pos[j] == TokenShape(c.numKernels[j], dims[j])
    {
      pos := pos + [TokenShape(c.numKernels[k], dims[k])];
      k := k + 1;
    }
    assert pos == ModPosEmbeddingsOf(c);
    var t := BuildModTransformer(ModTransformerConfig(dims, c.depth, c.heads, c.dimHead, c.mlpDim, c.numKernels, c.embDim, c.outDim, c.temporalKernel));
    assert dims == HalvedDims(c.dims);
    if t.Err? {
      return Err(t.error);
    }
    r := Ok(ModDeformer(encoders, pos, t.value));
  }

  // ---------------------------------------------------------------------------
  // Properties
  // ---------------------------------------------------------------------------

  /**
   * On a (num_chan, T) input with an odd temporal kernel the front end keeps
   * T through the convolution, collapses the channels to one row and pools
   * to floor(T / 2): a (num_kern, floor(T / 2)) sequence.
   */
  lemma {:induction false} ModEncoderHalves(outChan: nat, kernel: nat, numChan: nat, time: nat)
    requires numChan >= 1 && time >= 2 && kernel % 2 == 1
    ensures ApplyEncoder(ModEncoderBlock(outChan, kernel, numChan), numChan, time) == Ok(TokenShape(outChan, Half(time)))
  {
    SamePadding(time, kernel);
    var e := ModEncoderBlock(outChan, kernel, numChan);
    assert e.padding.1 == Padding1D(kernel);
    assert ConvLength(time, e.kernel, e.padding.1) == Ok(time);
  }

  /** The positional embedding of modality k has exactly the shape its front end produces. */
  lemma {:induction false} ModPosMatchesEncoder(c: ModDeformerConfig, k: nat)
    requires k < |c.dims| && k < |c.numKernels| && k < |c.numChannels|
    requires c.numChannels[k] >= 1 && c.dims[k] >= 2 && c.temporalKernel % 2 == 1
    ensures ModPosEmbeddingsOf(c)[k] == TokenShape(c.numKernels[k], c.dims[k] / 2)
    ensures ApplyEncoder(ModEncodersOf(c)[k], c.numChannels[k], c.dims[k]) == Ok(ModPosEmbeddingsOf(c)[k])
  {
    ModEncoderHalves(c.numKernels[k], c.temporalKernel, c.numChannels[k], c.dims[k]);
  }

  /**
   * Level i of the variant works at T / 2^(i+2): the front end halved the
   * time axis once, and the Transformer halves it again per level.
   */
  lemma {:induction false} ModLevelDims(c: ModDeformerConfig, i: nat, k: nat)
    requires ModDeformerOf(c).Ok? && i < c.depth && k < |c.dims|
    ensures ModDeformerOf(c).value.transformer.layers[i][k].attn.qDim == HalveTimes(c.dims[k], i + 2)
    ensures ModDeformerOf(c).value.transformer.layers[i][k].attn.qDim == c.dims[k] / Pow2(i + 2)
  {
    HalveTimesIsScaledFloor(Half(c.dims[k]), i + 1);
    HalveTimesShift(c.dims[k], i + 1);
    HalveTimesIsScaledFloor(c.dims[k], i + 2);
  }

  /**
   * Compressor k takes K * floor(T / 2^(depth+1)) + K * depth features: the
   * closed form over the halved dims.
   */
  lemma {:induction false} ModCompressorSizes(c: ModDeformerConfig, k: nat)
    requires ModDeformerOf(c).Ok? && k < |c.dims| && k < |c.numKernels|
    ensures |ModDeformerOf(c).value.transformer.compression| == Min(|c.dims|, |c.numKernels|)
    ensures ModDeformerOf(c).value.transformer.compression[k].dim
      == c.numKernels[k] * (c.dims[k] / Pow2(c.depth + 1)) + c.numKernels[k] * c.depth
  {
    HalveTimesIsScaledFloor(Half(c.dims[k]), c.depth);
    HalveTimesShift(c.dims[k], c.depth);
    HalveTimesIsScaledFloor(c.dims[k], c.depth + 1);
    var n := c.numKernels[k];
    assert ScaledFloor(Half(c.dims[k]), c.depth) * n == n * (c.dims[k] / Pow2(c.depth + 1));
  }

  /**
   * The output head takes emb_dim * len(dims) features: exactly the width of
   * the compressed embeddings concatenated, when num_kernels covers every
   * modality.
   */
  lemma {:induction false} ModHeadFitsEmbeddings(c: ModDeformerConfig)
    requires ModDeformerOf(c).Ok? && |c.numKernels| >= |c.dims|
    ensures var t := ModDeformerOf(c).value.transformer;
      t.outputFfwd.dim == c.embDim * |c.dims| &&
      |t.compression| == |c.dims| &&
      (forall k :: 0 <= k < |t.compression| ==> t.compression[k].out == c.embDim) &&
      Sum(seq(|t.compression|, k requires 0 <= k < |t.compression| => t.compression[k].out)) == t.outputFfwd.dim
  {
    var t := ModDeformerOf(c).value.transformer;
    var outs := seq(|t.compression|, k requires 0 <= k < |t.compression| => t.compression[k].out);
    assert outs == Repeat(c.embDim, |c.dims|);
    SumConstant(c.embDim, |c.dims|);
  }
}
