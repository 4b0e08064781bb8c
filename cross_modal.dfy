/**
 * Shape-level model of models/MultiChannelDeformer.py: per-modality CNN
 * front ends, then a Transformer whose depth levels run one HCT block per
 * modality (coarse attention plus fine-grained convolution, then q/k/v
 * projections) followed by one cross-modal attention per modality over the
 * keys and values of all the other modalities, and finally a per-modality
 * compressor and a shared output head.
 */
module CrossModal {
  import opened Halving
  import opened Layers

  /** The arguments of `Transformer(dims, depth, heads, dim_head, mlp_dims, in_chans, emb_dims, out_dim, fine_grained_kernels)`. */
  datatype TransformerConfig = TransformerConfig(
    dims: seq<nat>, depth: nat, heads: nat, dimHead: nat, mlpDims: seq<nat>,
    inChans: seq<nat>, embDims: seq<nat>, outDim: nat, kernels: seq<nat>)

  /** `CrossChannelTransformerEncoderLayer`: attention without its own q/k/v projections, then a FeedForward. */
  datatype CrossLayer = CrossLayer(sa: Attention, ffwd: FeedForward)

  /** The seven modules of one modality at one depth level. */
  datatype Block = Block(attn: Attention, ff: FeedForward, cnn: DenseBlock,
                         toQ: Linear, toK: Linear, toV: Linear, cross: CrossLayer)

  datatype Transformer = Transformer(compression: seq<FeedForward>, outputFfwd: FeedForward, layers: seq<seq<Block>>)

  /** One entry of `get_modality_output_sizes`: `int(dim * 0.5 ** depth) * in_chan + in_chan * depth`. */
  function OutputSize(dim: nat, depth: nat, inChan: nat): nat
  {
    ScaledFloor(dim, depth) * inChan + inChan * depth
  }

  /** `get_modality_output_sizes(dims, depth, in_chans)`, over the zip of dims and in_chans. */
  function ModalityOutputSizes(dims: seq<nat>, depth: nat, inChans: seq<nat>): (r: seq<nat>)
    ensures |r| == Min(|dims|, |inChans|)
  {
    seq(Min(|dims|, |inChans|), k requires 0 <= k < Min(|dims|, |inChans|) => OutputSize(dims[k], depth, inChans[k]))
  }

  /**
   * `CrossChannelTransformerEncoderLayer(input_dimension, heads, dim_head, mlp_dims, out_dim)`:
   * the attention always gets an out_dim (input_dimension when none is given).
   */
  function MakeCrossLayer(inputDim: nat, heads: nat, dimHead: nat, mlpDims: seq<nat>, outDim: Option<nat>): Result<CrossLayer>
  {
    var width := if outDim.Some? then outDim.value else inputDim;
    var sa :- MakeAttention(inputDim, heads, dimHead, false, Some(width));
    Ok(CrossLayer(sa, FeedForward(width, Sum(mlpDims), width)))
  }

  /** The block of modality k at a level whose time dimension is `dim`. */
  function MakeBlock(c: TransformerConfig, dim: nat, k: nat): (r: Result<Block>)
    requires k < |c.mlpDims| && k < |c.kernels| && k < |c.inChans|
    ensures r.Ok? <==> c.dimHead >= 1
    ensures r.Err? ==> r.error == ZeroDivision
  {
    var inner := InnerDim(c.heads, c.dimHead);
    // The first Attention raises ZeroDivisionError before the cross layer's could.
    if c.dimHead == 0 then Err(ZeroDivision)
    else
      var attn := MakeAttention(dim, c.heads, c.dimHead, true, None).value;
      var cross := MakeCrossLayer(inner, c.heads, c.dimHead, c.mlpDims, Some(dim)).value;
      Ok(Block(attn, FeedForward(dim, c.mlpDims[k], dim), MakeDenseBlock(c.inChans[k], c.kernels[k]),
               Linear(dim, inner), Linear(dim, inner), Linear(dim, inner), cross))
  }

  /** The shortest of the per-modality lists the level loop indexes. */
  function IndexedLength(c: TransformerConfig): nat
  {
    Min(|c.mlpDims|, Min(|c.kernels|, |c.inChans|))
  }

  /** Every block can be built: the indexed lists cover all modalities and dim_head is not 0. */
  predicate BlocksBuildable(c: TransformerConfig)
  {
    |c.dims| == 0 || (IndexedLength(c) >= |c.dims| && c.dimHead >= 1)
  }

  /** The blocks of depth level i (0-based): modality k works at dims[k] / 2^(i+1). */
  function LevelBlocks(c: TransformerConfig, i: nat): (r: seq<Block>)
    requires BlocksBuildable(c)
    ensures |r| == |c.dims|
  {
    seq(|c.dims|, k requires 0 <= k < |c.dims| => MakeBlock(c, ScaledFloor(c.dims[k], i + 1), k).value)
  }

  /**
   * The compressors: FeedForward(size, emb, emb) over the zip of the
   * closed-form sizes with emb_dims.
   */
  function CompressionOf(c: TransformerConfig): seq<FeedForward>
  {
    var sizes := ModalityOutputSizes(c.dims, c.depth, c.inChans);
    seq(Min(|sizes|, |c.embDims|), k requires 0 <= k < Min(|sizes|, |c.embDims|) =>
      FeedForward(sizes[k], c.embDims[k], c.embDims[k]))
  }

  /**
   * The error the level loop of `Transformer.__init__` meets first: an
   * IndexError at the first modality a per-modality list does not cover, or
   * ZeroDivisionError from the first Attention when dim_head is 0. No error
   * when there is no level or no modality.
   */
  function ConstructionError(c: TransformerConfig): (r: Option<Error>)
    ensures r.None? <==> c.depth == 0 || BlocksBuildable(c)
  {
    if c.depth == 0 || |c.dims| == 0 then None
    else if IndexedLength(c) == 0 then Some(IndexOutOfRange)
    else if c.dimHead == 0 then Some(ZeroDivision)
    else if IndexedLength(c) < |c.dims| then Some(IndexOutOfRange)
    else None
  }

  /** What `Transformer.__init__` builds, or the error it raises. */
  function TransformerOf(c: TransformerConfig): Result<Transformer>
  {
    match ConstructionError(c)
    case Some(e) => Err(e)
    case None =>
      Ok(Transformer(CompressionOf(c), FeedForward(Sum(c.embDims), Sum(c.embDims), c.outDim),
                     seq(c.depth, i requires 0 <= i < c.depth => LevelBlocks(c, i))))
  }

  /** The error a level of a configuration that has levels meets, or the blocks it builds. */
  function LevelResult(c: TransformerConfig, i: nat): Result<seq<Block>>
    requires c.depth >= 1
  {
    if BlocksBuildable(c) then Ok(LevelBlocks(c, i)) else Err(ConstructionError(c).value)
  }

  /** The zip loop of `Transformer.__init__` building the compressors. */
  method BuildCompression(c: TransformerConfig) returns (compression: seq<FeedForward>)
    ensures compression == CompressionOf(c)
  {
    var sizes := ModalityOutputSizes(c.dims, c.depth, c.inChans);
    compression := [];
    var j := 0;
    while j < |sizes| && j < |c.embDims|
      invariant j <= |sizes| && j <= |c.embDims| && |compression| == j
      invariant forall j' :: 0 <= j' < j ==> compression[j'] == FeedForward(sizes[j'], c.embDims[j'], c.embDims[j'])
    {
      compression := compression + [FeedForward(sizes[j], c.embDims[j], c.embDims[j])];
      j := j + 1;
    }
  }

  /** One pass of the per-modality loop, `dims` already halved i + 1 times. */
  method BuildLevel(c: TransformerConfig, dims: seq<nat>, i: nat) returns (r: Result<seq<Block>>)
    requires i < c.depth && |dims| == |c.dims|
    requires forall k :: 0 <= k < |dims| ==> dims[k] == ScaledFloor(c.dims[k], i + 1)
    ensures r == LevelResult(c, i)
  {
    var depthLayers: seq<Block> := [];
    var k := 0;
    while k < |dims|
      invariant k <= |dims| && |depthLayers| == k
      invariant k <= IndexedLength(c) && (k > 0 ==> c.dimHead >= 1)
      invariant forall k' :: 0 <= k' < k ==>
        depthLayers[k'] == MakeBlock(c, ScaledFloor(c.dims[k'], i + 1), k').value
    {
      if k >= |c.mlpDims| || k >= |c.kernels| || k >= |c.inChans| {
        IndexErrorFirst(c, k);
        return Err(IndexOutOfRange);
      }
      var block := MakeBlock(c, dims[k], k);
      if block.Err? {
        ZeroDivisionFirst(c);
        return Err(block.error);
      }
      depthLayers := depthLayers + [block.value];
      k := k + 1;
    }
    assert BlocksBuildable(c);
    assert depthLayers == LevelBlocks(c, i);
    r := Ok(depthLayers);
  }

  /** `Transformer.__init__`: the zip loop, then the depth loop rebinding `dims` and the per-modality loop. */
  method BuildTransformer(c: TransformerConfig) returns (r: Result<Transformer>)
    ensures r == TransformerOf(c)
  {
    var compression := BuildCompression(c);
    var outputFfwd := FeedForward(Sum(c.embDims), Sum(c.embDims), c.outDim);
    var layers: seq<seq<Block>> := [];
    var dims := c.dims;
    var i := 0;
    while i < c.depth
      invariant i <= c.depth && |layers| == i && |dims| == |c.dims|
      invariant forall k :: 0 <= k < |dims| ==> dims[k] == HalveTimes(c.dims[k], i)
      invariant i > 0 ==> BlocksBuildable(c)
      invariant forall i' :: 0 <= i' < i ==> layers[i'] == LevelBlocks(c, i')
    {
      dims := seq(|dims|, k requires 0 <= k < |dims| => Half(dims[k]));
      forall k | 0 <= k < |dims|
        ensures dims[k] == ScaledFloor(c.dims[k], i + 1)
      {
        HalveTimesIsScaledFloor(c.dims[k], i + 1);
      }
      var level := BuildLevel(c, dims, i);
      if level.Err? {
        return Err(level.error);
      }
      layers := layers + [level.value];
      i := i + 1;
    }
    assert layers == seq(c.depth, i requires 0 <= i < c.depth => LevelBlocks(c, i));
    r := Ok(Transformer(compression, outputFfwd, layers));
  }

  /** The level loop stops at modality k when k is the first index a per-modality list lacks. */
  lemma {:induction false} IndexErrorFirst(c: TransformerConfig, k: nat)
    requires c.depth >= 1 && k < |c.dims| && k == IndexedLength(c) && (k > 0 ==> c.dimHead >= 1)
    ensures ConstructionError(c) == Some(IndexOutOfRange)
  {
  }

  /** With every list non-empty, a dim_head of 0 stops the loop at the first modality. */
  lemma {:induction false} ZeroDivisionFirst(c: TransformerConfig)
    requires c.depth >= 1 && |c.dims| >= 1 && IndexedLength(c) >= 1 && c.dimHead == 0
    ensures ConstructionError(c) == Some(ZeroDivision)
  {
  }

  // ---------------------------------------------------------------------------
  // Transformer.forward
  // ---------------------------------------------------------------------------

  /** The tuple (x, x_q, x_k, x_v) an HCT block leaves in `channels_output[i]`. */
  datatype Quad = Quad(x: TokenShape, q: TokenShape, k: TokenShape, v: TokenShape)

  /** An entry of `channels_output`: a tensor, or the tuple an HCT block wrote. */
  datatype Slot = Raw(t: TokenShape) | Tuple(h: Quad)

  /**
   * The HCT block of one modality: pool and attend (coarse), convolve and
   * pool (fine), record the dense feature (one value per fine channel), add,
   * then project to q, k and v.
   */
  function HctBlock(b: Block, x: TokenShape): Result<(Quad, nat)>
  {
    var pooled :- MaxPool(x);
    var attended :- ApplyAttention(b.attn, pooled, pooled, pooled);
    var coarse :- Add(attended, pooled);
    var fine :- ApplyDenseBlock(b.cnn, x);
    var ffOut :- ApplyFeedForward(b.ff, coarse);
    var x' :- Add(ffOut, fine);
    var q :- ApplyLinear(b.toQ, x');
    var k :- ApplyLinear(b.toK, x');
    var v :- ApplyLinear(b.toV, x');
    Ok((Quad(x', q, k, v), fine.tokens))
  }

  /** The tuples and the dense features of the HCT blocks run so far. */
  type HctState = (seq<Quad>, seq<nat>)

  /**
   * The HCT loop from iteration j on, with state s: block j reads
   * `channels_output[j]`, which still holds the level's input there.
   */
  function HctFrom(blocks: seq<Block>, xs: seq<TokenShape>, j: nat, s: HctState): Result<HctState>
    decreases |blocks| - j
  {
    if j >= |blocks| then Ok(s)
    else if j >= |xs| then Err(IndexOutOfRange)
    else
      var step :- HctBlock(blocks[j], xs[j]);
      HctFrom(blocks, xs, j + 1, (s.0 + [step.0], s.1 + [step.1]))
  }

  /** `channels_output` after the HCT loop: the first entries overwritten with tuples. */
  function AfterHct(quads: seq<Quad>, xs: seq<TokenShape>): (r: seq<Slot>)
    ensures |r| == |xs|
  {
    seq(|xs|, j requires 0 <= j < |xs| => if j < |quads| then Tuple(quads[j]) else Raw(xs[j]))
  }

  /** `[h for n, h in enumerate(s) if n != i]` over the first n entries of s. */
  function OthersUpTo<T>(s: seq<T>, i: nat, n: nat): seq<T>
    requires n <= |s|
  {
    if n == 0 then []
    else OthersUpTo(s, i, n - 1) + (if n - 1 != i then [s[n - 1]] else [])
  }

  /** Every entry of s except the one at index i, in index order. */
  function Others<T>(s: seq<T>, i: nat): seq<T>
  {
    OthersUpTo(s, i, |s|)
  }

  /**
   * Unpacking `_, _, k, _` from each of the other entries. With the batch
   * axis dropped, an entry that is still a tensor is reported as
   * NotUnpackable.
   */
  function Unpack(slots: seq<Slot>): (r: Result<seq<Quad>>)
    ensures r.Ok? ==> |r.value| == |slots| && forall j :: 0 <= j < |slots| ==> slots[j] == Tuple(r.value[j])
    ensures r.Err? <==> exists j :: 0 <= j < |slots| && slots[j].Raw?
  {
    if slots == [] then Ok([])
    else
      var init :- Unpack(slots[..|slots| - 1]);
      match slots[|slots| - 1]
      case Raw(_) => Err(NotUnpackable)
      case Tuple(h) => Ok(init + [h])
  }

  function KeysOf(quads: seq<Quad>): (r: seq<TokenShape>)
    ensures |r| == |quads| && forall j :: 0 <= j < |quads| ==> r[j] == quads[j].k
  {
    seq(|quads|, j requires 0 <= j < |quads| => quads[j].k)
  }

  function ValuesOf(quads: seq<Quad>): (r: seq<TokenShape>)
    ensures |r| == |quads| && forall j :: 0 <= j < |quads| ==> r[j] == quads[j].v
  {
    seq(|quads|, j requires 0 <= j < |quads| => quads[j].v)
  }

  /**
   * `CrossChannelTransformerEncoderLayer.forward(x, x_q, others)`: keys and
   * values of the other modalities concatenated along the token axis,
   * attention from x_q, a residual add, then the FeedForward (no residual).
   */
  function CrossForward(l: CrossLayer, x: TokenShape, q: TokenShape, others: seq<Slot>): Result<TokenShape>
  {
    var quads :- Unpack(others);
    var kAgg :- ConcatTokens(KeysOf(quads));
    var vAgg :- ConcatTokens(ValuesOf(quads));
    var attended :- ApplyAttention(l.sa, q, kAgg, vAgg);
    var x' :- Add(x, attended);
    ApplyFeedForward(l.ffwd, x')
  }

  /** The cross step of modality i: unpack its own tuple and fuse it with the others. */
  function CrossStep(b: Block, slots: seq<Slot>, i: nat): Result<TokenShape>
  {
    if i >= |slots| then Err(IndexOutOfRange)
    else match slots[i]
      case Raw(_) => Err(NotUnpackable)
      case Tuple(h) => CrossForward(b.cross, h.x, h.q, Others(slots, i))
  }

  /** The cross loop from iteration j on, `new_channels_output` being s so far. */
  function CrossFrom(blocks: seq<Block>, slots: seq<Slot>, j: nat, s: seq<TokenShape>): Result<seq<TokenShape>>
    decreases |blocks| - j
  {
    if j >= |blocks| then Ok(s)
    else
      var x :- CrossStep(blocks[j], slots, j);
      CrossFrom(blocks, slots, j + 1, s + [x])
  }

  /** One depth level: the HCT loop, then the cross loop; the new tensors and the level's dense features. */
  function LevelForward(blocks: seq<Block>, xs: seq<TokenShape>): Result<(seq<TokenShape>, seq<nat>)>
  {
    var hct :- HctFrom(blocks, xs, 0, ([], []));
    var outs :- CrossFrom(blocks, AfterHct(hct.0, xs), 0, []);
    Ok((outs, hct.1))
  }

  /** The tensors after the levels run so far, and `dense_feature` (one list per level). */
  type LevelState = (seq<TokenShape>, seq<seq<nat>>)

  /** The depth levels from level j on, with state s. */
  function LevelsFrom(layers: seq<seq<Block>>, j: nat, s: LevelState): Result<LevelState>
    decreases |layers| - j
  {
    if j >= |layers| then Ok(s)
    else
      var step :- LevelForward(layers[j], s.0);
      LevelsFrom(layers, j + 1, (step.0, s.1 + [step.1]))
  }

  /** `[depth[i] for depth in dense_feature]`: modality i's feature of every level, in level order. */
  function LevelFeatures(dense: seq<seq<nat>>, i: nat): (r: Result<seq<nat>>)
    ensures r.Ok? <==> forall l :: 0 <= l < |dense| ==> i < |dense[l]|
    ensures r.Ok? ==> |r.value| == |dense| && forall l :: 0 <= l < |dense| ==> r.value[l] == dense[l][i]
  {
    if exists l :: 0 <= l < |dense| && i >= |dense[l]| then Err(IndexOutOfRange)
    else Ok(seq(|dense|, l requires 0 <= l < |dense| => dense[l][i]))
  }

  /**
   * The embedding of modality i: its final tensor flattened, concatenated with
   * its level features, through compressor i.
   */
  function Embedding(t: Transformer, out: TokenShape, dense: seq<seq<nat>>, i: nat): Result<nat>
  {
    var levels :- LevelFeatures(dense, i);
    var combined :- ConcatWidths(levels);
    if i >= |t.compression| then Err(IndexOutOfRange)
    else FeedForwardVector(t.compression[i], Flatten(out) + combined)
  }

  /** The embedding loop from modality j on, `modality_specific_emb` being s so far. */
  function EmbeddingsFrom(t: Transformer, outs: seq<TokenShape>, dense: seq<seq<nat>>, j: nat, s: seq<nat>): Result<seq<nat>>
    decreases |outs| - j
  {
    if j >= |outs| then Ok(s)
    else
      var emb :- Embedding(t, outs[j], dense, j);
      EmbeddingsFrom(t, outs, dense, j + 1, s + [emb])
  }

  /** `Transformer.forward(channels_output)`: the width of the embedding it returns. */
  function TransformerForward(t: Transformer, xs: seq<TokenShape>): Result<nat>
  {
    var levels :- LevelsFrom(t.layers, 0, (xs, []));
    var embs :- EmbeddingsFrom(t, levels.0, levels.1, 0, []);
    var combined :- ConcatWidths(embs);
    FeedForwardVector(t.outputFfwd, combined)
  }

  /**
   * The HCT loop of one level: `channels_output[i]` is overwritten with the
   * tuple of block i, and block i's dense feature is appended.
   */
  method HctLoop(blocks: seq<Block>, xs: seq<TokenShape>) returns (r: Result<(seq<Slot>, seq<nat>)>)
    ensures HctFrom(blocks, xs, 0, ([], [])).Err? ==> r == Err(HctFrom(blocks, xs, 0, ([], [])).error)
    ensures HctFrom(blocks, xs, 0, ([], [])).Ok? ==>
      r == Ok((AfterHct(HctFrom(blocks, xs, 0, ([], [])).value.0, xs), HctFrom(blocks, xs, 0, ([], [])).value.1))
  {
    var channelsOutput := seq(|xs|, j requires 0 <= j < |xs| => Raw(xs[j]));
    var depthDense: seq<nat> := [];
    ghost var quads: seq<Quad> := [];
    var i := 0;
    while i < |blocks|
      invariant i <= |blocks| && |quads| == i
      invariant HctFrom(blocks, xs, 0, ([], [])) == HctFrom(blocks, xs, i, (quads, depthDense))
      invariant channelsOutput == AfterHct(quads, xs)
    {
      if i >= |xs| {
        return Err(IndexOutOfRange);
      }
      var step := HctBlock(blocks[i], xs[i]);
      if step.Err? {
        return Err(step.error);
      }
      channelsOutput := channelsOutput[i := Tuple(step.value.0)];
      quads := quads + [step.value.0];
      depthDense := depthDense + [step.value.1];
      i := i + 1;
    }
    r := Ok((channelsOutput, depthDense));
  }

  /** The cross loop of one level, building `new_channels_output`. */
  method CrossLoop(blocks: seq<Block>, slots: seq<Slot>) returns (r: Result<seq<TokenShape>>)
    ensures r == CrossFrom(blocks, slots, 0, [])
  {
    var newChannelsOutput: seq<TokenShape> := [];
    var i := 0;
    while i < |blocks|
      invariant i <= |blocks|
      invariant CrossFrom(blocks, slots, 0, []) == CrossFrom(blocks, slots, i, newChannelsOutput)
    {
      var x := CrossStep(blocks[i], slots, i);
      if x.Err? {
        return Err(x.error);
      }
      newChannelsOutput := newChannelsOutput + [x.value];
      i := i + 1;
    }
    r := Ok(newChannelsOutput);
  }

  /** The embedding loop: one compressed embedding per modality, in index order. */
  method EmbedLoop(t: Transformer, outs: seq<TokenShape>, dense: seq<seq<nat>>) returns (r: Result<seq<nat>>)
    ensures r == EmbeddingsFrom(t, outs, dense, 0, [])
  {
    var modalitySpecificEmb: seq<nat> := [];
    var i := 0;
    while i < |outs|
      invariant i <= |outs|
      invariant EmbeddingsFrom(t, outs, dense, 0, []) == EmbeddingsFrom(t, outs, dense, i, modalitySpecificEmb)
    {
      var emb := Embedding(t, outs[i], dense, i);
      if emb.Err? {
        return Err(emb.error);
      }
      modalitySpecificEmb := modalitySpecificEmb + [emb.value];
      i := i + 1;
    }
    r := Ok(modalitySpecificEmb);
  }

  /**
   * `Transformer.forward`: per level the HCT loop and the cross loop, with
   * the level's dense features appended to `dense_feature`; then one
   * embedding per modality, their concatenation and the output head.
   */
  method Forward(t: Transformer, xs: seq<TokenShape>) returns (r: Result<nat>)
    ensures r == TransformerForward(t, xs)
  {
    var channelsOutput := xs;
    var denseFeature: seq<seq<nat>> := [];
    var l := 0;
    while l < |t.layers|
      invariant l <= |t.layers|
      invariant LevelsFrom(t.layers, 0, (xs, [])) == LevelsFrom(t.layers, l, (channelsOutput, denseFeature))
    {
      var blocks := t.layers[l];
      var hct := HctLoop(blocks, channelsOutput);
      if hct.Err? {
        return Err(hct.error);
      }
      denseFeature := denseFeature + [hct.value.1];
      var next := CrossLoop(blocks, hct.value.0);
      if next.Err? {
        return Err(next.error);
      }
      channelsOutput := next.value;
      l := l + 1;
    }
    var embs := EmbedLoop(t, channelsOutput, denseFeature);
    if embs.Err? {
      return Err(embs.error);
    }
    if embs.value == [] {
      return Err(EmptyConcatenation);
    }
    r := FeedForwardVector(t.outputFfwd, Sum(embs.value));
  }

  // ---------------------------------------------------------------------------
  // MultiChannelDeformer
  // ---------------------------------------------------------------------------

  /** The keyword arguments of `MultiChannelDeformer(...)` (dropout left out). */
  datatype DeformerConfig = DeformerConfig(
    numTime: seq<nat>, numChan: seq<nat>, mlpDim: seq<nat>, numKernel: seq<nat>,
    temporalKernel: seq<nat>, embDim: seq<nat>, depth: nat, heads: nat, dimHead: nat, outDim: nat)

  /** Positional embeddings are (1, num_kern, dim) parameters; the batch axis of 1 is dropped. */
  datatype Deformer = Deformer(encoders: seq<Encoder>, posEmbeddings: seq<TokenShape>, transformer: Transformer)

  /** The Transformer gets num_kernel as in_chans and temporal_kernel as the fine-grained kernels. */
  function TransformerConfigOf(c: DeformerConfig): TransformerConfig
  {
    TransformerConfig(c.numTime, c.depth, c.heads, c.dimHead, c.mlpDim, c.numKernel, c.embDim, c.outDim, c.temporalKernel)
  }

  function Min3(a: nat, b: nat, c: nat): nat
  {
    Min(a, Min(b, c))
  }

  /** The front ends over the zip of num_chan, num_kernel and temporal_kernel. */
  function EncodersOf(c: DeformerConfig): seq<Encoder>
  {
    var n := Min3(|c.numChan|, |c.numKernel|, |c.temporalKernel|);
    seq(n, k requires 0 <= k < n => EncoderBlock(c.numKernel[k], c.temporalKernel[k], c.numChan[k]))
  }

  /** The positional embeddings over the zip of num_time and num_kernel: (num_kern, dim) each. */
  function PosEmbeddingsOf(c: DeformerConfig): seq<TokenShape>
  {
    var m := Min(|c.numTime|, |c.numKernel|);
    seq(m, k requires 0 <= k < m => TokenShape(c.numKernel[k], c.numTime[k]))
  }

  /** `MultiChannelDeformer.__init__`. */
  function DeformerOf(c: DeformerConfig): Result<Deformer>
  {
    var t :- TransformerOf(TransformerConfigOf(c));
    Ok(Deformer(EncodersOf(c), PosEmbeddingsOf(c), t))
  }

  method BuildDeformer(c: DeformerConfig) returns (r: Result<Deformer>)
    ensures r == DeformerOf(c)
  {
    var encoders: seq<Encoder> := [];
    var k := 0;
    while k < |c.numChan| && k < |c.numKernel| && k < |c.temporalKernel|
      invariant k <= |c.numChan| && k <= |c.numKernel| && k <= |c.temporalKernel| && |encoders| == k
      invariant forall j :: 0 <= j < k ==> encoders[j] == EncoderBlock(c.numKernel[j], c.temporalKernel[j], c.numChan[j])
    {
      encoders := encoders + [EncoderBlock(c.numKernel[k], c.temporalKernel[k], c.numChan[k])];
      k := k + 1;
    }
    assert encoders == EncodersOf(c);
    var pos: seq<TokenShape> := [];
    k := 0;
    while k < |c.numTime| && k < |c.numKernel|
      invariant k <= |c.numTime| && k <= |c.numKernel| && |pos| == k
      invariant forall j :: 0 <= j < k ==> pos[j] == TokenShape(c.numKernel[j], c.numTime[j])
    {
      pos := pos + [TokenShape(c.numKernel[k], c.numTime[k])];
      k := k + 1;
    }
    assert pos == PosEmbeddingsOf(c);
    var t := BuildTransformer(TransformerConfigOf(c));
    if t.Err? {
      return Err(t.error);
    }
    r := Ok(Deformer(encoders, pos, t.value));
  }

  /** Front end of modality i: encoder, flatten to (num_kern, rows * time), add the positional embedding in place. */
  function EncodeChannel(m: Deformer, x: TokenShape, i: nat): Result<TokenShape>
  {
    if i >= |m.encoders| then Err(IndexOutOfRange)
    else
      var y :- ApplyEncoder(m.encoders[i], x.tokens, x.width);
      if i >= |m.posEmbeddings| then Err(IndexOutOfRange)
      else AddInPlace(y, m.posEmbeddings[i])
  }

  /** The front-end loop from channel j on, the encoded channels being s so far. */
  function EncodeFrom(m: Deformer, xs: seq<TokenShape>, j: nat, s: seq<TokenShape>): Result<seq<TokenShape>>
    decreases |xs| - j
  {
    if j >= |xs| then Ok(s)
    else
      var y :- EncodeChannel(m, xs[j], j);
      EncodeFrom(m, xs, j + 1, s + [y])
  }

  /** `MultiChannelDeformer.forward(channels)`: each (channels, time) input through its front end, then the Transformer. */
  function DeformerForward(m: Deformer, xs: seq<TokenShape>): Result<nat>
  {
    var encoded :- EncodeFrom(m, xs, 0, []);
    TransformerForward(m.transformer, encoded)
  }

  /** `MultiChannelDeformer.forward`: the loop writes `channels[i]`, then calls the Transformer. */
  method DeformerForwardLoop(m: Deformer, xs: seq<TokenShape>) returns (r: Result<nat>)
    ensures r == DeformerForward(m, xs)
  {
    var channels: seq<TokenShape> := [];
    var i := 0;
    while i < |xs|
      invariant i <= |xs|
      invariant EncodeFrom(m, xs, 0, []) == EncodeFrom(m, xs, i, channels)
    {
      var y := EncodeChannel(m, xs[i], i);
      if y.Err? {
        return Err(y.error);
      }
      channels := channels + [y.value];
      i := i + 1;
    }
    r := Forward(m.transformer, channels);
  }
}
