/**
 * Shape-level model of models/IntermediateFusionDeformer.py: every modality
 * runs through its own CNN front end and its own single-modality
 * `Transformer` (module LevelStack); the per-modality outputs are
 * concatenated and passed to one `mlp_head` whose input width `out_size`
 * the constructor accumulates in closed form.
 */
module IntermediateFusion {
  import opened Halving
  import opened Layers
  import opened LevelStack

  /** The keyword arguments of `IntermediateFusionDeformer(...)` (dropout left out). */
  datatype FusionConfig = FusionConfig(
    numTime: seq<nat>, numChan: seq<nat>, temporalKernel: seq<nat>, numKernel: seq<nat>,
    embDim: nat, outDim: nat, depth: nat, heads: nat, mlpDim: seq<nat>, dimHead: nat)

  /** Positional embeddings are (1, num_k, dim) parameters; the batch axis of 1 is dropped. */
  datatype Fusion = Fusion(encoders: seq<Encoder>, posEmbeddings: seq<TokenShape>,
                           transformers: seq<seq<Level>>, mlpHead: FeedForward)

  /** The number of transformers: the zip of num_time, mlp_dim, temporal_kernel and num_kernel. */
  function TransformerCount(c: FusionConfig): nat
  {
    Min(Min(|c.numTime|, |c.mlpDim|), Min(|c.temporalKernel|, |c.numKernel|))
  }

  /** The term the constructor adds to `out_size` for each transformer built. */
  function OutSizes(c: FusionConfig): (r: seq<nat>)
    ensures |r| == TransformerCount(c)
  {
    seq(TransformerCount(c), k requires 0 <= k < TransformerCount(c) => ModalityOutSize(c.numTime[k], c.depth, c.numKernel[k]))
  }

  /** `out_size` once the constructor loop is done. */
  function OutSize(c: FusionConfig): nat
  {
    Sum(OutSizes(c))
  }

  /** The error the first `Transformer(...)` raises: ZeroDivisionError from its first Attention. */
  function TransformersFail(c: FusionConfig): bool
  {
    TransformerCount(c) >= 1 && c.depth >= 1 && c.dimHead == 0
  }

  /** The front ends over the zip of num_chan, temporal_kernel and num_kernel. */
  function EncodersOf(c: FusionConfig): seq<Encoder>
  {
    var n := Min(|c.numChan|, Min(|c.temporalKernel|, |c.numKernel|));
    seq(n, k requires 0 <= k < n => EncoderBlock(c.numKernel[k], c.temporalKernel[k], c.numChan[k]))
  }

  /** The positional embeddings over the zip of num_time and num_kernel: (num_k, dim) each. */
  function PosEmbeddingsOf(c: FusionConfig): seq<TokenShape>
  {
    var m := Min(|c.numTime|, |c.numKernel|);
    seq(m, k requires 0 <= k < m => TokenShape(c.numKernel[k], c.numTime[k]))
  }

  /** One single-modality Transformer per entry of the zip, when none of them fails. */
  function TransformersOf(c: FusionConfig): (r: seq<seq<Level>>)
    requires !TransformersFail(c)
    ensures |r| == TransformerCount(c)
  {
    var n := TransformerCount(c);
    seq(n, k requires 0 <= k < n =>
      StackOf(c.numTime[k], c.depth, c.heads, c.dimHead, c.mlpDim[k], c.numKernel[k], c.temporalKernel[k]).value)
  }

  /** `IntermediateFusionDeformer.__init__`: the model it builds, or the error it raises. */
  function FusionOf(c: FusionConfig): Result<Fusion>
  {
    if TransformersFail(c) then Err(ZeroDivision)
    else Ok(Fusion(EncodersOf(c), PosEmbeddingsOf(c), TransformersOf(c), FeedForward(OutSize(c), c.embDim, c.outDim)))
  }

  /** The first zip loop of `__init__`: one CNN front end per modality. */
  method BuildEncoders(c: FusionConfig) returns (encoders: seq<Encoder>)
    ensures encoders == EncodersOf(c)
  {
    encoders := [];
    var k := 0;
    while k < |c.numChan| && k < |c.temporalKernel| && k < |c.numKernel|
      invariant k <= |c.numChan| && k <= |c.temporalKernel| && k <= |c.numKernel| && |encoders| == k
      invariant forall j :: 0 <= j < k ==> encoders[j] == EncoderBlock(c.numKernel[j], c.temporalKernel[j], c.numChan[j])
    {
      encoders := encoders + [EncoderBlock(c.numKernel[k], c.temporalKernel[k], c.numChan[k])];
      k := k + 1;
    }
  }

  /** The second zip loop of `__init__`: one positional embedding per modality. */
  method BuildPosEmbeddings(c: FusionConfig) returns (pos: seq<TokenShape>)
    ensures pos == PosEmbeddingsOf(c)
  {
    pos := [];
    var k := 0;
    while k < |c.numTime| && k < |c.numKernel|
      invariant k <= |c.numTime| && k <= |c.numKernel| && |pos| == k
      invariant forall j :: 0 <= j < k ==> pos[j] == TokenShape(c.numKernel[j], c.numTime[j])
    {
      pos := pos + [TokenShape(c.numKernel[k], c.numTime[k])];
      k := k + 1;
    }
  }

  /**
   * The third zip loop of `__init__`: one Transformer per modality, each
   * adding its closed-form output size to `out_size`.
   */
  method BuildTransformers(c: FusionConfig) returns (r: Result<(seq<seq<Level>>, nat)>)
    ensures TransformersFail(c) ==> r == Err(ZeroDivision)
    ensures !TransformersFail(c) ==> r == Ok((TransformersOf(c), OutSize(c)))
  {
    var transformers: seq<seq<Level>> := [];
    var outSize := 0;
    var sizes := OutSizes(c);
    var k := 0;
    while k < |c.numTime| && k < |c.mlpDim| && k < |c.temporalKernel| && k < |c.numKernel|
      invariant k <= TransformerCount(c) && |transformers| == k
      invariant k > 0 ==> !TransformersFail(c)
      invariant forall j :: 0 <= j < k ==>
        (StackOf(c.numTime[j], c.depth, c.heads, c.dimHead, c.mlpDim[j], c.numKernel[j], c.temporalKernel[j]) == Ok(transformers[j]))
      invariant outSize == Sum(sizes[..k])
    {
      var t := LevelStack.Build(c.numTime[k], c.depth, c.heads, c.dimHead, c.mlpDim[k], c.numKernel[k], c.temporalKernel[k]);
      if t.Err? {
        return Err(t.error);
      }
      transformers := transformers + [t.value];
      var l := HiddenSizes(c.numTime[k], c.depth);
      SumPrefixStep(sizes, k);
      outSize := outSize + (c.numKernel[k] * l[|l| - 1] + c.numKernel[k] * c.depth);
      k := k + 1;
    }
    assert sizes[..k] == sizes;
    if TransformersFail(c) {
      // The loop ran no iteration, yet a failing configuration has at least one.
      assert false;
    }
    assert transformers == TransformersOf(c);
    r := Ok((transformers, outSize));
  }

  /** `IntermediateFusionDeformer.__init__`. */
  method Build(c: FusionConfig) returns (r: Result<Fusion>)
    ensures r == FusionOf(c)
  {
    var encoders := BuildEncoders(c);
    var pos := BuildPosEmbeddings(c);
    var t := BuildTransformers(c);
    if t.Err? {
      return Err(t.error);
    }
    r := Ok(Fusion(encoders, pos, t.value.0, FeedForward(t.value.1, c.embDim, c.outDim)));
  }

  /**
   * Modality i of `forward`: unsqueeze, CNN front end, flatten to
   * (num_k, rows * time), add the positional embedding in place, and run
   * the modality's Transformer. The result is the width of its output vector.
   */
  function ChannelForward(m: Fusion, x: TokenShape, i: nat): Result<nat>
  {
    if i >= |m.encoders| then Err(IndexOutOfRange)
    else
      var y :- ApplyEncoder(m.encoders[i], x.tokens, x.width);
      if i >= |m.posEmbeddings| then Err(IndexOutOfRange)
      else
        var y' :- AddInPlace(y, m.posEmbeddings[i]);
        if i >= |m.transformers| then Err(IndexOutOfRange)
        else StackForward(m.transformers[i], y')
  }

  /** The loop of `forward` from channel j on, the widths of the outputs so far being s. */
  function ForwardFrom(m: Fusion, xs: seq<TokenShape>, j: nat, s: seq<nat>): Result<seq<nat>>
    decreases |xs| - j
  {
    if j >= |xs| then Ok(s)
    else
      var w :- ChannelForward(m, xs[j], j);
      ForwardFrom(m, xs, j + 1, s + [w])
  }

  /** `IntermediateFusionDeformer.forward(channels)`: the per-modality outputs concatenated through `mlp_head`. */
  function FusionForward(m: Fusion, xs: seq<TokenShape>): Result<nat>
  {
    var widths :- ForwardFrom(m, xs, 0, []);
    var total :- ConcatWidths(widths);
    FeedForwardVector(m.mlpHead, total)
  }

  /** `forward`: the loop replaces each channel by its Transformer output, then concatenates them. */
  method ForwardLoop(m: Fusion, xs: seq<TokenShape>) returns (r: Result<nat>)
    ensures r == FusionForward(m, xs)
  {
    var channels: seq<nat> := [];
    var i := 0;
    while i < |xs|
      invariant i <= |xs|
      invariant ForwardFrom(m, xs, 0, []) == ForwardFrom(m, xs, i, channels)
    {
      if i >= |m.encoders| {
        return Err(IndexOutOfRange);
      }
      var y := ApplyEncoder(m.encoders[i], xs[i].tokens, xs[i].width);
      if y.Err? {
        return Err(y.error);
      }
      if i >= |m.posEmbeddings| {
        return Err(IndexOutOfRange);
      }
      var y' := AddInPlace(y.value, m.posEmbeddings[i]);
      if y'.Err? {
        return Err(y'.error);
      }
      if i >= |m.transformers| {
        return Err(IndexOutOfRange);
      }
      var w := LevelStack.Forward(m.transformers[i], y'.value);
      if w.Err? {
        return Err(w.error);
      }
      channels := channels + [w.value];
      i := i + 1;
    }
    if channels == [] {
      return Err(EmptyConcatenation);
    }
    r := FeedForwardVector(m.mlpHead, Sum(channels));
  }

  // ---------------------------------------------------------------------------
  // Properties
  // ---------------------------------------------------------------------------

  /**
   * A configuration the forward pass can run: at least one modality, every
   * per-modality list covering all modalities, at least one level, odd
   * temporal kernels, at least one channel and time axes long enough to be
   * halved `depth` times.
   */
  predicate FusionWellFormed(c: FusionConfig)
  {
    |c.numTime| >= 1 && |c.numChan| >= |c.numTime| && |c.temporalKernel| >= |c.numTime| &&
    |c.numKernel| >= |c.numTime| && |c.mlpDim| >= |c.numTime| &&
    c.depth >= 1 && c.heads >= 1 && c.dimHead >= 1 &&
    forall k :: 0 <= k < |c.numTime| ==>
      c.temporalKernel[k] % 2 == 1 && c.numTime[k] >= Pow2(c.depth) && c.numChan[k] >= 1
  }

  /** Modality k's output vector is exactly the width the constructor added to `out_size` for it. */
  lemma {:induction false} ChannelForwardWidth(c: FusionConfig, k: nat)
    requires FusionWellFormed(c) && k < |c.numTime|
    ensures FusionOf(c).Ok?
    ensures ChannelForward(FusionOf(c).value, ChannelInputs(c.numChan, c.numTime)[k], k) == Ok(OutSizes(c)[k])
  {
    var m := FusionOf(c).value;
    var t, numK, kern := c.numTime[k], c.numKernel[k], c.temporalKernel[k];
    assert m.encoders[k] == EncoderBlock(numK, kern, c.numChan[k]);
    assert m.posEmbeddings[k] == TokenShape(numK, t);
    EncoderKeepsTime(numK, kern, c.numChan[k], t);
    StackWidthIsOutSize(t, c.depth, c.heads, c.dimHead, c.mlpDim[k], numK, kern);
    assert m.transformers[k] == StackOf(t, c.depth, c.heads, c.dimHead, c.mlpDim[k], numK, kern).value;
  }

  /** One channel that succeeds advances the loop of `forward` by one. */
  lemma {:induction false} ForwardFromStep(m: Fusion, xs: seq<TokenShape>, j: nat, s: seq<nat>, w: nat)
    requires j < |xs| && ChannelForward(m, xs[j], j) == Ok(w)
    ensures ForwardFrom(m, xs, j, s) == ForwardFrom(m, xs, j + 1, s + [w])
  {
  }

  /** The loop of `forward` from channel j on yields the out_size terms, in modality order. */
  lemma {:induction false} ForwardAllWidths(c: FusionConfig, j: nat)
    requires FusionWellFormed(c) && j <= |c.numTime|
    ensures FusionOf(c).Ok?
    ensures ForwardFrom(FusionOf(c).value, ChannelInputs(c.numChan, c.numTime), j, OutSizes(c)[..j]) == Ok(OutSizes(c))
    decreases |c.numTime| - j
  {
    var sizes := OutSizes(c);
    if j < |c.numTime| {
      ChannelForwardWidth(c, j);
      ForwardFromStep(FusionOf(c).value, ChannelInputs(c.numChan, c.numTime), j, sizes[..j], sizes[j]);
      SnocSlice(sizes, j);
      ForwardAllWidths(c, j + 1);
    } else {
      assert sizes[..j] == sizes;
    }
  }

  /**
   * `out_size` is the width of the concatenated per-modality outputs, so
   * `mlp_head` accepts them and the model yields out_dim values.
   */
  lemma {:induction false} FusionForwardWidth(c: FusionConfig)
    requires FusionWellFormed(c)
    ensures FusionOf(c).Ok?
    ensures ForwardFrom(FusionOf(c).value, ChannelInputs(c.numChan, c.numTime), 0, []) == Ok(OutSizes(c))
    ensures ConcatWidths(OutSizes(c)) == Ok(OutSize(c)) && FusionOf(c).value.mlpHead.dim == OutSize(c)
    ensures FusionForward(FusionOf(c).value, ChannelInputs(c.numChan, c.numTime)) == Ok(c.outDim)
  {
    ForwardAllWidths(c, 0);
    assert OutSizes(c)[..0] == [];
    FeedForwardShape(FusionOf(c).value.mlpHead, TokenShape(1, OutSize(c)));
  }

  /** The configuration of the module's demonstration. */
  function DemoConfig(): FusionConfig
  {
    FusionConfig([4 * 128, 6 * 128, 4 * 64, 10 * 32], [16, 1, 1, 1], [13, 13, 13, 13], [64, 4, 4, 4],
                 256, 2, 4, 16, [16, 16, 16, 16], 16)
  }

  lemma {:induction false} DemoSizes()
    ensures OutSizes(DemoConfig()) == [2304, 208, 80, 96]
  {
    assert Pow2(4) == 16 by {
      assert Pow2(1) == 2 && Pow2(2) == 4 && Pow2(3) == 8;
    }
    var c := DemoConfig();
    assert OutSizes(c) == [2304, 208, 80, 96];
  }

  lemma {:induction false} DemoWellFormed()
    ensures FusionWellFormed(DemoConfig())
  {
    assert Pow2(4) == 16 by {
      assert Pow2(1) == 2 && Pow2(2) == 4 && Pow2(3) == 8;
    }
  }

  /** The demonstration's out_size is 2304 + 208 + 80 + 96 = 2688 and its forward pass yields two values. */
  lemma {:induction false} DemoForward()
    ensures OutSizes(DemoConfig()) == [2304, 208, 80, 96] && OutSize(DemoConfig()) == 2688
    ensures FusionOf(DemoConfig()).Ok?
    ensures FusionForward(FusionOf(DemoConfig()).value, ChannelInputs(DemoConfig().numChan, DemoConfig().numTime)) == Ok(2)
  {
    DemoSizes();
    assert Sum([2304, 208, 80, 96]) == 2688 by {
      assert [2304, 208, 80, 96][..3] == [2304, 208, 80];
      assert [2304, 208, 80][..2] == [2304, 208];
      assert [2304, 208][..1] == [2304];
      assert [2304][..0] == [];
    }
    DemoWellFormed();
    FusionForwardWidth(DemoConfig());
  }
}
