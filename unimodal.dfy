/**
 * Shape-level model of models/UnimodalDeformer.py: one modality through a
 * CNN front end, the single-modality `Transformer` (module LevelStack) and
 * an `mlp_head` sized in closed form from `get_hidden_size`.
 */
module Unimodal {
  import opened Halving
  import opened Layers
  import opened LevelStack

  /** The defaults `add_model_options` registers for a modality (dropout left out). */
  datatype ModelOptions = ModelOptions(numKernel: nat, temporalKernel: nat, depth: nat, heads: nat,
                                       mlpDim: nat, dimHead: nat, embDim: nat)

  /** The keyword arguments of `UnimodalDeformer(...)` (dropout left out). */
  datatype UnimodalConfig = UnimodalConfig(numChan: nat, numTime: nat, temporalKernel: nat, numKernel: nat,
                                           embDim: nat, outDim: nat, depth: nat, heads: nat, mlpDim: nat, dimHead: nat)

  /** The positional embedding is a (1, num_kernel, num_time) parameter; the batch axis of 1 is dropped. */
  datatype UnimodalModel = UnimodalModel(encoder: Encoder, posEmbedding: TokenShape, transformer: seq<Level>, mlpHead: FeedForward)

  /** `add_model_options(parser_group, modality)`: the EEG modality gets wider kernels and embeddings. */
  function DefaultOptions(modality: string): (r: ModelOptions)
    ensures r.numKernel == 64 <==> modality == "eeg"
    ensures r.numKernel == 4 <==> modality != "eeg"
    ensures r.embDim == 256 <==> modality == "eeg"
    ensures r.embDim == 16 <==> modality != "eeg"
    ensures r.temporalKernel == 13 && r.depth == 4 && r.heads == 16 && r.mlpDim == 16 && r.dimHead == 16
  {
    var eeg := modality == "eeg";
    ModelOptions(if eeg then 64 else 4, 13, 4, 16, 16, 16, if eeg then 256 else 16)
  }

  /** The constructor call the training code makes from parsed options. */
  function ConfigOf(o: ModelOptions, numChan: nat, numTime: nat, outDim: nat): UnimodalConfig
  {
    UnimodalConfig(numChan, numTime, o.temporalKernel, o.numKernel, o.embDim, outDim, o.depth, o.heads, o.mlpDim, o.dimHead)
  }

  /** `UnimodalDeformer.__init__`: the model it builds, or the error its Transformer raises. */
  function UnimodalOf(c: UnimodalConfig): Result<UnimodalModel>
  {
    var transformer :- StackOf(c.numTime, c.depth, c.heads, c.dimHead, c.mlpDim, c.numKernel, c.temporalKernel);
    Ok(UnimodalModel(EncoderBlock(c.numKernel, c.temporalKernel, c.numChan), TokenShape(c.numKernel, c.numTime), transformer,
                     FeedForward(ModalityOutSize(c.numTime, c.depth, c.numKernel), c.embDim, c.outDim)))
  }

  /**
   * `UnimodalDeformer.forward(x)` on a (chan, time) input: unsqueeze, CNN
   * front end, flatten, add the positional embedding in place, Transformer,
   * `mlp_head`. The result is the width of the output.
   */
  function UnimodalForward(m: UnimodalModel, x: TokenShape): Result<nat>
  {
    var y :- ApplyEncoder(m.encoder, x.tokens, x.width);
    var y' :- AddInPlace(y, m.posEmbedding);
    var w :- StackForward(m.transformer, y');
    FeedForwardVector(m.mlpHead, w)
  }

  /** A configuration the forward pass can run on a (num_chan, num_time) input. */
  predicate UnimodalWellFormed(c: UnimodalConfig)
  {
    c.numChan >= 1 && c.depth >= 1 && c.heads >= 1 && c.dimHead >= 1 &&
    c.temporalKernel % 2 == 1 && c.numTime >= Pow2(c.depth)
  }

  /**
   * The encoder keeps (num_kernel, num_time), the Transformer output is
   * exactly the `out_size` the constructor gave `mlp_head`, and the model
   * yields out_dim values.
   */
  lemma {:induction false} UnimodalForwardWidth(c: UnimodalConfig)
    requires UnimodalWellFormed(c)
    ensures UnimodalOf(c).Ok?
    ensures ApplyEncoder(UnimodalOf(c).value.encoder, c.numChan, c.numTime) == Ok(UnimodalOf(c).value.posEmbedding)
    ensures StackForward(UnimodalOf(c).value.transformer, TokenShape(c.numKernel, c.numTime)) == Ok(UnimodalOf(c).value.mlpHead.dim)
    ensures UnimodalForward(UnimodalOf(c).value, TokenShape(c.numChan, c.numTime)) == Ok(c.outDim)
  {
    EncoderKeepsTime(c.numKernel, c.temporalKernel, c.numChan, c.numTime);
    StackWidthIsOutSize(c.numTime, c.depth, c.heads, c.dimHead, c.mlpDim, c.numKernel, c.temporalKernel);
    FeedForwardShape(UnimodalOf(c).value.mlpHead, TokenShape(1, ModalityOutSize(c.numTime, c.depth, c.numKernel)));
  }

  /**
   * With depth 0 the constructor still sizes `mlp_head` for num_kernel *
   * num_time features, but `forward` concatenates an empty dense list and fails.
   */
  lemma {:induction false} ZeroDepthFails(c: UnimodalConfig)
    requires c.depth == 0 && c.numChan >= 1 && c.numTime >= 1 && c.temporalKernel % 2 == 1
    ensures UnimodalOf(c).Ok?
    ensures UnimodalOf(c).value.mlpHead.dim == c.numKernel * c.numTime
    ensures UnimodalForward(UnimodalOf(c).value, TokenShape(c.numChan, c.numTime)) == Err(EmptyConcatenation)
  {
    EncoderKeepsTime(c.numKernel, c.temporalKernel, c.numChan, c.numTime);
  }

  /**
   * With the registered defaults every modality whose recording has at
   * least 16 time steps runs: out_size is num_kernel * floor(T / 16) +
   * 4 * num_kernel and the model yields out_dim values.
   */
  lemma {:induction false} DefaultsRun(modality: string, numChan: nat, numTime: nat, outDim: nat)
    requires numChan >= 1 && numTime >= 16
    ensures var c := ConfigOf(DefaultOptions(modality), numChan, numTime, outDim);
      UnimodalOf(c).Ok? &&
      UnimodalOf(c).value.mlpHead.dim == c.numKernel * (numTime / 16) + c.numKernel * 4 &&
      UnimodalForward(UnimodalOf(c).value, TokenShape(numChan, numTime)) == Ok(outDim)
  {
    var c := ConfigOf(DefaultOptions(modality), numChan, numTime, outDim);
    assert Pow2(4) == 16 by {
      assert Pow2(1) == 2 && Pow2(2) == 4 && Pow2(3) == 8;
    }
    UnimodalForwardWidth(c);
    ModalityOutSizeClosedForm(numTime, 4, c.numKernel);
  }

  /** The module's demonstration: 16 EEG channels over 512 steps give out_size 2304 and two outputs. */
  lemma {:induction false} DemoForward()
    ensures var c := UnimodalConfig(16, 512, 13, 64, 256, 2, 4, 16, 16, 16);
      UnimodalOf(c).Ok? && UnimodalOf(c).value.mlpHead.dim == 2304 &&
      UnimodalForward(UnimodalOf(c).value, TokenShape(16, 512)) == Ok(2)
  {
    DefaultsRun("eeg", 16, 512, 2);
    assert ConfigOf(DefaultOptions("eeg"), 16, 512, 2) == UnimodalConfig(16, 512, 13, 64, 256, 2, 4, 16, 16, 16);
  }
}
