/**
 * The single-modality `Transformer` of IntermediateFusionDeformer.py and
 * UnimodalDeformer.py (the two files hold the same class): a stack of depth
 * levels, each halving the time axis, attending over the pooled tokens and
 * keeping one dense (log-power) feature per kernel.
 */
module LevelStack {
  import opened Halving
  import opened Layers

  /** One depth level: Attention(dim), FeedForward(dim, mlp_dim, dim), cnn_block(in_chan, kernel). */
  datatype Level = Level(attn: FusedAttention, ff: FeedForward, cnn: DenseBlock)

  /** The level built for time dimension `dim`. */
  function MakeLevel(dim: nat, heads: nat, dimHead: nat, mlpDim: nat, inChan: nat, kernel: nat): Result<Level>
  {
    var attn :- MakeFusedAttention(dim, heads, dimHead);
    Ok(Level(attn, FeedForward(dim, mlpDim, dim), MakeDenseBlock(inChan, kernel)))
  }

  /**
   * What `Transformer.__init__(dim, depth, ...)` builds: level i works at the
   * time dimension dim / 2^(i+1).
   */
  function StackOf(dim: nat, depth: nat, heads: nat, dimHead: nat, mlpDim: nat, inChan: nat, kernel: nat): Result<seq<Level>>
  {
    if depth == 0 then Ok([])
    else if dimHead == 0 then Err(ZeroDivision)
    else Ok(seq(depth, i requires 0 <= i < depth =>
      MakeLevel(ScaledFloor(dim, i + 1), heads, dimHead, mlpDim, inChan, kernel).value))
  }

  /**
   * `Transformer.__init__`: the loop rebinds `dim = int(dim * 0.5)` and
   * appends one level per iteration.
   */
  method Build(dim: nat, depth: nat, heads: nat, dimHead: nat, mlpDim: nat, inChan: nat, kernel: nat)
    returns (r: Result<seq<Level>>)
    ensures r == StackOf(dim, depth, heads, dimHead, mlpDim, inChan, kernel)
  {
    var layers: seq<Level> := [];
    var d := dim;
    var i := 0;
    while i < depth
      invariant 0 <= i <= depth
      invariant i > 0 ==> dimHead >= 1
      invariant d == HalveTimes(dim, i)
      invariant |layers| == i
      invariant forall j :: 0 <= j < i ==>
        MakeLevel(ScaledFloor(dim, j + 1), heads, dimHead, mlpDim, inChan, kernel) == Ok(layers[j])
    {
      d := Half(d);
      HalveTimesIsScaledFloor(dim, i + 1);
      var level := MakeLevel(d, heads, dimHead, mlpDim, inChan, kernel);
      if level.Err? {
        return Err(level.error);
      }
      assert dimHead >= 1;
      layers := layers + [level.value];
      i := i + 1;
    }
    if depth > 0 {
      assert layers == StackOf(dim, depth, heads, dimHead, mlpDim, inChan, kernel).value;
    }
    r := Ok(layers);
  }

  /** The level sizes of the stack are entries 1..depth of `get_hidden_size`. */
  lemma {:induction false} StackDimsAreHiddenSizes(dim: nat, depth: nat, heads: nat, dimHead: nat, mlpDim: nat, inChan: nat, kernel: nat)
    requires StackOf(dim, depth, heads, dimHead, mlpDim, inChan, kernel).Ok?
    ensures var levels := StackOf(dim, depth, heads, dimHead, mlpDim, inChan, kernel).value;
      |levels| == depth &&
      forall i :: 0 <= i < depth ==>
        levels[i].ff == FeedForward(HiddenSizes(dim, depth)[i + 1], mlpDim, HiddenSizes(dim, depth)[i + 1]) &&
        levels[i].attn.dim == HiddenSizes(dim, depth)[i + 1] &&
        levels[i].attn.dim == HalveTimes(dim, i + 1) &&
        levels[i].cnn == MakeDenseBlock(inChan, kernel)
  {
    HiddenSizesAreLevelSizes(dim, depth);
  }

  /**
   * One iteration of `Transformer.forward`: the coarse branch pools and
   * attends, the fine branch convolves and pools the unpooled input, and the
   * two are added. Returns the new x and the width of the dense feature.
   */
  function LevelForward(l: Level, x: TokenShape): Result<(TokenShape, nat)>
  {
    var pooled :- MaxPool(x);
    var attended :- ApplyFusedAttention(l.attn, pooled);
    var coarse :- Add(attended, pooled);
    var fine :- ApplyDenseBlock(l.cnn, x);
    var ffOut :- ApplyFeedForward(l.ff, coarse);
    var x' :- Add(ffOut, fine);
    Ok((x', fine.tokens))
  }

  /** The x and the dense features after the levels run so far. */
  type StackState = (TokenShape, seq<nat>)

  /** The levels from index j on, applied in order to the state s. */
  function LevelsFrom(levels: seq<Level>, j: nat, s: StackState): Result<StackState>
    decreases |levels| - j
  {
    if j >= |levels| then Ok(s)
    else
      var step :- LevelForward(levels[j], s.0);
      LevelsFrom(levels, j + 1, (step.0, s.1 + [step.1]))
  }

  /**
   * The result of `Transformer.forward`: the width of the final tokens
   * flattened and concatenated with the dense features (`torch.cat` of an
   * empty dense list fails).
   */
  function StackForward(levels: seq<Level>, x: TokenShape): Result<nat>
  {
    var out :- LevelsFrom(levels, 0, (x, []));
    var denseWidth :- ConcatWidths(out.1);
    Ok(Flatten(out.0) + denseWidth)
  }

  /** `Transformer.forward`: the loop appends to `dense_feature` and rebinds x. */
  method Forward(levels: seq<Level>, x: TokenShape) returns (r: Result<nat>)
    ensures r == StackForward(levels, x)
  {
    var denseFeature: seq<nat> := [];
    var cur := x;
    var i := 0;
    while i < |levels|
      invariant 0 <= i <= |levels|
      invariant LevelsFrom(levels, 0, (x, [])) == LevelsFrom(levels, i, (cur, denseFeature))
    {
      var step := LevelForward(levels[i], cur);
      if step.Err? {
        return Err(step.error);
      }
      denseFeature := denseFeature + [step.value.1];
      cur := step.value.0;
      i := i + 1;
    }
    if denseFeature == [] {
      return Err(EmptyConcatenation);
    }
    r := Ok(Flatten(cur) + Sum(denseFeature));
  }

  /** A level on tokens of its own width halves the time axis and yields in_chan features. */
  lemma {:induction false} LevelHalves(dim: nat, heads: nat, dimHead: nat, mlpDim: nat, inChan: nat, kernel: nat, d: nat)
    requires heads >= 1 && dimHead >= 1 && kernel % 2 == 1 && d >= 2 && dim == Half(d)
    ensures MakeLevel(dim, heads, dimHead, mlpDim, inChan, kernel).Ok?
    ensures LevelForward(MakeLevel(dim, heads, dimHead, mlpDim, inChan, kernel).value, TokenShape(inChan, d))
      == Ok((TokenShape(inChan, dim), inChan))
  {
    var pooled := TokenShape(inChan, dim);
    FusedAttentionContract(dim, heads, dimHead, pooled);
    DenseBlockHalves(inChan, kernel, d);
  }

  /** Level i of a built stack takes (in_chan, T / 2^i) to (in_chan, T / 2^(i+1)) with in_chan features. */
  predicate HalvesAt(levels: seq<Level>, i: nat, t: nat, inChan: nat)
    requires i < |levels|
  {
    LevelForward(levels[i], TokenShape(inChan, HalveTimes(t, i))) == Ok((TokenShape(inChan, HalveTimes(t, i + 1)), inChan))
  }

  /** Every level of the stack built for T halves its input, when T >= 2^depth. */
  lemma {:induction false} StackLevelsHalve(t: nat, depth: nat, heads: nat, dimHead: nat, mlpDim: nat, inChan: nat, kernel: nat)
    requires heads >= 1 && dimHead >= 1 && kernel % 2 == 1 && t >= Pow2(depth)
    ensures StackOf(t, depth, heads, dimHead, mlpDim, inChan, kernel).Ok?
    ensures |StackOf(t, depth, heads, dimHead, mlpDim, inChan, kernel).value| == depth
    ensures forall i :: 0 <= i < depth ==> HalvesAt(StackOf(t, depth, heads, dimHead, mlpDim, inChan, kernel).value, i, t, inChan)
  {
    var levels := StackOf(t, depth, heads, dimHead, mlpDim, inChan, kernel).value;
    forall i | 0 <= i < depth
      ensures HalvesAt(levels, i, t, inChan)
    {
      HalveTimesIsScaledFloor(t, i + 1);
      LevelInputAtLeastTwo(t, depth, i);
      LevelHalves(HalveTimes(t, i + 1), heads, dimHead, mlpDim, inChan, kernel, HalveTimes(t, i));
    }
  }

  /** One level that succeeds advances the level loop by one. */
  lemma {:induction false} LevelsFromStep(levels: seq<Level>, j: nat, s: StackState, step: (TokenShape, nat))
    requires j < |levels| && LevelForward(levels[j], s.0) == Ok(step)
    ensures LevelsFrom(levels, j, s) == LevelsFrom(levels, j + 1, (step.0, s.1 + [step.1]))
  {
  }

  /**
   * From level j on, tokens of in_chan rows over T / 2^j steps end with
   * in_chan rows over T / 2^|levels| steps, and each remaining level appends
   * one dense feature of width in_chan, in level order.
   */
  lemma {:induction false} LevelsFromShape(levels: seq<Level>, t: nat, inChan: nat, j: nat, m: nat, dense: seq<nat>)
    requires j + m == |levels|
    requires forall i :: j <= i < |levels| ==> HalvesAt(levels, i, t, inChan)
    ensures LevelsFrom(levels, j, (TokenShape(inChan, HalveTimes(t, j)), dense))
      == Ok((TokenShape(inChan, HalveTimes(t, |levels|)), dense + Repeat(inChan, m)))
    decreases m
  {
    if m > 0 {
      LevelsFromShape(levels, t, inChan, j + 1, m - 1, dense + [inChan]);
      LevelsFromShapeStep(levels, t, inChan, j, m, dense);
    } else {
      EmptySuffix(dense);
    }
  }

  /** The step of LevelsFromShape: level j halves, and the m - 1 levels after it are known. */
  lemma {:induction false} LevelsFromShapeStep(levels: seq<Level>, t: nat, inChan: nat, j: nat, m: nat, dense: seq<nat>)
    requires j < |levels| && m >= 1 && HalvesAt(levels, j, t, inChan)
    requires LevelsFrom(levels, j + 1, (TokenShape(inChan, HalveTimes(t, j + 1)), dense + [inChan]))
      == Ok((TokenShape(inChan, HalveTimes(t, |levels|)), (dense + [inChan]) + Repeat(inChan, m - 1)))
    ensures LevelsFrom(levels, j, (TokenShape(inChan, HalveTimes(t, j)), dense))
      == Ok((TokenShape(inChan, HalveTimes(t, |levels|)), dense + Repeat(inChan, m)))
  {
    LevelsFromStep(levels, j, (TokenShape(inChan, HalveTimes(t, j)), dense), (TokenShape(inChan, HalveTimes(t, j + 1)), inChan));
    RepeatPrepend(inChan, m - 1);
    AppendAssoc(dense, [inChan], Repeat(inChan, m - 1));
  }

  /** The flattened width of in_chan rows over s steps, kept apart from the stack proof that uses it. */
  lemma {:induction false} FlattenRows(inChan: nat, s: nat)
    ensures Flatten(TokenShape(inChan, s)) == inChan * s
  {
  }

  /**
   * Once the levels end in in_chan rows over h steps with n dense features of
   * in_chan each, the output width is in_chan * h + in_chan * n.
   */
  lemma {:induction false} StackForwardOf(levels: seq<Level>, x: TokenShape, inChan: nat, h: nat, n: nat)
    requires n >= 1 && LevelsFrom(levels, 0, (x, [])) == Ok((TokenShape(inChan, h), [] + Repeat(inChan, n)))
    ensures StackForward(levels, x) == Ok(inChan * h + inChan * n)
  {
    EmptyPrefix(Repeat(inChan, n));
    SumConstant(inChan, n);
    FlattenRows(inChan, h);
  }

  /** Any non-empty stack whose every level halves its input returns in_chan * (T / 2^n) + in_chan * n. */
  lemma {:induction false} UniformStackWidth(levels: seq<Level>, t: nat, inChan: nat)
    requires |levels| >= 1
    requires forall i :: 0 <= i < |levels| ==> HalvesAt(levels, i, t, inChan)
    ensures StackForward(levels, TokenShape(inChan, t)) == Ok(inChan * HalveTimes(t, |levels|) + inChan * |levels|)
  {
    LevelsFromShape(levels, t, inChan, 0, |levels|, []);
    StackForwardOf(levels, TokenShape(inChan, t), inChan, HalveTimes(t, |levels|), |levels|);
  }

  /**
   * The width `Transformer.forward` returns on a (in_chan, T) input is
   * in_chan * floor(T / 2^depth) + in_chan * depth: the flattened last level
   * plus depth dense features of in_chan each.
   */
  lemma {:induction false} StackForwardWidth(t: nat, depth: nat, heads: nat, dimHead: nat, mlpDim: nat, inChan: nat, kernel: nat)
    requires heads >= 1 && dimHead >= 1 && kernel % 2 == 1 && t >= Pow2(depth) && depth >= 1
    ensures StackOf(t, depth, heads, dimHead, mlpDim, inChan, kernel).Ok?
    ensures StackForward(StackOf(t, depth, heads, dimHead, mlpDim, inChan, kernel).value, TokenShape(inChan, t))
      == Ok(inChan * HiddenSizes(t, depth)[depth] + inChan * depth)
  {
    StackLevelsHalve(t, depth, heads, dimHead, mlpDim, inChan, kernel);
    UniformStackWidth(StackOf(t, depth, heads, dimHead, mlpDim, inChan, kernel).value, t, inChan);
    HalveTimesIsScaledFloor(t, depth);
  }

  /**
   * `int(num_k * L[-1]) + int(num_k * depth)` with `L = get_hidden_size(dim, depth)`: the
   * output size the constructors compute for a Transformer over `dim` steps.
   */
  function ModalityOutSize(dim: nat, depth: nat, numK: nat): nat
  {
    var l := HiddenSizes(dim, depth);
    numK * l[|l| - 1] + numK * depth
  }

  /** The closed form the constructor adds per modality: K * floor(T / 2^depth) + K * depth. */
  lemma {:induction false} ModalityOutSizeClosedForm(dim: nat, depth: nat, numK: nat)
    ensures ModalityOutSize(dim, depth, numK) == numK * (dim / Pow2(depth)) + numK * depth
    ensures ModalityOutSize(dim, depth, numK) == numK * HalveTimes(dim, depth) + numK * depth
  {
    HalveTimesIsScaledFloor(dim, depth);
  }

  /** The closed form the constructors use is the width `Transformer.forward` actually returns. */
  lemma {:induction false} StackWidthIsOutSize(t: nat, depth: nat, heads: nat, dimHead: nat, mlpDim: nat, inChan: nat, kernel: nat)
    requires heads >= 1 && dimHead >= 1 && kernel % 2 == 1 && t >= Pow2(depth) && depth >= 1
    ensures StackOf(t, depth, heads, dimHead, mlpDim, inChan, kernel).Ok?
    ensures StackForward(StackOf(t, depth, heads, dimHead, mlpDim, inChan, kernel).value, TokenShape(inChan, t))
      == Ok(ModalityOutSize(t, depth, inChan))
  {
    StackForwardWidth(t, depth, heads, dimHead, mlpDim, inChan, kernel);
  }
}
