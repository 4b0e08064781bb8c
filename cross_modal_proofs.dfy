/**
 * Properties of the MultiChannelDeformer model: which modalities the
 * cross-modal attention reads, the shape each depth level produces, and the
 * end-to-end shape agreement between `get_modality_output_sizes` (which
 * sizes the compressors) and what `Transformer.forward` actually feeds them.
 */
module CrossModalProofs {
  import opened Halving
  import opened Layers
  import opened CrossModal

  // ---------------------------------------------------------------------------
  // The other modalities
  // ---------------------------------------------------------------------------

  lemma {:induction false} OthersUpToSlices<T>(s: seq<T>, i: nat, n: nat)
    requires n <= |s|
    ensures OthersUpTo(s, i, n) == if i < n then s[..i] + s[i + 1..n] else s[..n]
    decreases n
  {
    if n > 0 {
      OthersUpToSlices(s, i, n - 1);
      if i < n - 1 {
        OthersAfterSkip(s, i, n);
      } else if i == n - 1 {
        OthersAtSkip(s, i, n);
      } else {
        SnocSlice(s, n - 1);
      }
    }
  }

  lemma {:induction false} OthersAfterSkip<T>(s: seq<T>, i: nat, n: nat)
    requires i + 1 < n <= |s| && OthersUpTo(s, i, n - 1) == s[..i] + s[i + 1..n - 1]
    ensures OthersUpTo(s, i, n) == s[..i] + s[i + 1..n]
  {
    SliceSnoc(s, i + 1, n - 1);
    AppendAssoc(s[..i], s[i + 1..n - 1], [s[n - 1]]);
  }

  lemma {:induction false} OthersAtSkip<T>(s: seq<T>, i: nat, n: nat)
    requires i + 1 == n <= |s| && OthersUpTo(s, i, n - 1) == s[..n - 1]
    ensures OthersUpTo(s, i, n) == s[..i] + s[i + 1..n]
  {
    assert s[i + 1..n] == [];
    EmptySuffix(s[..i]);
  }

  /**
   * `[h for n, h in enumerate(s) if n != i]` is s without entry i, the others
   * kept in index order; an i past the end leaves s whole.
   */
  lemma {:induction false} OthersOmitsOne<T>(s: seq<T>, i: nat)
    ensures i < |s| ==> Others(s, i) == s[..i] + s[i + 1..]
    ensures i < |s| ==> |Others(s, i)| == |s| - 1
    ensures i >= |s| ==> Others(s, i) == s
    ensures forall j :: 0 <= j < |Others(s, i)| ==> Others(s, i)[j] == s[if j < i then j else j + 1]
  {
    OthersUpToSlices(s, i, |s|);
    assert s[..|s|] == s;
  }

  /** The others together with entry i add up to the whole: Sum(others) == Sum(s) - s[i]. */
  lemma {:induction false} OthersSum(s: seq<nat>, i: nat)
    requires i < |s|
    ensures Sum(Others(s, i)) + s[i] == Sum(s)
  {
    OthersOmitsOne(s, i);
    assert s == s[..i] + [s[i]] + s[i + 1..];
    SumAppend(s[..i] + [s[i]], s[i + 1..]);
    SumAppend(s[..i], [s[i]]);
    SumAppend(s[..i], s[i + 1..]);
    assert Sum([s[i]]) == Sum([]) + s[i];
  }

  // ---------------------------------------------------------------------------
  // torch.cat along the token axis
  // ---------------------------------------------------------------------------

  /** The token counts of a list of tensors. */
  function TokensOf(xs: seq<TokenShape>): (r: seq<nat>)
    ensures |r| == |xs| && forall j :: 0 <= j < |xs| ==> r[j] == xs[j].tokens
  {
    seq(|xs|, j requires 0 <= j < |xs| => xs[j].tokens)
  }

  /**
   * Concatenating tensors of one width along the token axis succeeds exactly
   * when the list is non-empty, and stacks their tokens.
   */
  lemma {:induction false} ConcatTokensStacks(xs: seq<TokenShape>, w: nat)
    requires forall j :: 0 <= j < |xs| ==> xs[j].width == w
    ensures ConcatTokens(xs).Ok? <==> xs != []
    ensures xs != [] ==> ConcatTokens(xs) == Ok(TokenShape(Sum(TokensOf(xs)), w))
    decreases |xs|
  {
    if |xs| == 1 {
      assert TokensOf(xs)[..0] == [];
    } else if |xs| > 1 {
      var init := xs[..|xs| - 1];
      ConcatTokensStacks(init, w);
      assert TokensOf(xs)[..|xs| - 1] == TokensOf(init);
    }
  }

  // ---------------------------------------------------------------------------
  // One HCT block and one cross-modal step
  // ---------------------------------------------------------------------------

  /** What an HCT block leaves behind on (in_chan, d): x at half the time, q, k and v of width inner. */
  function HctQuad(inChan: nat, dim: nat, inner: nat): Quad
  {
    Quad(TokenShape(inChan, dim), TokenShape(inChan, inner), TokenShape(inChan, inner), TokenShape(inChan, inner))
  }

  /**
   * The HCT block of modality k, built for time dimension Half(d), takes an
   * (in_chan, d) tensor with d >= 2 and an odd kernel to (in_chan, Half(d)),
   * projects it to q, k and v of width heads * dim_head, and yields in_chan
   * dense values.
   */
  lemma {:induction false} HctBlockShape(c: TransformerConfig, d: nat, k: nat)
    requires k < |c.mlpDims| && k < |c.kernels| && k < |c.inChans|
    requires c.heads >= 1 && c.dimHead >= 1 && c.kernels[k] % 2 == 1 && d >= 2
    ensures MakeBlock(c, Half(d), k).Ok?
    ensures HctBlock(MakeBlock(c, Half(d), k).value, TokenShape(c.inChans[k], d))
      == Ok((HctQuad(c.inChans[k], Half(d), InnerDim(c.heads, c.dimHead)), c.inChans[k]))
  {
    var inChan := c.inChans[k];
    var pooled := TokenShape(inChan, Half(d));
    AttentionOutputShape(Half(d), c.heads, c.dimHead, true, None, pooled, pooled, pooled);
    DenseBlockHalves(inChan, c.kernels[k], d);
  }

  /**
   * The cross-modal layer of a block built for time dimension `dim`: from a
   * query of width inner over K tokens and one or more other modalities
   * whose keys and values have width inner, it gives back (K, dim).
   */
  lemma {:induction false} CrossForwardShape(c: TransformerConfig, dim: nat, k: nat, x: TokenShape, q: TokenShape, others: seq<Slot>)
    requires k < |c.mlpDims| && k < |c.kernels| && k < |c.inChans|
    requires c.heads >= 1 && c.dimHead >= 1
    requires x == TokenShape(q.tokens, dim) && q.width == InnerDim(c.heads, c.dimHead)
    requires others != []
    requires forall j :: 0 <= j < |others| ==>
      (others[j].Tuple? && others[j].h.k.width == InnerDim(c.heads, c.dimHead) && others[j].h.v == others[j].h.k)
    ensures MakeBlock(c, dim, k).Ok?
    ensures CrossForward(MakeBlock(c, dim, k).value.cross, x, q, others) == Ok(x)
  {
    var inner := InnerDim(c.heads, c.dimHead);
    var quads := Unpack(others).value;
    assert KeysOf(quads) == ValuesOf(quads);
    ConcatTokensStacks(KeysOf(quads), inner);
    var agg := TokenShape(Sum(TokensOf(KeysOf(quads))), inner);
    AttentionOutputShape(inner, c.heads, c.dimHead, false, Some(dim), q, agg, agg);
  }

  /** With no other modality the cross-modal step fails: `torch.cat` of an empty list. */
  lemma {:induction false} CrossForwardAlone(l: CrossLayer, x: TokenShape, q: TokenShape)
    ensures CrossForward(l, x, q, []) == Err(EmptyConcatenation)
  {
    assert KeysOf([]) == [];
  }

  // ---------------------------------------------------------------------------
  // One depth level
  // ---------------------------------------------------------------------------

  /**
   * A configuration whose blocks build and whose levels can pool: at least
   * one modality and one level, every per-modality list covering all
   * modalities (one embedding size per modality), odd fine-grained kernels
   * and time axes long enough to be halved `depth` times.
   */
  predicate Runnable(c: TransformerConfig)
  {
    |c.dims| >= 1 && c.depth >= 1 && c.heads >= 1 && c.dimHead >= 1 &&
    |c.mlpDims| >= |c.dims| && |c.kernels| >= |c.dims| && |c.inChans| >= |c.dims| && |c.embDims| == |c.dims| &&
    forall k :: 0 <= k < |c.dims| ==> c.kernels[k] % 2 == 1 && c.dims[k] >= Pow2(c.depth)
  }

  /** A runnable configuration with at least two modalities, so that every modality has others to attend to. */
  predicate WellFormed(c: TransformerConfig)
  {
    |c.dims| >= 2 && Runnable(c)
  }

  /** The tensors entering level i: modality k is (in_chans[k], dims[k] / 2^i). */
  function LevelInput(c: TransformerConfig, i: nat): (r: seq<TokenShape>)
    requires |c.inChans| >= |c.dims|
    ensures |r| == |c.dims|
  {
    seq(|c.dims|, k requires 0 <= k < |c.dims| => TokenShape(c.inChans[k], ScaledFloor(c.dims[k], i)))
  }

  /** The tuples the HCT blocks of level i leave in `channels_output`. */
  function LevelQuads(c: TransformerConfig, i: nat): (r: seq<Quad>)
    requires |c.inChans| >= |c.dims|
    ensures |r| == |c.dims|
  {
    seq(|c.dims|, k requires 0 <= k < |c.dims| =>
      HctQuad(c.inChans[k], ScaledFloor(c.dims[k], i + 1), InnerDim(c.heads, c.dimHead)))
  }

  /** Before each level the time axis of every modality is at least 2, and halving it gives the next level's. */
  lemma {:induction false} LevelTimes(c: TransformerConfig, i: nat, k: nat)
    requires Runnable(c) && i < c.depth && k < |c.dims|
    ensures ScaledFloor(c.dims[k], i) >= 2
    ensures ScaledFloor(c.dims[k], i + 1) == Half(ScaledFloor(c.dims[k], i))
  {
    LevelInputAtLeastTwo(c.dims[k], c.depth, i);
    HalveTimesIsScaledFloor(c.dims[k], i);
    HalveTimesIsScaledFloor(c.dims[k], i + 1);
  }

  /** The HCT loop from j on, when every block maps its input to a known tuple and dense value. */
  lemma {:induction false} HctFromOf(blocks: seq<Block>, xs: seq<TokenShape>, quads: seq<Quad>, dense: seq<nat>, j: nat)
    requires |xs| == |blocks| && |quads| == |blocks| && |dense| == |blocks| && j <= |blocks|
    requires forall k {:trigger HctBlock(blocks[k], xs[k])} :: 0 <= k < |blocks| ==> HctBlock(blocks[k], xs[k]) == Ok((quads[k], dense[k]))
    ensures HctFrom(blocks, xs, j, (quads[..j], dense[..j])) == Ok((quads, dense))
    decreases |blocks| - j
  {
    if j < |blocks| {
      SnocSlice(quads, j);
      SnocSlice(dense, j);
      HctFromOf(blocks, xs, quads, dense, j + 1);
    } else {
      assert quads[..j] == quads && dense[..j] == dense;
    }
  }

  /** One iteration of the cross loop that succeeds with x appends x. */
  lemma {:induction false} CrossFromStep(blocks: seq<Block>, slots: seq<Slot>, j: nat, s: seq<TokenShape>, x: TokenShape)
    requires j < |blocks| && CrossStep(blocks[j], slots, j) == Ok(x)
    ensures CrossFrom(blocks, slots, j, s) == CrossFrom(blocks, slots, j + 1, s + [x])
  {
  }

  /** The cross loop from j on, when every step yields a known tensor. */
  lemma {:induction false} CrossFromOf(blocks: seq<Block>, slots: seq<Slot>, outs: seq<TokenShape>, j: nat)
    requires |outs| == |blocks| && j <= |blocks|
    requires forall k {:trigger CrossStep(blocks[k], slots, k)} :: 0 <= k < |blocks| ==> CrossStep(blocks[k], slots, k) == Ok(outs[k])
    ensures CrossFrom(blocks, slots, j, outs[..j]) == Ok(outs)
    decreases |blocks| - j
  {
    if j < |blocks| {
      CrossFromStep(blocks, slots, j, outs[..j], outs[j]);
      SnocSlice(outs, j);
      CrossFromOf(blocks, slots, outs, j + 1);
    } else {
      assert outs[..j] == outs;
    }
  }

  /** The HCT block of modality j in level i. */
  lemma {:induction false} HctStepShape(c: TransformerConfig, i: nat, j: nat)
    requires Runnable(c) && i < c.depth && j < |c.dims|
    ensures HctBlock(LevelBlocks(c, i)[j], LevelInput(c, i)[j]) == Ok((LevelQuads(c, i)[j], c.inChans[j]))
  {
    LevelTimes(c, i, j);
    HctBlockShape(c, ScaledFloor(c.dims[j], i), j);
  }

  /**
   * The others in level i are the HCT tuples of every modality but j, in
   * index order: the n-th offers keys and values of width heads * dim_head
   * over as many tokens as the n-th other modality has channels.
   */
  lemma {:induction false} OthersAreTuples(c: TransformerConfig, i: nat, j: nat)
    requires WellFormed(c) && j < |c.dims|
    ensures var others := Others(AfterHct(LevelQuads(c, i), LevelInput(c, i)), j);
      |others| == |c.dims| - 1 && |Others(c.inChans[..|c.dims|], j)| == |c.dims| - 1 && others != []
      && forall n :: 0 <= n < |others| ==>
        (others[n].Tuple? && others[n].h.k.width == InnerDim(c.heads, c.dimHead) && others[n].h.v == others[n].h.k
         && others[n].h.k.tokens == Others(c.inChans[..|c.dims|], j)[n])
  {
    OthersOmitsOne(AfterHct(LevelQuads(c, i), LevelInput(c, i)), j);
    OthersOmitsOne(c.inChans[..|c.dims|], j);
  }

  /** Keys and values of one width, keys equal to values, concatenated: their tokens stack. */
  lemma {:induction false} StackedPool(quads: seq<Quad>, ts: seq<nat>, w: nat)
    requires |quads| == |ts| && quads != []
    requires forall n :: 0 <= n < |quads| ==> quads[n].k == TokenShape(ts[n], w) && quads[n].v == quads[n].k
    ensures ConcatTokens(KeysOf(quads)) == Ok(TokenShape(Sum(ts), w))
    ensures ConcatTokens(ValuesOf(quads)) == Ok(TokenShape(Sum(ts), w))
  {
    ConcatTokensStacks(KeysOf(quads), w);
    ConcatTokensStacks(ValuesOf(quads), w);
    assert TokensOf(KeysOf(quads)) == ts;
    assert TokensOf(ValuesOf(quads)) == ts;
  }

  /**
   * The key and value pools modality j attends over in level i: the keys
   * (and the values) of the other modalities concatenated along the token
   * axis, sum over n != j of in_chans[n] tokens of width heads * dim_head,
   * that is the total channel count less in_chans[j].
   */
  lemma {:induction false} KeyValuePools(c: TransformerConfig, i: nat, j: nat)
    requires WellFormed(c) && j < |c.dims|
    ensures var others := Others(AfterHct(LevelQuads(c, i), LevelInput(c, i)), j);
      Unpack(others).Ok?
      && ConcatTokens(KeysOf(Unpack(others).value))
         == Ok(TokenShape(Sum(Others(c.inChans[..|c.dims|], j)), InnerDim(c.heads, c.dimHead)))
      && ConcatTokens(ValuesOf(Unpack(others).value))
         == Ok(TokenShape(Sum(Others(c.inChans[..|c.dims|], j)), InnerDim(c.heads, c.dimHead)))
    ensures Sum(Others(c.inChans[..|c.dims|], j)) + c.inChans[j] == Sum(c.inChans[..|c.dims|])
  {
    var others := Others(AfterHct(LevelQuads(c, i), LevelInput(c, i)), j);
    var ks := Others(c.inChans[..|c.dims|], j);
    var inner := InnerDim(c.heads, c.dimHead);
    OthersAreTuples(c, i, j);
    var quads := Unpack(others).value;
    forall n | 0 <= n < |quads|
      ensures quads[n].k == TokenShape(ks[n], inner) && quads[n].v == quads[n].k
    {
      assert others[n] == Tuple(quads[n]);
    }
    StackedPool(quads, ks, inner);
    OthersSum(c.inChans[..|c.dims|], j);
  }

  /** The cross step of modality j in level i gives its next-level tensor. */
  lemma {:induction false} CrossStepShape(c: TransformerConfig, i: nat, j: nat)
    requires WellFormed(c) && i < c.depth && j < |c.dims|
    ensures CrossStep(LevelBlocks(c, i)[j], AfterHct(LevelQuads(c, i), LevelInput(c, i)), j) == Ok(LevelInput(c, i + 1)[j])
  {
    var slots := AfterHct(LevelQuads(c, i), LevelInput(c, i));
    var h := LevelQuads(c, i)[j];
    assert slots[j] == Tuple(h);
    OthersAreTuples(c, i, j);
    CrossForwardShape(c, ScaledFloor(c.dims[j], i + 1), j, h.x, h.q, Others(slots, j));
  }

  /**
   * One depth level maps (in_chans[k], T_k / 2^i) to (in_chans[k], T_k / 2^(i+1))
   * for every modality k, and records in_chans[k] dense values per modality.
   */
  lemma {:induction false} LevelForwardShape(c: TransformerConfig, i: nat)
    requires WellFormed(c) && i < c.depth
    ensures LevelForward(LevelBlocks(c, i), LevelInput(c, i)) == Ok((LevelInput(c, i + 1), c.inChans[..|c.dims|]))
  {
    var blocks, xs := LevelBlocks(c, i), LevelInput(c, i);
    var quads, dense, next := LevelQuads(c, i), c.inChans[..|c.dims|], LevelInput(c, i + 1);
    forall k | 0 <= k < |blocks|
      ensures HctBlock(blocks[k], xs[k]) == Ok((quads[k], dense[k]))
      ensures CrossStep(blocks[k], AfterHct(quads, xs), k) == Ok(next[k])
    {
      HctStepShape(c, i, k);
      CrossStepShape(c, i, k);
    }
    HctFromOf(blocks, xs, quads, dense, 0);
    CrossFromOf(blocks, AfterHct(quads, xs), next, 0);
    assert quads[..0] == [] && dense[..0] == [] && next[..0] == [];
  }

  /** With a single modality, the cross step of a level has no others to concatenate. */
  lemma {:induction false} LevelForwardAlone(c: TransformerConfig, i: nat)
    requires Runnable(c) && |c.dims| == 1 && i < c.depth
    ensures LevelForward(LevelBlocks(c, i), LevelInput(c, i)) == Err(EmptyConcatenation)
  {
    var blocks, xs, quads := LevelBlocks(c, i), LevelInput(c, i), LevelQuads(c, i);
    HctStepShape(c, i, 0);
    HctFromOf(blocks, xs, quads, c.inChans[..1], 0);
    assert quads[..0] == [] && c.inChans[..0] == [];
    var slots := AfterHct(quads, xs);
    assert slots[0] == Tuple(quads[0]);
    OthersOmitsOne(slots, 0);
    CrossForwardAlone(blocks[0].cross, quads[0].x, quads[0].q);
    assert CrossStep(blocks[0], slots, 0) == Err(EmptyConcatenation);
  }

  // ---------------------------------------------------------------------------
  // All levels and the embeddings
  // ---------------------------------------------------------------------------

  /** A runnable configuration builds its Transformer, whose level i holds the blocks of level i. */
  lemma {:induction false} TransformerBuilds(c: TransformerConfig)
    requires Runnable(c)
    ensures TransformerOf(c).Ok?
    ensures |TransformerOf(c).value.layers| == c.depth
    ensures forall i :: 0 <= i < c.depth ==> TransformerOf(c).value.layers[i] == LevelBlocks(c, i)
    ensures TransformerOf(c).value.compression == CompressionOf(c)
    ensures TransformerOf(c).value.outputFfwd == FeedForward(Sum(c.embDims), Sum(c.embDims), c.outDim)
  {
  }

  /** One level that succeeds advances the level loop by one. */
  lemma {:induction false} LevelsFromStep(layers: seq<seq<Block>>, j: nat, s: LevelState, step: (seq<TokenShape>, seq<nat>))
    requires j < |layers| && LevelForward(layers[j], s.0) == Ok(step)
    ensures LevelsFrom(layers, j, s) == LevelsFrom(layers, j + 1, (step.0, s.1 + [step.1]))
  {
  }

  /**
   * The level loop from j on, when level k takes inputs[k] to inputs[k + 1]
   * and records d: m = |layers| - j more copies of d.
   */
  lemma {:induction false} LevelsFromOf(layers: seq<seq<Block>>, inputs: seq<seq<TokenShape>>, d: seq<nat>, j: nat, m: nat, acc: seq<seq<nat>>)
    requires |inputs| == |layers| + 1 && j + m == |layers|
    requires forall k {:trigger LevelForward(layers[k], inputs[k])} :: 0 <= k < |layers| ==>
      LevelForward(layers[k], inputs[k]) == Ok((inputs[k + 1], d))
    ensures LevelsFrom(layers, j, (inputs[j], acc)) == Ok((inputs[|layers|], acc + Repeat(d, m)))
    decreases m
  {
    if m > 0 {
      LevelsFromOf(layers, inputs, d, j + 1, m - 1, acc + [d]);
      LevelsStepOf(layers, j, inputs[j], inputs[j + 1], inputs[|layers|], d, acc, m);
    } else {
      EmptySuffix(acc);
    }
  }

  /**
   * One level that takes x to y and records d, in front of the later levels
   * that take y to z and record m - 1 more copies of d.
   */
  lemma {:induction false} LevelsStepOf(layers: seq<seq<Block>>, j: nat, x: seq<TokenShape>, y: seq<TokenShape>, z: seq<TokenShape>,
                                        d: seq<nat>, acc: seq<seq<nat>>, m: nat)
    requires j < |layers| && m >= 1 && LevelForward(layers[j], x) == Ok((y, d))
    requires LevelsFrom(layers, j + 1, (y, acc + [d])) == Ok((z, (acc + [d]) + Repeat(d, m - 1)))
    ensures LevelsFrom(layers, j, (x, acc)) == Ok((z, acc + Repeat(d, m)))
  {
    LevelsFromStep(layers, j, (x, acc), (y, d));
    RepeatPrepend(d, m - 1);
    AppendAssoc(acc, [d], Repeat(d, m - 1));
  }

  /** The depth levels take the input tensors to the final ones, each level adding in_chans to `dense_feature`. */
  lemma {:induction false} AllLevelsShape(c: TransformerConfig)
    requires WellFormed(c)
    ensures TransformerOf(c).Ok?
    ensures LevelsFrom(TransformerOf(c).value.layers, 0, (LevelInput(c, 0), []))
      == Ok((LevelInput(c, c.depth), Repeat(c.inChans[..|c.dims|], c.depth)))
  {
    TransformerBuilds(c);
    var layers, d := TransformerOf(c).value.layers, c.inChans[..|c.dims|];
    var inputs := seq(c.depth + 1, k requires 0 <= k <= c.depth => LevelInput(c, k));
    forall k | 0 <= k < |layers|
      ensures LevelForward(layers[k], inputs[k]) == Ok((inputs[k + 1], d))
    {
      LevelForwardShape(c, k);
    }
    LevelsFromOf(layers, inputs, d, 0, c.depth, []);
    EmptyPrefix(Repeat(d, c.depth));
  }

  /** Modality i's feature of every level, when every level recorded the same list d. */
  lemma {:induction false} LevelFeaturesRepeat(d: seq<nat>, n: nat, i: nat)
    requires i < |d|
    ensures LevelFeatures(Repeat(d, n), i) == Ok(Repeat(d[i], n))
  {
    var r := LevelFeatures(Repeat(d, n), i);
    assert r.Ok?;
    assert r.value == Repeat(d[i], n);
  }

  /** Embedding i succeeds when compressor i takes the flattened tensor plus the level features. */
  lemma {:induction false} EmbeddingOf(t: Transformer, out: TokenShape, dense: seq<seq<nat>>, i: nat, feats: seq<nat>)
    requires LevelFeatures(dense, i) == Ok(feats) && feats != [] && i < |t.compression|
    requires t.compression[i].dim == Flatten(out) + Sum(feats)
    ensures Embedding(t, out, dense, i) == Ok(t.compression[i].out)
  {
    FeedForwardShape(t.compression[i], TokenShape(1, Flatten(out) + Sum(feats)));
  }

  /** in_chan rows of T / 2^n steps flattened, plus n level features of in_chan each, is the closed-form size. */
  lemma {:induction false} OutputSizeSplit(chan: nat, d: nat, n: nat)
    ensures Flatten(TokenShape(chan, ScaledFloor(d, n))) + Sum(Repeat(chan, n)) == OutputSize(d, n, chan)
  {
    SumConstant(chan, n);
    assert Flatten(TokenShape(chan, ScaledFloor(d, n))) == ScaledFloor(d, n) * chan;
  }

  /**
   * The embedding of modality i is exactly emb_dims[i] wide: the final tensor
   * flattened plus the level features is what get_modality_output_sizes
   * computed for compressor i.
   */
  lemma {:induction false} EmbeddingShape(c: TransformerConfig, i: nat)
    requires Runnable(c) && i < |c.dims|
    ensures TransformerOf(c).Ok?
    ensures Embedding(TransformerOf(c).value, LevelInput(c, c.depth)[i], Repeat(c.inChans[..|c.dims|], c.depth), i) == Ok(c.embDims[i])
  {
    TransformerBuilds(c);
    var t := TransformerOf(c).value;
    var n, d, chan := c.depth, c.dims[i], c.inChans[i];
    LevelFeaturesRepeat(c.inChans[..|c.dims|], n, i);
    OutputSizeSplit(chan, d, n);
    assert t.compression[i] == FeedForward(OutputSize(d, n, chan), c.embDims[i], c.embDims[i]);
    EmbeddingOf(t, LevelInput(c, n)[i], Repeat(c.inChans[..|c.dims|], n), i, Repeat(chan, n));
  }

  /** One embedding that succeeds advances the embedding loop by one. */
  lemma {:induction false} EmbeddingsFromStep(t: Transformer, outs: seq<TokenShape>, dense: seq<seq<nat>>, j: nat, s: seq<nat>, e: nat)
    requires j < |outs| && Embedding(t, outs[j], dense, j) == Ok(e)
    ensures EmbeddingsFrom(t, outs, dense, j, s) == EmbeddingsFrom(t, outs, dense, j + 1, s + [e])
  {
  }

  /** The embedding loop from modality j on yields emb_dims. */
  lemma {:induction false} EmbeddingsShape(c: TransformerConfig, j: nat)
    requires Runnable(c) && j <= |c.dims|
    ensures TransformerOf(c).Ok?
    ensures EmbeddingsFrom(TransformerOf(c).value, LevelInput(c, c.depth), Repeat(c.inChans[..|c.dims|], c.depth), j, c.embDims[..j])
      == Ok(c.embDims)
    decreases |c.dims| - j
  {
    TransformerBuilds(c);
    if j < |c.dims| {
      EmbeddingShape(c, j);
      EmbeddingsFromStep(TransformerOf(c).value, LevelInput(c, c.depth), Repeat(c.inChans[..|c.dims|], c.depth), j, c.embDims[..j], c.embDims[j]);
      SnocSlice(c.embDims, j);
      EmbeddingsShape(c, j + 1);
    } else {
      assert c.embDims[..j] == c.embDims;
    }
  }

  // ---------------------------------------------------------------------------
  // End to end
  // ---------------------------------------------------------------------------

  /**
   * The forward pass of a well-formed Transformer on tensors of shape
   * (in_chans[k], dims[k]) succeeds and produces an out_dim-wide embedding.
   */
  lemma {:induction false} TransformerForwardWidth(c: TransformerConfig)
    requires WellFormed(c)
    ensures TransformerOf(c).Ok?
    ensures TransformerForward(TransformerOf(c).value, LevelInput(c, 0)) == Ok(c.outDim)
  {
    TransformerBuilds(c);
    var t := TransformerOf(c).value;
    AllLevelsShape(c);
    EmbeddingsShape(c, 0);
    assert c.embDims[..0] == [];
    assert ConcatWidths(c.embDims) == Ok(Sum(c.embDims));
    FeedForwardShape(t.outputFfwd, TokenShape(1, Sum(c.embDims)));
  }

  /** With a single modality the forward pass fails at the first cross step. */
  lemma {:induction false} SingleModalityFails(c: TransformerConfig)
    requires Runnable(c) && |c.dims| == 1
    ensures TransformerOf(c).Ok?
    ensures TransformerForward(TransformerOf(c).value, LevelInput(c, 0)) == Err(EmptyConcatenation)
  {
    TransformerBuilds(c);
    LevelForwardAlone(c, 0);
  }

  // ---------------------------------------------------------------------------
  // MultiChannelDeformer end to end
  // ---------------------------------------------------------------------------

  /** A MultiChannelDeformer configuration whose Transformer is well formed, with at least one channel per modality. */
  predicate DeformerWellFormed(c: DeformerConfig)
  {
    WellFormed(TransformerConfigOf(c)) && |c.numChan| >= |c.numTime| &&
    forall k :: 0 <= k < |c.numTime| ==> c.numChan[k] >= 1
  }

  /** The front end of modality k keeps its time axis and yields num_kernel[k] rows. */
  lemma {:induction false} EncodeChannelShape(c: DeformerConfig, k: nat)
    requires DeformerWellFormed(c) && k < |c.numTime|
    ensures DeformerOf(c).Ok?
    ensures EncodeChannel(DeformerOf(c).value, ChannelInputs(c.numChan, c.numTime)[k], k) == Ok(LevelInput(TransformerConfigOf(c), 0)[k])
  {
    var tc := TransformerConfigOf(c);
    TransformerBuilds(tc);
    var m := DeformerOf(c).value;
    assert m.encoders[k] == EncoderBlock(c.numKernel[k], c.temporalKernel[k], c.numChan[k]);
    assert m.posEmbeddings[k] == TokenShape(c.numKernel[k], c.numTime[k]);
    EncoderKeepsTime(c.numKernel[k], c.temporalKernel[k], c.numChan[k], c.numTime[k]);
    assert ScaledFloor(c.numTime[k], 0) == c.numTime[k];
  }

  /** One front end that succeeds advances the front-end loop by one. */
  lemma {:induction false} EncodeFromStep(m: Deformer, xs: seq<TokenShape>, j: nat, s: seq<TokenShape>, y: TokenShape)
    requires j < |xs| && EncodeChannel(m, xs[j], j) == Ok(y)
    ensures EncodeFrom(m, xs, j, s) == EncodeFrom(m, xs, j + 1, s + [y])
  {
  }

  /** The front-end loop from channel j on, when every front end yields a known tensor. */
  lemma {:induction false} EncodeFromOf(m: Deformer, xs: seq<TokenShape>, outs: seq<TokenShape>, j: nat)
    requires |outs| == |xs| && j <= |xs|
    requires forall k {:trigger EncodeChannel(m, xs[k], k)} :: 0 <= k < |xs| ==> EncodeChannel(m, xs[k], k) == Ok(outs[k])
    ensures EncodeFrom(m, xs, j, outs[..j]) == Ok(outs)
    decreases |xs| - j
  {
    if j < |xs| {
      EncodeFromStep(m, xs, j, outs[..j], outs[j]);
      SnocSlice(outs, j);
      EncodeFromOf(m, xs, outs, j + 1);
    } else {
      assert outs[..j] == outs;
    }
  }

  /** The front-end loop from channel j on yields the tensors entering the first level. */
  lemma {:induction false} EncodeAllShape(c: DeformerConfig, j: nat)
    requires DeformerWellFormed(c) && j <= |c.numTime|
    ensures DeformerOf(c).Ok?
    ensures EncodeFrom(DeformerOf(c).value, ChannelInputs(c.numChan, c.numTime), j, LevelInput(TransformerConfigOf(c), 0)[..j])
      == Ok(LevelInput(TransformerConfigOf(c), 0))
  {
    TransformerBuilds(TransformerConfigOf(c));
    var m, xs := DeformerOf(c).value, ChannelInputs(c.numChan, c.numTime);
    var outs := LevelInput(TransformerConfigOf(c), 0);
    forall k | 0 <= k < |xs|
      ensures EncodeChannel(m, xs[k], k) == Ok(outs[k])
    {
      EncodeChannelShape(c, k);
    }
    EncodeFromOf(m, xs, outs, j);
  }

  /**
   * A well-formed MultiChannelDeformer takes channels of shape
   * (num_chan[k], num_time[k]) to an out_dim-wide embedding.
   */
  lemma {:induction false} DeformerForwardWidth(c: DeformerConfig)
    requires DeformerWellFormed(c)
    ensures DeformerOf(c).Ok?
    ensures DeformerForward(DeformerOf(c).value, ChannelInputs(c.numChan, c.numTime)) == Ok(c.outDim)
  {
    EncodeAllShape(c, 0);
    TransformerForwardWidth(TransformerConfigOf(c));
  }

  /** The configuration of the module's demonstration: EEG, PPG, EDA and respiration into two classes. */
  function DemoConfig(): DeformerConfig
  {
    DeformerConfig([4 * 128, 6 * 128, 4 * 64, 10 * 32], [16, 1, 1, 1], [16, 16, 16, 16], [64, 4, 4, 4],
                   [13, 13, 13, 13], [256, 16, 16, 16], 4, 16, 16, 2)
  }

  lemma {:induction false} DemoWellFormed()
    ensures DeformerWellFormed(DemoConfig())
  {
    assert Pow2(4) == 16 by {
      assert Pow2(1) == 2 && Pow2(2) == 4 && Pow2(3) == 8;
    }
  }

  lemma {:induction false} DemoSizes()
    ensures ModalityOutputSizes(DemoConfig().numTime, 4, DemoConfig().numKernel) == [2304, 208, 80, 96]
  {
    assert Pow2(4) == 16 by {
      assert Pow2(1) == 2 && Pow2(2) == 4 && Pow2(3) == 8;
    }
    var c := DemoConfig();
    assert ModalityOutputSizes(c.numTime, 4, c.numKernel) == [2304, 208, 80, 96];
  }

  /**
   * The demonstration configuration is well formed, its compressors take
   * 2304, 208, 80 and 96 features, and its forward pass yields two logits.
   */
  lemma {:induction false} DemoForward()
    ensures DeformerWellFormed(DemoConfig())
    ensures ModalityOutputSizes(DemoConfig().numTime, 4, DemoConfig().numKernel) == [2304, 208, 80, 96]
    ensures DeformerOf(DemoConfig()).Ok?
    ensures DeformerForward(DeformerOf(DemoConfig()).value, ChannelInputs(DemoConfig().numChan, DemoConfig().numTime)) == Ok(2)
  {
    DemoWellFormed();
    DemoSizes();
    DeformerForwardWidth(DemoConfig());
  }
}
