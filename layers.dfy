/**
 * Shape-level model of the torch layers the encoders are built from.
 *
 * A tensor of shape (batch, tokens, width) is represented by its
 * `TokenShape`; the batch axis is the same everywhere and is dropped. Each
 * `Apply...` function gives the shape a layer produces, or the error torch
 * (or Python) raises when the input does not fit the layer.
 */
module Layers {
  import opened Halving

  /** The errors the encoders can raise, by the Python exception they stand for. */
  datatype Error =
    | IndexOutOfRange     // IndexError: a per-modality list is too short
    | ShapeMismatch       // a layer applied to a tensor of the wrong size
    | EmptyConcatenation  // torch.cat of an empty list
    | InputTooShort       // a pooling or convolution window longer than its input
    | BadHeadSplit        // rearrange 'b n (h d)' with a width that h does not divide
    | ZeroDivision        // dim_head ** -0.5 with dim_head == 0
    | NotUnpackable       // unpacking a value that is not a tuple of the right arity
    | TypeMismatch        // a tuple where a tensor is expected
    | NotIterable         // TypeError: extending a list with a non-iterable value
    | KeyMissing          // KeyError on a namespace's attribute dictionary

  datatype Option<T> = None | Some(value: T)

  datatype Result<T> = Ok(value: T) | Err(error: Error) {
    predicate IsFailure() { Err? }
    function PropagateFailure<U>(): Result<U>
      requires Err?
    {
      Err(error)
    }
    function Extract(): T
      requires Ok?
    {
      value
    }
  }

  /** The shape of a (batch, tokens, width) tensor, without the batch axis. */
  datatype TokenShape = TokenShape(tokens: nat, width: nat)

  /** The raw inputs of a multi-modal model: modality k is (num_chan[k], num_time[k]). */
  function ChannelInputs(numChan: seq<nat>, numTime: seq<nat>): (r: seq<TokenShape>)
    requires |numChan| >= |numTime|
    ensures |r| == |numTime|
    ensures forall k :: 0 <= k < |numTime| ==> r[k] == TokenShape(numChan[k], numTime[k])
  {
    seq(|numTime|, k requires 0 <= k < |numTime| => TokenShape(numChan[k], numTime[k]))
  }

  /** The width of x flattened to (batch, tokens * width), as `view(b, -1)` and `(c f)` rearranges do. */
  function Flatten(x: TokenShape): nat
  {
    x.tokens * x.width
  }

  /** `inner_dim = dim_head * heads`: the width of `heads` heads of width `dim_head` side by side. */
  function InnerDim(heads: nat, dimHead: nat): nat
  {
    dimHead * heads
  }

  /** nn.Linear(inFeatures, outFeatures); the bias does not change shapes. */
  datatype Linear = Linear(inFeatures: nat, outFeatures: nat)

  function ApplyLinear(l: Linear, x: TokenShape): Result<TokenShape>
  {
    if x.width == l.inFeatures then Ok(TokenShape(x.tokens, l.outFeatures)) else Err(ShapeMismatch)
  }

  /**
   * FeedForward(dim, hidden_dim, out_dim): LayerNorm(dim), Linear(dim, hidden),
   * GELU, Dropout, Linear(hidden, out), Dropout or Identity.
   */
  datatype FeedForward = FeedForward(dim: nat, hidden: nat, out: nat)

  function ApplyFeedForward(f: FeedForward, x: TokenShape): Result<TokenShape>
  {
    if x.width != f.dim then Err(ShapeMismatch)
    else
      var h :- ApplyLinear(Linear(f.dim, f.hidden), x);
      ApplyLinear(Linear(f.hidden, f.out), h)
  }

  /** A FeedForward applied to a flat (batch, width) vector. */
  function FeedForwardVector(f: FeedForward, width: nat): Result<nat>
  {
    var y :- ApplyFeedForward(f, TokenShape(1, width));
    Ok(y.width)
  }

  /** A FeedForward takes exactly its `dim` and gives its `out`. */
  lemma {:induction false} FeedForwardShape(f: FeedForward, x: TokenShape)
    ensures ApplyFeedForward(f, x).Ok? <==> x.width == f.dim
    ensures ApplyFeedForward(f, x).Ok? ==> ApplyFeedForward(f, x).value == TokenShape(x.tokens, f.out)
    ensures FeedForwardVector(f, x.width).Ok? <==> x.width == f.dim
    ensures FeedForwardVector(f, x.width).Ok? ==> FeedForwardVector(f, x.width).value == f.out
  {
  }

  /** Broadcasting of one axis of an elementwise operation. */
  function BroadcastAxis(a: nat, b: nat): Result<nat>
  {
    if a == b then Ok(a) else if a == 1 then Ok(b) else if b == 1 then Ok(a) else Err(ShapeMismatch)
  }

  /** x + y, with torch broadcasting. */
  function Add(x: TokenShape, y: TokenShape): Result<TokenShape>
  {
    var t :- BroadcastAxis(x.tokens, y.tokens);
    var w :- BroadcastAxis(x.width, y.width);
    Ok(TokenShape(t, w))
  }

  /** x += y: in place, so the broadcast result must keep the shape of x. */
  function AddInPlace(x: TokenShape, y: TokenShape): Result<TokenShape>
  {
    var s :- Add(x, y);
    if s == x then Ok(x) else Err(ShapeMismatch)
  }

  /** MaxPool1d(kernel_size=2, stride=2) over the time (last) axis. */
  function MaxPool(x: TokenShape): Result<TokenShape>
  {
    if x.width >= 2 then Ok(TokenShape(x.tokens, Half(x.width))) else Err(InputTooShort)
  }

  /** torch.cat along the token axis (dim=-2): widths must agree. */
  function ConcatTokens(xs: seq<TokenShape>): Result<TokenShape>
  {
    if xs == [] then Err(EmptyConcatenation)
    else if |xs| == 1 then Ok(xs[0])
    else
      var init :- ConcatTokens(xs[..|xs| - 1]);
      var last := xs[|xs| - 1];
      if last.width == init.width then Ok(TokenShape(init.tokens + last.tokens, init.width))
      else Err(ShapeMismatch)
  }

  /** torch.cat of flat vectors along the last axis: the widths add up. */
  function ConcatWidths(ws: seq<nat>): Result<nat>
  {
    if ws == [] then Err(EmptyConcatenation) else Ok(Sum(ws))
  }

  /** `int(0.5 * x)`: halving with truncation toward zero, as Python's int() does. */
  function TruncHalf(x: int): int
  {
    if x >= 0 then x / 2 else -((-x) / 2)
  }

  /** `get_padding_1D(kernel)`: `int(0.5 * (kernel - 1))`. */
  function Padding1D(kernel: int): int
  {
    TruncHalf(kernel - 1)
  }

  /** `get_padding(kernel)`: no padding on the channel axis, `Padding1D` on the time axis. */
  function Padding2D(kernel: int): (int, int)
  {
    (0, Padding1D(kernel))
  }

  /**
   * The padding is floor((k-1)/2): never negative for a non-negative kernel
   * (a kernel of 0 gives 0, not -1), and the largest p with 2p <= k - 1.
   */
  lemma {:induction false} PaddingIsFloorHalf(kernel: nat)
    ensures Padding1D(kernel) >= 0
    ensures Padding2D(kernel).0 == 0 && Padding2D(kernel).1 == Padding1D(kernel)
    ensures kernel >= 1 ==> 2 * Padding1D(kernel) <= kernel - 1 < 2 * Padding1D(kernel) + 2
    ensures kernel == 0 ==> Padding1D(kernel) == 0
  {
  }

  /**
   * Length after a stride-1 convolution with the given zero padding; torch
   * rejects a kernel longer than the padded input.
   */
  function ConvLength(len: nat, kernel: nat, padding: int): Result<nat>
  {
    if kernel >= 1 && padding >= 0 && len + 2 * padding >= kernel then Ok(len + 2 * padding - kernel + 1)
    else Err(InputTooShort)
  }

  /**
   * With the padding rule an odd kernel keeps the time length and an even one
   * shortens it by one (and so rejects an input of length one).
   */
  lemma {:induction false} SamePadding(len: nat, kernel: nat)
    requires len >= 1 && kernel >= 1
    ensures kernel % 2 == 1 ==> ConvLength(len, kernel, Padding1D(kernel)) == Ok(len)
    ensures kernel % 2 == 0 && len >= 2 ==> ConvLength(len, kernel, Padding1D(kernel)) == Ok(len - 1)
    ensures kernel % 2 == 0 && len == 1 ==> ConvLength(len, kernel, Padding1D(kernel)) == Err(InputTooShort)
  {
  }

  /**
   * The fine-grained `cnn_block(in_chan, kernel_size, dp)` of a Transformer:
   * Dropout, Conv1d(in_chan, in_chan, kernel, padding), BatchNorm1d, ELU,
   * MaxPool1d(2, 2).
   */
  datatype DenseBlock = DenseBlock(chan: nat, kernel: nat, padding: int)

  function MakeDenseBlock(inChan: nat, kernel: nat): DenseBlock
  {
    DenseBlock(inChan, kernel, Padding1D(kernel))
  }

  function ApplyDenseBlock(b: DenseBlock, x: TokenShape): Result<TokenShape>
  {
    if x.tokens != b.chan then Err(ShapeMismatch)
    else
      var len :- ConvLength(x.width, b.kernel, b.padding);
      MaxPool(TokenShape(b.chan, len))
  }

  /**
   * With an odd kernel the fine-grained branch halves the time axis exactly
   * as the coarse branch's pooling does, so the two can be added.
   */
  lemma {:induction false} DenseBlockHalves(inChan: nat, kernel: nat, d: nat)
    requires kernel % 2 == 1 && d >= 2
    ensures ApplyDenseBlock(MakeDenseBlock(inChan, kernel), TokenShape(inChan, d)) == Ok(TokenShape(inChan, Half(d)))
    ensures MaxPool(TokenShape(inChan, d)) == Ok(TokenShape(inChan, Half(d)))
  {
    SamePadding(d, kernel);
  }

  /**
   * The front-end `cnn_block(out_chan, kernel_size=(1, k), num_chan)` of a
   * deformer: a (1, k) temporal Conv2dWithConstraint from 1 to out_chan maps,
   * an optional (rows, 1) spatial Conv2dWithConstraint, BatchNorm2d, ELU and,
   * in the unfinished variant, a (1, 2) max-pool.
   */
  datatype Encoder = Encoder(outChan: nat, kernel: nat, padding: (int, int), spatialRows: Option<nat>, pooled: bool)

  /** The spatial convolution is there only for a multi-channel modality. */
  function EncoderBlock(outChan: nat, kernel: nat, numChan: nat): (e: Encoder)
    ensures e.spatialRows.Some? <==> numChan > 1
    ensures e.spatialRows.Some? ==> e.spatialRows.value == numChan
    ensures e.padding == Padding2D(kernel) && !e.pooled
  {
    Encoder(outChan, kernel, Padding2D(kernel), if numChan > 1 then Some(numChan) else None, false)
  }

  /**
   * The encoder on a (batch, chans, time) input, unsqueezed to
   * (batch, 1, chans, time), followed by `Rearrange('b k c f -> b k (c f)')`.
   */
  function ApplyEncoder(e: Encoder, chans: nat, time: nat): Result<TokenShape>
  {
    if chans == 0 then Err(InputTooShort)
    else
      var len :- ConvLength(time, e.kernel, e.padding.1);
      var rows :- match e.spatialRows {
        case None => Ok(chans)
        case Some(r) => if r >= 1 && chans >= r then Ok(chans - r + 1) else Err(InputTooShort)
      };
      var len' :- if !e.pooled then Ok(len) else if len >= 2 then Ok(Half(len)) else Err(InputTooShort);
      Ok(TokenShape(e.outChan, Flatten(TokenShape(rows, len'))))
  }

  /**
   * On an input with the configured channel count the encoder yields one
   * token per kernel over the whole (odd-kernel) time axis: the spatial
   * convolution collapses several channels to one, and a single channel
   * needs no collapsing.
   */
  lemma {:induction false} EncoderKeepsTime(outChan: nat, kernel: nat, numChan: nat, time: nat)
    requires numChan >= 1 && time >= 1 && kernel % 2 == 1
    ensures ApplyEncoder(EncoderBlock(outChan, kernel, numChan), numChan, time) == Ok(TokenShape(outChan, time))
  {
    SamePadding(time, kernel);
    var e := EncoderBlock(outChan, kernel, numChan);
    assert e.padding.1 == Padding1D(kernel);
    assert ConvLength(time, e.kernel, e.padding.1) == Ok(time);
  }

  /** The projection after attention: nn.Identity or Linear(inner, out). */
  datatype OutProjection = Identity | Projection(layer: Linear)

  function ApplyProjection(p: OutProjection, x: TokenShape): Result<TokenShape>
  {
    match p
    case Identity => Ok(x)
    case Projection(l) => ApplyLinear(l, x)
  }

  /** rearrange 'b n (h d) -> b h n d' with h = heads: the per-head width d. */
  function SplitHeads(heads: nat, x: TokenShape): Result<nat>
  {
    if heads >= 1 && x.width % heads == 0 then Ok(x.width / heads) else Err(BadHeadSplit)
  }

  /**
   * `Attention(q_dim, heads, dim_head, dropout, create_heads, out_dim)` of the
   * cross-modal encoder: separate q, k and v projections from q_dim to
   * heads * dim_head when `createHeads`, and an output projection.
   */
  datatype Attention = Attention(qDim: nat, heads: nat, dimHead: nat, createHeads: bool, toOut: OutProjection)

  function MakeAttention(qDim: nat, heads: nat, dimHead: nat, createHeads: bool, outDim: Option<nat>): Result<Attention>
  {
    if dimHead == 0 then Err(ZeroDivision)
    else
      var inner := InnerDim(heads, dimHead);
      var projectOut := !(heads == 1 && dimHead == qDim);
      var toOut :=
        if outDim.Some? then Projection(Linear(inner, outDim.value))
        else if projectOut then Projection(Linear(inner, qDim))
        else Identity;
      Ok(Attention(qDim, heads, dimHead, createHeads, toOut))
  }

  function ApplyAttention(a: Attention, q: TokenShape, k: TokenShape, v: TokenShape): Result<TokenShape>
  {
    var inner := InnerDim(a.heads, a.dimHead);
    var q' :- if a.createHeads then ApplyLinear(Linear(a.qDim, inner), q) else Ok(q);
    var k' :- if a.createHeads then ApplyLinear(Linear(a.qDim, inner), k) else Ok(k);
    var v' :- if a.createHeads then ApplyLinear(Linear(a.qDim, inner), v) else Ok(v);
    var dq :- SplitHeads(a.heads, q');
    var dk :- SplitHeads(a.heads, k');
    var dv :- SplitHeads(a.heads, v');
    if dq != dk || k'.tokens != v'.tokens then Err(ShapeMismatch)
    else ApplyProjection(a.toOut, TokenShape(q'.tokens, InnerDim(a.heads, dv)))
  }

  /**
   * The projection rule: with `out_dim` given there is always a projection;
   * otherwise it is left out exactly when heads == 1 and dim_head == q_dim.
   * `dim_head == 0` fails when the scale dim_head ** -0.5 is computed.
   */
  lemma {:induction false} AttentionProjectionRule(qDim: nat, heads: nat, dimHead: nat, createHeads: bool, outDim: Option<nat>)
    ensures MakeAttention(qDim, heads, dimHead, createHeads, outDim).Ok? <==> dimHead >= 1
    ensures MakeAttention(qDim, heads, dimHead, createHeads, outDim).Ok? ==>
      (MakeAttention(qDim, heads, dimHead, createHeads, outDim).value.toOut.Identity? <==>
       (outDim.None? && heads == 1 && dimHead == qDim))
  {
  }

  /**
   * Whatever the projection, attention gives back one token per query and
   * the width `out_dim` (or `q_dim` when none is given): the identity case
   * occurs only when heads * dim_head already equals q_dim.
   */
  lemma {:induction false} AttentionOutputShape(qDim: nat, heads: nat, dimHead: nat, createHeads: bool, outDim: Option<nat>,
                             q: TokenShape, k: TokenShape, v: TokenShape)
    requires heads >= 1 && dimHead >= 1
    requires var w := if createHeads then qDim else InnerDim(heads, dimHead);
      q.width == w && k.width == w && v.width == w
    requires k.tokens == v.tokens
    ensures MakeAttention(qDim, heads, dimHead, createHeads, outDim).Ok?
    ensures ApplyAttention(MakeAttention(qDim, heads, dimHead, createHeads, outDim).value, q, k, v)
      == Ok(TokenShape(q.tokens, if outDim.Some? then outDim.value else qDim))
  {
    HeadWidth(heads, dimHead);
  }

  /** Splitting an axis of length n into pieces of `size` (the last may be shorter). */
  function SplitBy(n: nat, size: nat): seq<nat>
    requires size >= 1
    decreases n
  {
    if n <= size then [n] else [size] + SplitBy(n - size, size)
  }

  /** `torch.chunk(parts)` on an axis of length n: pieces of ceil(n / parts). */
  function Chunks(n: nat, parts: nat): seq<nat>
    requires parts >= 1
  {
    if n == 0 then Repeat(0, parts) else SplitBy(n, (n + parts - 1) / parts)
  }

  lemma {:induction false} SplitBySum(n: nat, size: nat)
    requires size >= 1
    ensures Sum(SplitBy(n, size)) == n
    decreases n
  {
    if n > size {
      SplitBySum(n - size, size);
      var rest := SplitBy(n - size, size);
      assert [size] + rest == [size] + rest;
      SumPrepend(size, rest);
    }
  }

  lemma {:induction false} SumPrepend(x: nat, s: seq<nat>)
    ensures Sum([x] + s) == x + Sum(s)
  {
    SumAppend([x], s);
    assert Sum([x]) == Sum([]) + x;
  }

  lemma {:induction false} SplitByMultiple(m: nat, p: nat)
    requires m >= 1 && p >= 1
    ensures SplitBy(m * p, m) == Repeat(m, p)
    decreases p
  {
    if p > 1 {
      assert m * p == m + m * (p - 1);
      SplitByMultiple(m, p - 1);
      assert Repeat(m, p) == [m] + Repeat(m, p - 1);
    }
  }

  /** `torch.chunk` partitions the axis: the chunks add up to its length. */
  lemma {:induction false} ChunksPartition(n: nat, parts: nat)
    requires parts >= 1
    ensures Sum(Chunks(n, parts)) == n
  {
    if n == 0 {
      SumConstant(0, parts);
    } else {
      SplitBySum(n, (n + parts - 1) / parts);
    }
  }

  /** An axis of parts * m (m >= 1) splits into `parts` equal chunks of width m. */
  lemma {:induction false} ChunksEqual(m: nat, parts: nat)
    requires m >= 1 && parts >= 1
    ensures Chunks(m * parts, parts) == Repeat(m, parts)
  {
    DivUnique(m * parts + parts - 1, parts, m, parts - 1);
    SplitByMultiple(m, parts);
  }

  /**
   * `Attention(dim, heads, dim_head, dropout)` of the single-modality
   * encoders: one Linear(dim, 3 * inner) split into q, k and v by torch.chunk.
   */
  datatype FusedAttention = FusedAttention(dim: nat, heads: nat, dimHead: nat, toQkv: Linear, toOut: OutProjection)

  function MakeFusedAttention(dim: nat, heads: nat, dimHead: nat): Result<FusedAttention>
  {
    if dimHead == 0 then Err(ZeroDivision)
    else
      var inner := InnerDim(heads, dimHead);
      var projectOut := !(heads == 1 && dimHead == dim);
      Ok(FusedAttention(dim, heads, dimHead, Linear(dim, inner * 3),
                        if projectOut then Projection(Linear(inner, dim)) else Identity))
  }

  function ApplyFusedAttention(a: FusedAttention, x: TokenShape): Result<TokenShape>
  {
    var qkv :- ApplyLinear(a.toQkv, x);
    var cs := Chunks(qkv.width, 3);
    if |cs| != 3 then Err(NotUnpackable)
    else
      var dq :- SplitHeads(a.heads, TokenShape(qkv.tokens, cs[0]));
      var dk :- SplitHeads(a.heads, TokenShape(qkv.tokens, cs[1]));
      var dv :- SplitHeads(a.heads, TokenShape(qkv.tokens, cs[2]));
      if dq != dk then Err(ShapeMismatch)
      else ApplyProjection(a.toOut, TokenShape(qkv.tokens, InnerDim(a.heads, dv)))
  }

  /**
   * The fused projection has width 3 * heads * dim_head and splits into three
   * equal chunks; the output projection is left out exactly when heads == 1
   * and dim_head == dim; either way the block maps width `dim` to `dim`.
   */
  lemma {:induction false} FusedAttentionContract(dim: nat, heads: nat, dimHead: nat, x: TokenShape)
    requires heads >= 1 && dimHead >= 1 && x.width == dim
    ensures MakeFusedAttention(dim, heads, dimHead).Ok?
    ensures MakeFusedAttention(dim, heads, dimHead).value.toQkv == Linear(dim, 3 * heads * dimHead)
    ensures Chunks(3 * heads * dimHead, 3) == [heads * dimHead, heads * dimHead, heads * dimHead]
    ensures MakeFusedAttention(dim, heads, dimHead).value.toOut.Identity? <==> heads == 1 && dimHead == dim
    ensures ApplyFusedAttention(MakeFusedAttention(dim, heads, dimHead).value, x) == Ok(x)
  {
    var inner := dimHead * heads;
    ThreeEqualChunks(inner);
    HeadWidth(heads, dimHead);
    var a := MakeFusedAttention(dim, heads, dimHead).value;
    assert a.toQkv == Linear(dim, inner * 3);
    assert ApplyLinear(a.toQkv, x) == Ok(TokenShape(x.tokens, inner * 3));
    assert SplitHeads(heads, TokenShape(x.tokens, inner)) == Ok(dimHead);
    assert ApplyProjection(a.toOut, TokenShape(x.tokens, inner)) == Ok(x);
  }

  lemma {:induction false} ThreeEqualChunks(inner: nat)
    ensures Chunks(inner * 3, 3) == [inner, inner, inner]
  {
    if inner == 0 {
      assert Chunks(0, 3) == Repeat(0, 3);
    } else {
      ChunksEqual(inner, 3);
    }
  }

  lemma {:induction false} HeadWidth(heads: nat, dimHead: nat)
    requires heads >= 1
    ensures (dimHead * heads) % heads == 0 && (dimHead * heads) / heads == dimHead
    ensures heads * dimHead == dimHead * heads && 3 * heads * dimHead == dimHead * heads * 3
  {
    DivUnique(dimHead * heads, heads, dimHead, 0);
  }
}
