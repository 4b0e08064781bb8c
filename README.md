# CogniFuse encoders: a shape-level model in Dafny

CogniFuse classifies affective state from several physiological recordings
(EEG, PPG, EDA, respiration). Its encoders are *Deformer* networks. Each
modality goes through a CNN front end. Then a stack of `depth` levels does
three things per level: it halves the time axis, it attends over the pooled
tokens, and it keeps one "dense" feature per kernel. The fused model
(`MultiChannelDeformer`) also lets every modality attend to the keys and
values of all the others at every level. The intermediate-fusion model runs
one single-modality stack per modality and concatenates the results. The
unimodal model runs one stack.

The floating-point arithmetic of the networks is not modelled. What is
modelled is the integer bookkeeping that decides whether the layers fit
together:

- every tensor is its shape `(tokens, width)`, with the batch axis dropped;
- every torch layer is its shape rule, or the error it raises;
- every constructor is the list of layer sizes it builds;
- every `forward` is the loop that carries shapes from one layer to the next.

The central facts proved are these:

- halving one level at a time, `int(d * 0.5)` repeated, equals the closed
  form `int(d * 0.5 ** depth)`, which is `d / 2^depth`;
- the width each encoder actually produces is the size its constructor
  computed in closed form for the next layer:
  - the compressor inputs of `get_modality_output_sizes`;
  - the `out_size` built from `get_hidden_size`;
  - the output head's `sum(emb_dims)`.

So a well-formed configuration runs end to end and yields `out_dim` values.

The small argument-plumbing helpers of `utils/parser_util.py` are modelled
exactly, on sequences and maps:

- serialising a namespace back into argv;
- looking up the destinations of an argument group;
- overwriting arguments from a saved model's arguments;
- deriving the model-name and task-name choices.

Module layout:

| file | module | models |
|---|---|---|
| halving.dfy | `Halving` | `int(d*0.5)`, `int(d*0.5**n)`, `get_hidden_size`, sums |
| layers.dfy | `Layers` | shape rules of Linear, FeedForward, pooling, convolution, padding, both Attention variants, the CNN front end |
| cross_modal.dfy | `CrossModal` | `models/MultiChannelDeformer.py`: constructors and forward loops |
| cross_modal_proofs.dfy | `CrossModalProofs` | the properties of `CrossModal` |
| level_stack.dfy | `LevelStack` | the single-modality `Transformer`, which IntermediateFusionDeformer.py and UnimodalDeformer.py share |
| intermediate.dfy | `IntermediateFusion` | `models/IntermediateFusionDeformer.py` |
| unimodal.dfy | `Unimodal` | `models/UnimodalDeformer.py` |
| modified.dfy | `Modified` | constructor arithmetic of `models/MultiChannelDeformerModified.py` |
| parser_util.dfy | `ParserUtil` | the pure parts of `utils/parser_util.py` |

Where the Python code loops, the model has a `method` with a `while` loop.
Each such method is proved equal to a recursive specification function,
and the properties are proved as lemmas about that function. The parsed
namespace that the overwrite loop changes with `setattr` is a class,
`ParserUtil.Namespace`, with a map field.

Errors are modelled as values (`Layers.Error`), one per exception the
Python code can raise:

- `IndexError`;
- `ZeroDivisionError` from `dim_head ** -0.5`;
- `torch.cat` of an empty list;
- a layer applied to a tensor of the wrong size;
- a tuple unpacking that fails;
- `TypeError` and `KeyError` in the parser helpers.

Where the code and its documentation differ, the model follows the code:

- `CrossChannelTransformerEncoderLayer.forward` has no residual around its
  feed-forward (`x = self.ffwd(x)`).
- Its attention always gets an output projection, because the layer
  always passes an `out_dim`.
- Nothing checks that the per-modality lists have equal lengths. The
  constructors `zip` them and silently truncate to the shortest.
- `get_args_per_group_name` *returns* a `ValueError` object when no group
  matches; it does not raise it. The caller's `+=` then fails with a
  `TypeError`.

## Model

| member | source | states |
|---|---|---|
| Halving.Pow2 | models/MultiChannelDeformer.py:227 | `0.5 ** depth` is 1 / 2^depth; 2^n is at least 1 |
| Halving.Pow2Monotone | models/MultiChannelDeformer.py:227 | 2^m <= 2^n for m <= n |
| Halving.QuotientNat | models/MultiChannelDeformer.py:227 | `int(d * 0.5 ** n)` of a non-negative size is a natural number |
| Halving.HalfOfQuotient | models/MultiChannelDeformer.py:149 | halving floor(d / p) gives floor(d / 2p) |
| Halving.HalveTimesIsScaledFloor | models/MultiChannelDeformer.py:144-149 | `depth` successive `int(d * 0.5)` equal the closed form `int(d * 0.5 ** depth)` = d / 2^depth |
| Halving.HalveTimesShift | models/MultiChannelDeformerModified.py:301 | halving once before n level halvings is halving n + 1 times |
| Halving.HalveTimesPositive | models/MultiChannelDeformer.py:149 | a size stays >= 1 after n halvings exactly when it is >= 2^n |
| Halving.LevelInputAtLeastTwo | models/MultiChannelDeformer.py:183 | with T >= 2^depth, every level pools a time axis of at least 2 |
| Halving.HiddenSizes | models/IntermediateFusionDeformer.py:199-200 | `get_hidden_size(T, n)` has n + 1 entries |
| Halving.HiddenSizesAreLevelSizes | models/UnimodalDeformer.py:200-201 | entry 0 is T, entry i is T halved i times, and each entry is the previous one halved |
| Halving.SumAppend | models/MultiChannelDeformer.py:135 | `sum` of a concatenation is the sum of the sums |
| Halving.Repeat | models/MultiChannelDeformer.py:196 | n copies of x: length n, every entry x |
| Halving.SumConstant | models/MultiChannelDeformer.py:216-217 | n level features of K each add up to K * n |
| Layers.FeedForwardShape | models/MultiChannelDeformer.py:42-55 | a FeedForward accepts exactly width `dim` and produces width `out_dim`, on tokens and on flat vectors |
| Layers.PaddingIsFloorHalf | models/MultiChannelDeformer.py:234-235 | `int(0.5 * (k - 1))` is floor((k - 1) / 2), 0 for k = 0, and `get_padding` is (0, that) |
| Layers.SamePadding | models/IntermediateFusionDeformer.py:102-103 | an odd kernel keeps the length; an even one shortens it by one, or fails on length 1 |
| Layers.DenseBlockHalves | models/MultiChannelDeformer.py:108-116 | with an odd kernel the fine-grained block halves the time axis, as the pooling does |
| Layers.EncoderBlock | models/MultiChannelDeformer.py:272-280 | the spatial (num_chan, 1) convolution is present iff num_chan > 1; the padding is `get_padding(k)` |
| Layers.EncoderKeepsTime | models/MultiChannelDeformer.py:272-280 | with an odd temporal kernel the front end on (num_chan, T) yields (K, T), matching the (1, K, T) positional embedding |
| Layers.AttentionProjectionRule | models/MultiChannelDeformer.py:61-84 | dim_head = 0 fails at the scale; with out_dim there is always a projection, otherwise none iff heads == 1 and dim_head == q_dim |
| Layers.AttentionOutputShape | models/MultiChannelDeformer.py:86-104 | attention gives one token per query, of width out_dim (q_dim when none is given) |
| Layers.SplitBySum | models/UnimodalDeformer.py:50 | the pieces of an axis split by a fixed size add up to its length |
| Layers.SplitByMultiple | models/UnimodalDeformer.py:50 | an axis of m * p splits into p pieces of m |
| Layers.ChunksPartition | models/UnimodalDeformer.py:50 | `torch.chunk` partitions the axis |
| Layers.ChunksEqual | models/UnimodalDeformer.py:50 | an axis of m * parts chunks into `parts` equal pieces of m |
| Layers.FusedAttentionContract | models/IntermediateFusionDeformer.py:29-56 | `to_qkv` has width 3 * heads * dim_head and splits into three equal chunks; no projection iff heads == 1 and dim_head == dim; width dim maps to dim |
| Layers.ThreeEqualChunks | models/UnimodalDeformer.py:42-50 | 3 * inner chunks into [inner, inner, inner] |
| Layers.HeadWidth | models/UnimodalDeformer.py:51 | splitting heads * dim_head into `heads` heads gives dim_head each |
| Layers.ChannelInputs | models/MultiChannelDeformer.py:341-350 | the raw inputs of both multi-modal models: modality k is (num_chan[k], num_time[k]) |
| CrossModal.ModalityOutputSizes | models/MultiChannelDeformer.py:226-227 | one size per entry of the zip of dims and in_chans |
| CrossModal.MakeBlock | models/MultiChannelDeformer.py:157-166 | the seven modules of a block build iff dim_head >= 1, else ZeroDivisionError |
| CrossModal.LevelBlocks | models/MultiChannelDeformer.py:151-166 | a level has one block per modality |
| CrossModal.ConstructionError | models/MultiChannelDeformer.py:143-166 | `Transformer.__init__` raises nothing iff depth is 0 or every block builds |
| CrossModal.BuildCompression | models/MultiChannelDeformer.py:122-132 | the compressors are FeedForward(size, emb, emb) over the zip of sizes and emb_dims |
| CrossModal.BuildLevel | models/MultiChannelDeformer.py:151-166 | the per-modality loop builds the level's blocks, or stops at the first IndexError or ZeroDivisionError |
| CrossModal.BuildTransformer | models/MultiChannelDeformer.py:118-170 | the constructor loops build exactly the specified Transformer or raise the specified error |
| CrossModal.IndexErrorFirst | models/MultiChannelDeformer.py:153-155 | the first modality a per-modality list lacks raises IndexError |
| CrossModal.ZeroDivisionFirst | models/MultiChannelDeformer.py:158 | with every list non-empty, dim_head = 0 raises ZeroDivisionError at the first block |
| CrossModal.AfterHct | models/MultiChannelDeformer.py:194 | `channels_output[i]` is overwritten only for the modalities the loop reached |
| CrossModal.Unpack | models/MultiChannelDeformer.py:31-35 | unpacking succeeds iff every other entry is a tuple, and keeps every tuple in order |
| CrossModal.KeysOf | models/MultiChannelDeformer.py:31 | the keys of the others, in order |
| CrossModal.ValuesOf | models/MultiChannelDeformer.py:34 | the values of the others, in order |
| CrossModal.LevelFeatures | models/MultiChannelDeformer.py:212 | `[depth[i] for depth in dense_feature]` succeeds iff every level has entry i, and lists them in level order |
| CrossModal.HctLoop | models/MultiChannelDeformer.py:176-194 | the HCT loop overwrites the slots with tuples and records the dense features |
| CrossModal.CrossLoop | models/MultiChannelDeformer.py:198-206 | the cross loop builds `new_channels_output` |
| CrossModal.EmbedLoop | models/MultiChannelDeformer.py:210-219 | one compressed embedding per modality, in index order |
| CrossModal.Forward | models/MultiChannelDeformer.py:172-224 | `Transformer.forward` computes the specified output width or error |
| CrossModal.BuildDeformer | models/MultiChannelDeformer.py:282-302 | the front ends, positional embeddings and Transformer over the zipped lists |
| CrossModal.DeformerForwardLoop | models/MultiChannelDeformer.py:305-316 | the front-end loop, then the Transformer |
| CrossModalProofs.OthersUpToSlices | models/MultiChannelDeformer.py:204 | the filtered prefix is the prefix without entry i |
| CrossModalProofs.OthersOmitsOne | models/MultiChannelDeformer.py:204 | `[h for n, h in enumerate(s) if n != i]` is s without entry i, others in index order |
| CrossModalProofs.OthersSum | models/MultiChannelDeformer.py:204 | the others' token counts add up to the total minus K_i |
| CrossModalProofs.TokensOf | models/MultiChannelDeformer.py:32 | the token count of each tensor |
| CrossModalProofs.ConcatTokensStacks | models/MultiChannelDeformer.py:31-35 | `torch.cat(dim=-2)` of equal-width tensors succeeds iff non-empty and stacks their tokens |
| CrossModalProofs.HctBlockShape | models/MultiChannelDeformer.py:181-194 | an HCT block turns (K, d) into (K, d / 2), with q, k, v of width heads * dim_head and K dense values |
| CrossModalProofs.CrossForwardShape | models/MultiChannelDeformer.py:19-39 | cross-fusion maps the inner width back to the level's dim: (K, dim) in, (K, dim) out |
| CrossModalProofs.CrossForwardAlone | models/MultiChannelDeformer.py:31-32 | with no other modality the key concatenation fails |
| CrossModalProofs.LevelInput | models/MultiChannelDeformer.py:181 | the tensors entering level i: (K_k, T_k / 2^i) |
| CrossModalProofs.LevelQuads | models/MultiChannelDeformer.py:194 | the tuples the HCT blocks of level i leave |
| CrossModalProofs.LevelTimes | models/MultiChannelDeformer.py:144-149 | the time axis entering each level is >= 2 and halves to the next level's |
| CrossModalProofs.HctFromOf | models/MultiChannelDeformer.py:179-194 | the HCT loop yields every block's tuple and dense value, in order |
| CrossModalProofs.CrossFromStep | models/MultiChannelDeformer.py:200-206 | one successful cross step appends its tensor |
| CrossModalProofs.CrossFromOf | models/MultiChannelDeformer.py:200-206 | the cross loop yields every step's tensor, in order |
| CrossModalProofs.HctStepShape | models/MultiChannelDeformer.py:179-194 | block j of level i takes its input to its tuple and K_j dense values |
| CrossModalProofs.OthersAreTuples | models/MultiChannelDeformer.py:161-165 | the others are the HCT tuples of every modality but j, in index order: the n-th offers keys equal to its values, of width heads * dim_head over as many tokens as the n-th other modality has channels |
| CrossModalProofs.StackedPool | models/MultiChannelDeformer.py:31-35 | keys and values of one width concatenate to the sum of their token counts at that width |
| CrossModalProofs.KeyValuePools | models/MultiChannelDeformer.py:31-35 | in every level, modality j's `k_agg` and `v_agg` both have sum over n != j of K_n tokens of width heads * dim_head, which is the total channel count minus K_j |
| CrossModalProofs.CrossStepShape | models/MultiChannelDeformer.py:200-206 | the cross step of modality j gives (K_j, T_j / 2^(i+1)) for the next level |
| CrossModalProofs.LevelForwardShape | models/MultiChannelDeformer.py:174-208 | one level maps every (K_k, T_k / 2^i) to (K_k, T_k / 2^(i+1)) and records one feature of width K_k per modality |
| CrossModalProofs.LevelForwardAlone | models/MultiChannelDeformer.py:198-205 | with one modality, a level fails at the cross step |
| CrossModalProofs.TransformerBuilds | models/MultiChannelDeformer.py:118-170 | a runnable configuration builds: `depth` levels, the specified compressors and an output head of width sum(emb_dims) to out_dim |
| CrossModalProofs.LevelsFromStep | models/MultiChannelDeformer.py:174-196 | one successful level advances the level loop |
| CrossModalProofs.LevelsFromOf | models/MultiChannelDeformer.py:174-208 | levels that each take inputs[k] to inputs[k+1] append one feature list per level |
| CrossModalProofs.LevelsStepOf | models/MultiChannelDeformer.py:174-208 | one level in front of the later ones adds one more copy of its feature list |
| CrossModalProofs.AllLevelsShape | models/MultiChannelDeformer.py:173-208 | the levels end at (K_k, T_k / 2^depth), and `dense_feature` has `depth` entries of one feature per modality |
| CrossModalProofs.LevelFeaturesRepeat | models/MultiChannelDeformer.py:212 | modality i gets `depth` level features, each K_i |
| CrossModalProofs.EmbeddingOf | models/MultiChannelDeformer.py:214-218 | compressor i accepts the flattened tensor plus the level features when their widths match |
| CrossModalProofs.OutputSizeSplit | models/MultiChannelDeformer.py:214-217 | K * floor(T / 2^n) flattened plus n features of K is the closed-form size |
| CrossModalProofs.EmbeddingShape | models/MultiChannelDeformer.py:211-227 | the compressor input built at the end has exactly the width `get_modality_output_sizes` computed, so embedding i has width emb_dims[i] |
| CrossModalProofs.EmbeddingsFromStep | models/MultiChannelDeformer.py:211-219 | one successful embedding advances the loop |
| CrossModalProofs.EmbeddingsShape | models/MultiChannelDeformer.py:210-219 | the embedding loop yields emb_dims, in index order |
| CrossModalProofs.TransformerForwardWidth | models/MultiChannelDeformer.py:172-224 | a well-formed Transformer yields out_dim values; the head takes sum(emb_dims) |
| CrossModalProofs.SingleModalityFails | models/MultiChannelDeformer.py:198-205 | with one modality the forward pass fails at the first cross step |
| CrossModalProofs.EncodeChannelShape | models/MultiChannelDeformer.py:306-312 | a front end yields (K_k, T_k), and the positional embedding adds in place |
| CrossModalProofs.EncodeFromStep | models/MultiChannelDeformer.py:306-312 | one successful channel advances the front-end loop |
| CrossModalProofs.EncodeFromOf | models/MultiChannelDeformer.py:306-312 | the front-end loop from channel j on ends with the known per-channel tensors when every front end yields its own |
| CrossModalProofs.EncodeAllShape | models/MultiChannelDeformer.py:306-312 | the front-end loop yields the tensors entering the first level |
| CrossModalProofs.DeformerForwardWidth | models/MultiChannelDeformer.py:305-316 | a well-formed MultiChannelDeformer turns the channels into out_dim values |
| CrossModalProofs.DemoWellFormed | models/MultiChannelDeformer.py:327-339 | the demonstration configuration is well formed |
| CrossModalProofs.DemoSizes | models/MultiChannelDeformer.py:327-339 | its compressor sizes are 2304, 208, 80, 96 |
| CrossModalProofs.DemoForward | models/MultiChannelDeformer.py:327-358 | the demonstration yields two values |
| LevelStack.Build | models/IntermediateFusionDeformer.py:70-80 | the loop rebinding `dim = int(dim * 0.5)` builds the specified levels |
| LevelStack.StackDimsAreHiddenSizes | models/IntermediateFusionDeformer.py:73-74 | the level dims are entries 1..depth of `get_hidden_size` |
| LevelStack.Forward | models/IntermediateFusionDeformer.py:82-95 | `Transformer.forward` computes the specified width or error |
| LevelStack.LevelHalves | models/UnimodalDeformer.py:85-93 | a level halves the time axis and yields in_chan dense values |
| LevelStack.StackLevelsHalve | models/UnimodalDeformer.py:76-82 | every level of a built stack halves its input when T >= 2^depth |
| LevelStack.LevelsFromStep | models/UnimodalDeformer.py:87-93 | one successful level advances the loop |
| LevelStack.LevelsFromShape | models/UnimodalDeformer.py:86-93 | the levels end at (in_chan, T / 2^depth) with one feature of width in_chan per level |
| LevelStack.LevelsFromShapeStep | models/UnimodalDeformer.py:87-93 | one level in front of the later ones adds one more feature |
| LevelStack.StackForwardOf | models/UnimodalDeformer.py:95-97 | the output width is in_chan * h + in_chan * n |
| LevelStack.UniformStackWidth | models/UnimodalDeformer.py:85-98 | a stack whose every level halves yields in_chan * (T / 2^n) + in_chan * n |
| LevelStack.StackForwardWidth | models/IntermediateFusionDeformer.py:83-95 | `Transformer.forward` yields in_chan * floor(T / 2^depth) + in_chan * depth |
| LevelStack.ModalityOutSizeClosedForm | models/IntermediateFusionDeformer.py:173-174 | `int(K * L[-1]) + int(K * depth)` is K * floor(T / 2^depth) + K * depth |
| LevelStack.StackWidthIsOutSize | models/UnimodalDeformer.py:173-177 | the constructor's closed form is the width `Transformer.forward` returns |
| IntermediateFusion.OutSizes | models/IntermediateFusionDeformer.py:164-175 | one out_size term per entry of the four-way zip |
| IntermediateFusion.TransformersOf | models/IntermediateFusionDeformer.py:164-171 | one Transformer per entry of the zip |
| IntermediateFusion.BuildEncoders | models/IntermediateFusionDeformer.py:150-153 | one front end per entry of the zip of num_chan, temporal_kernel, num_kernel |
| IntermediateFusion.BuildPosEmbeddings | models/IntermediateFusionDeformer.py:157-160 | one (K, T) embedding per entry of the zip of num_time and num_kernel |
| IntermediateFusion.BuildTransformers | models/IntermediateFusionDeformer.py:162-175 | the loop builds the Transformers and accumulates out_size, or raises ZeroDivisionError |
| IntermediateFusion.Build | models/IntermediateFusionDeformer.py:145-179 | `__init__` builds the specified model or raises the specified error |
| IntermediateFusion.ForwardLoop | models/IntermediateFusionDeformer.py:181-194 | `forward` computes the specified width or error |
| IntermediateFusion.ChannelForwardWidth | models/IntermediateFusionDeformer.py:164-190 | modality k's output has exactly the width its out_size term adds |
| IntermediateFusion.ForwardFromStep | models/IntermediateFusionDeformer.py:183-190 | one successful channel advances the loop |
| IntermediateFusion.ForwardAllWidths | models/IntermediateFusionDeformer.py:183-190 | the loop yields the out_size terms in modality order |
| IntermediateFusion.FusionForwardWidth | models/IntermediateFusionDeformer.py:163-194 | out_size is the width of the concatenated outputs, so `mlp_head` accepts them and yields out_dim values |
| IntermediateFusion.DemoSizes | models/IntermediateFusionDeformer.py:208-220 | the demonstration's out_size terms are 2304, 208, 80, 96 |
| IntermediateFusion.DemoWellFormed | models/IntermediateFusionDeformer.py:208-220 | the demonstration configuration is well formed |
| IntermediateFusion.DemoForward | models/IntermediateFusionDeformer.py:208-220 | out_size 2688 and two output values |
| Unimodal.DefaultOptions | models/UnimodalDeformer.py:125-140 | num_kernel / emb_dim are 64 / 256 for "eeg" and 4 / 16 otherwise; the shared defaults |
| Unimodal.UnimodalForwardWidth | models/UnimodalDeformer.py:152-195 | the front end yields the positional embedding's shape, the Transformer yields the `mlp_head` input size, and the model yields out_dim values |
| Unimodal.ZeroDepthFails | models/UnimodalDeformer.py:173-175 | with depth 0, `mlp_head` is sized for K * T but `torch.cat` of the empty dense list fails |
| Unimodal.DefaultsRun | models/UnimodalDeformer.py:125-175 | with the defaults, every modality with T >= 16 runs, with out_size K * floor(T / 16) + 4K |
| Unimodal.DemoForward | models/UnimodalDeformer.py:209-221 | 16 EEG channels over 512 steps: out_size 2304 and two outputs |
| Modified.MakeModBlock | models/MultiChannelDeformerModified.py:173-180 | a block builds iff dim_head >= 1 |
| Modified.ModLevelBlocks | models/MultiChannelDeformerModified.py:162-180 | one block per modality |
| Modified.ModConstructionError | models/MultiChannelDeformerModified.py:155-180 | no error iff depth is 0 or every block builds; `in_chans[k]` is read before the Attention |
| Modified.BuildModCompression | models/MultiChannelDeformerModified.py:133-141 | one compressor per closed-form size |
| Modified.BuildModLevel | models/MultiChannelDeformerModified.py:162-181 | the per-modality loop builds the level or raises |
| Modified.BuildModTransformer | models/MultiChannelDeformerModified.py:129-184 | the constructor builds the specified Transformer or raises |
| Modified.ModEncoderBlock | models/MultiChannelDeformerModified.py:282-289 | the spatial convolution is always present, and a (1, 2) max-pool follows |
| Modified.HalvedDims | models/MultiChannelDeformerModified.py:301 | one halved dim per modality |
| Modified.BuildModDeformer | models/MultiChannelDeformerModified.py:291-314 | the variant's constructor builds the specified model or raises |
| Modified.ModEncoderHalves | models/MultiChannelDeformerModified.py:282-289 | the front end turns (C, T) into (K, floor(T / 2)) |
| Modified.ModPosMatchesEncoder | models/MultiChannelDeformerModified.py:301-308 | the positional embedding is (K, floor(T / 2)), exactly the front end's output |
| Modified.ModLevelDims | models/MultiChannelDeformerModified.py:159-160 | level i works at T / 2^(i+2) |
| Modified.ModCompressorSizes | models/MultiChannelDeformerModified.py:255-256 | compressor k takes K * floor((T / 2) / 2^depth) + K * depth |
| Modified.ModHeadFitsEmbeddings | models/MultiChannelDeformerModified.py:143-147 | the head takes emb_dim * len(dims), the width of the embeddings concatenated |
| ParserUtil.Filter | utils/parser_util.py:401 | a list comprehension's filter keeps only entries that satisfy it |
| ParserUtil.FilterMembers | utils/parser_util.py:401 | x survives the filter iff it is in the list and satisfies it |
| ParserUtil.NatToString | utils/parser_util.py:409-412 | `str` of a natural number is non-empty decimal without a sign |
| ParserUtil.Strs | utils/parser_util.py:408-410 | one `str(v)` per list element, in order |
| ParserUtil.Kept | utils/parser_util.py:401 | exactly the attributes whose names do not start with `_` |
| ParserUtil.FilterAppend | utils/parser_util.py:401 | filtering a concatenation filters each part and keeps the parts in order |
| ParserUtil.KeptAppend | utils/parser_util.py:401 | the kept attributes of a concatenation are those of each part, in input order |
| ParserUtil.KeptSingle | utils/parser_util.py:401 | no attributes keep nothing; one attribute is kept unchanged iff its name does not start with `_` |
| ParserUtil.EmittedAppend | utils/parser_util.py:403-413 | serialising a concatenation concatenates the serialisations |
| ParserUtil.AppendStrs | utils/parser_util.py:408-410 | the inner loop appends `str(v)` of each element |
| ParserUtil.EmittedStep | utils/parser_util.py:403-413 | one more attribute appends its flag and values |
| ParserUtil.AppendAttr | utils/parser_util.py:404-413 | one attribute: its `'--' + name`, then its value strings |
| ParserUtil.GetPassThroughArgs | utils/parser_util.py:400-415 | the argv list built is the specified serialisation of the kept attributes |
| ParserUtil.EmitAll | utils/parser_util.py:403-413 | the loop over the kept names builds their serialisation |
| ParserUtil.Widths | utils/parser_util.py:407-413 | the width of each kept attribute |
| ParserUtil.EmitParts | utils/parser_util.py:404-413 | an attribute contributes its flag followed by its value strings: 1 + len(val) for a list, 2 otherwise |
| ParserUtil.EmittedLength | utils/parser_util.py:401-415 | the output length is the sum of 1 + (len(val) if list else 1) over kept names |
| ParserUtil.EmittedSplit | utils/parser_util.py:403-413 | attribute i's strings sit between those before and after it |
| ParserUtil.EmittedAt | utils/parser_util.py:403-413 | attribute i's flag and values appear, contiguously, at the position after all earlier attributes: names in input order, each with its own values |
| ParserUtil.ValuesRun | utils/parser_util.py:403-413 | the number of value tokens before the next flag |
| ParserUtil.ValuesRunOf | utils/parser_util.py:403-413 | non-flag values followed by a flag are counted exactly |
| ParserUtil.Groups | utils/parser_util.py:403-413 | the (name, value strings) pairs an argv list carries |
| ParserUtil.ParseGroup | utils/parser_util.py:404-413 | a flag and its values read back as one group |
| ParserUtil.ParseEmitted | utils/parser_util.py:400-415 | reading the argv list back gives every kept name with its value strings, in order, when no value looks like a flag |
| ParserUtil.ScalarNotFlag | utils/parser_util.py:412 | `str` of an int, bool or None never looks like a flag |
| ParserUtil.DictKeys | utils/parser_util.py:72-73 | the keys of the dict are exactly the dests |
| ParserUtil.DictKeysOrder | utils/parser_util.py:72-73 | the keys are distinct, and with distinct dests they are the dests in action order |
| ParserUtil.GetArgsPerGroupName | utils/parser_util.py:69-74 | the loop with early return computes the specified lookup |
| ParserUtil.LookupFirstMatch | utils/parser_util.py:70-74 | the keys of the first group whose title matches; a returned ValueError iff none matches |
| ParserUtil.CollectArgsToOverwrite | utils/parser_util.py:55-57 | the loop collects the specified names |
| ParserUtil.MissingGroupNotIterable | utils/parser_util.py:56-57 | collecting fails iff some group name names no group, and then with TypeError |
| ParserUtil.Namespace.constructor | utils/parser_util.py:51 | a namespace with the given attributes |
| ParserUtil.Namespace.Overwrite | utils/parser_util.py:60-65 | the overwrite loop leaves the specified attributes, or fails with KeyError |
| ParserUtil.OverwriteEffect | utils/parser_util.py:60-65 | fails iff a listed name is neither saved nor present; otherwise saved names take the saved value, other listed names keep theirs, unlisted names are untouched |
| ParserUtil.BeforeFirstDot | utils/parser_util.py:107 | `name.split('.')[0]` is the prefix up to the first dot, with no dot in it |
| ParserUtil.ModelNameChoices | utils/parser_util.py:106-109 | a choice is offered iff some `.py` file has it before its first dot |
| ParserUtil.ModelNameIsStem | utils/parser_util.py:107-109 | a `.py` file's choice is a proper prefix cut at a dot |
| ParserUtil.ModelNameExample | utils/parser_util.py:106-109 | `a.b.py` is offered as `a`; a non-file is skipped |
| ParserUtil.AddTaskChoices | utils/parser_util.py:279-285 | the filter loop builds the specified task choices |
| ParserUtil.TaskChoicesMembers | utils/parser_util.py:281-285 | the choices are exactly the class names other than `ABC` and `Task` |
| ParserUtil.TaskChoicesAppend | utils/parser_util.py:281-285 | the filter keeps member order |

## Left out

- Tensor values: softmax, matmuls, LayerNorm, GELU, ELU, BatchNorm and dropout. These are floating-point computations inside torch and einops; only their shapes are modelled.
- The dense feature `log(mean(x^2))` (`get_info`): only its width, one value per kernel, is modelled.
- The `torch.renorm` weight clipping of `Conv2dWithConstraint`: a floating-point normalisation inside torch, with no shape effect.
- The random positional embeddings (`torch.randn`) and `count_parameters`: they depend on torch's parameter internals. Only the embedding shapes are modelled.
- The batch axis: every tensor's batch size is the same and is dropped.
- CrossModal.Unpack: an entry that is still a raw tensor fails with NotUnpackable. In Python a `(b, K, d)` tensor cannot be unpacked into four names unless b == 4. With b == 4 it unpacks along the batch axis, and the failure comes later, as a shape mismatch in `torch.cat` or in attention. So the model reports a different error kind for that case.
- ParserUtil.IsFlag: only `--`-prefixed tokens count as flags when an argv list is read back. That is the only form `get_pass_through_args` emits. Single-dash options and `--name=value` tokens, which argparse also accepts, are not modelled.
- Construction-time validation that torch itself does (for example, of a zero layer size): only the errors Python raises in the shown code are modelled.
- The `forward` of models/MultiChannelDeformerModified.py, including its cross-attention over the other modalities: it prints debug shapes and calls `exit()` partway through, so it has no behaviour to model.
- The in-place writes `channels[i] = chan` and `channels_output[i] = ...` on the caller's list. They are modelled on local sequences. The aliasing, where the caller's list is changed as well, is not.
- `str` of a float: Python's shortest round-trip formatting is not modelled, so a float value carries its text.
- Nested lists in namespace values: a list value holds scalars only.
- The warning `print` of the overwrite loop: only its `KeyError` when the name is missing from the namespace as well is modelled.
- ParserUtil.Namespace: the namespace is a map from names to values. `dir(args)` ordering is an input sequence given to `GetPassThroughArgs`.
- `argparse`, `os.listdir`, `os.path`, JSON loading and `sys.argv` re-parsing: ambient-process I/O. The directory listing, the argument groups, the module members and the namespace are inputs.
- `train_args`, `is_multimodal`, `get_model_path_from_args`, `get_output_size_from_task` and the `add_*_options` registrations: argparse and file I/O. The unimodal `add_model_options` defaults are modelled (`Unimodal.DefaultOptions`).
- train/train_cross_validation.py is not part of this model: it spawns processes and writes files.
- Halving.HalveTimesIsScaledFloor: `int(d * 0.5 ** n)` is modelled as exact integer division. The float product agrees for the sizes used, below 2^53, but larger sizes are not modelled.
