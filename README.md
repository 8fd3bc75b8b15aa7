# Attention layouts and kernel dispatch of the AnimateDiff attention module

This project models the part of `examples/animatediff/ad/modules/attention.py`
(MindSpore) that decides *where every number goes* around an attention
kernel. It covers:

- the helpers `exists`, `default` and `uniq`;
- `CrossAttention`:
  - the settings `__init__` derives;
  - how `construct` folds heads into the batch (`_rearange_in`, `_rearange_out`) for the generic kernel;
  - the `(b, h, n, d)` views it builds for the accelerated FlashAttention kernel;
  - its zero mask;
  - the test that chooses between the two kernels.
- `CrossFrameAttention`:
  - the cross-frame key/value substitution, where every frame of a video attends to the first frame of its group;
  - its own, narrower kernel test.

Tensors are row-major buffers (`Tensors.Tensor`: extents plus a flat
sequence whose length is the product of the extents). An element type is a
parameter, so the model says nothing about numbers, only about positions.

The following are parameters:
- the projections `to_q`, `to_k`, `to_v` and `to_out`;
- the generic kernel `Attention.construct`;
- the accelerated kernel.

Every Python exception on the modelled paths is an `Err` of `Tensors.Result`:
- unpacking a shape of the wrong rank;
- `//` by zero;
- a reshape that changes the element count;
- a `-1` extent that cannot be inferred;
- an index past an axis;
- a missing attribute.

Modules:
- `Arith` holds row-major offset arithmetic, including the merged index `Flat2(i, J, j) = i*J + j`.
- `Tensors` holds reshape, view, the `(0, 2, 1, 3)` transpose and their element lemmas.
- `Helpers` holds `exists`, `default` and `uniq`.
- `Heads` holds the two head layouts and their round trips.
- `Frames` holds the cross-frame substitution.
- `Attention` holds the configuration, the dispatch and the two `construct` methods.

## Model

| member | source | states |
|---|---|---|
| Helpers.Exists | examples/animatediff/ad/modules/attention.py:35-36 | `exists(val)` holds exactly when the value is not `None` |
| Helpers.Default | examples/animatediff/ad/modules/attention.py:43-48 | a present value is returned as is; otherwise a constant fallback is returned, or a callable fallback is called |
| Helpers.Uniq | examples/animatediff/ad/modules/attention.py:39-40 | the keys of the dict built from `arr`: each element of `arr` exactly once, nothing else, in order of first occurrence |
| Helpers.UniqProperties | examples/animatediff/ad/modules/attention.py:39-40 | inductive proof that inserting the elements one by one into a dict's key list yields exactly the distinct elements, ordered by first occurrence |
| Heads.RearrangeIn | examples/animatediff/ad/modules/attention.py:155-163 | `(b, n, c)` folds to `(b*h, n, c/h)`; succeeds exactly when the input has rank 3, `h > 0` and `h` divides `c` or the tensor is empty |
| Heads.RearrangeOut | examples/animatediff/ad/modules/attention.py:166-174 | `(B, n, d)` unfolds to `(B/h, n, h*d)`; succeeds exactly when the input has rank 3, `h > 0` and `h` divides `B` or the rows are empty |
| Heads.RearrangeInAt | examples/animatediff/ad/modules/attention.py:155-163 | element `(bi*h + hi, ni, di)` of the folded tensor is channel `hi*d + di` of token `ni` of batch entry `bi` |
| Heads.RearrangeOutAt | examples/animatediff/ad/modules/attention.py:166-174 | channel `hi*d + di` of token `ni` of entry `bi` after unfolding is element `(bi*h + hi, ni, di)` of the folded tensor |
| Heads.RearrangeRoundTrip | examples/animatediff/ad/modules/attention.py:155-174 | unfolding a folded `(b, n, h*d)` tensor gives back the input exactly |
| Heads.RearrangeRoundTripOut | examples/animatediff/ad/modules/attention.py:155-174 | folding an unfolded `(b*h, n, d)` tensor gives back the input exactly |
| Heads.ToHeads | examples/animatediff/ad/modules/attention.py:195-197 | `view(b, n, h, -1).transpose(0, 2, 1, 3)` gives `(b, h, n, c/h)`; succeeds exactly for rank 3, a non-empty `(b, n, h)` and `h` dividing `c` |
| Heads.FromHeads | examples/animatediff/ad/modules/attention.py:205-207 | `transpose(0, 2, 1, 3).view(b, n, -1)` of `(b, h, n, d)` gives `(b, n, h*d)`; succeeds exactly for rank 4 with `b*n > 0` |
| Heads.ToHeadsAt | examples/animatediff/ad/modules/attention.py:195-197 | head `hi` of entry `bi` at token `ni` holds channel `hi*(c/h) + di` of the input |
| Heads.FromHeadsAt | examples/animatediff/ad/modules/attention.py:205-207 | channel `hi*d + di` of token `ni` after flattening is element `(bi, hi, ni, di)` of the kernel output |
| Heads.HeadsRoundTrip | examples/animatediff/ad/modules/attention.py:195-207 | flattening the accelerated layout of a non-empty `(b, n, h*d)` tensor gives back the input |
| Heads.HeadsRoundTripOut | examples/animatediff/ad/modules/attention.py:195-207 | re-splitting the flattened kernel output gives back the `(b, h, n, d)` tensor |
| Heads.FoldedIsMergedHeads | examples/animatediff/ad/modules/attention.py:195-212 | the generic path's folded tensor is the accelerated layout with batch and head axes merged, so both paths split channels into heads the same way |
| Frames.RearrangeFrame | examples/animatediff/ad/modules/attention.py:244-248 | `(B, n, d)` regroups to `(B/f, f, n, d)` over the same elements; succeeds exactly when rank 3, `f > 0` and `f` divides `B` or rows are empty |
| Frames.RearrangeFrameBack | examples/animatediff/ad/modules/attention.py:250-253 | `(b, f, n, d)` merges to `(b*f, n, d)` over the same elements; succeeds exactly for rank 4 |
| Frames.TakeFrames | examples/animatediff/ad/modules/attention.py:259 | `x[:, idx]` succeeds exactly when the rank is at least 2 and every index is inside the second axis; the result has extents `(A, len(idx), ...)` |
| Frames.TakeFramesAt | examples/animatediff/ad/modules/attention.py:259 | entry `j` along the second axis of the gathered tensor is entry `idx[j]` of the source |
| Frames.FirstFrameIndex | examples/animatediff/ad/modules/attention.py:257 | `[0] * video_length`: `video_length` zeros |
| Frames.VideoLength | examples/animatediff/ad/modules/attention.py:256 | `k.shape[0] // unet_chunk_size`: the floor quotient; fails on a rank-0 tensor or a zero chunk size |
| Frames.VideoLengthOf | examples/animatediff/ad/modules/attention.py:256 | conversely, every batch of `vl*chunk` up to `(vl+1)*chunk - 1` rows has video length `vl` |
| Frames.ShareFirstFrame | examples/animatediff/ad/modules/attention.py:258-263 | regroup, take frame 0 for every frame, flatten: succeeds exactly when the regrouping does, and keeps `(B/vl)*vl` rows |
| Frames.ShareFirstFrameAt | examples/animatediff/ad/modules/attention.py:258-263 | on `g` groups of `vl` frames the extents are kept and row `gi*vl + fi` is a copy of row `gi*vl` |
| Attention.NewCrossAttention | examples/animatediff/ad/modules/attention.py:114-143 | `inner_dim = dim_head * heads`; `context_dim` defaults to `query_dim`; the accelerated kernel is enabled exactly when requested, available and the device is `Ascend`; `heads`, `dim_head` and `enable_flash_attention` default to 8, 64 and off |
| Attention.NewCrossAttentionDefaults | examples/animatediff/ad/modules/attention.py:114-126 | with only `query_dim` given the attention has 8 heads of 64, an inner width of 512, keys of the query's width and the accelerated kernel off |
| Attention.UsesFlash | examples/animatediff/ad/modules/attention.py:191-193 | never when the accelerated kernel is disabled; when enabled, exactly for query and key lengths that are multiples of 16 and a head dimension of at most 128 |
| Attention.CrossFrameUsesFlash | examples/animatediff/ad/modules/attention.py:269 | never when disabled; when enabled, exactly for query and key lengths that are multiples of 16, with no bound on the head dimension |
| Attention.CrossFrameGateDropsHeadDim | examples/animatediff/ad/modules/attention.py:191-193 | the cross-attention kernel test is the cross-frame test plus `head_dim <= 128` |
| Attention.Filled | examples/animatediff/ad/modules/attention.py:199 | `ops.zeros`-style fill: a tensor of the requested extents whose every element is the fill value |
| Attention.FlashMask | examples/animatediff/ad/modules/attention.py:198-199 | a given mask is passed on as is; without one, a `(q_b, q_n, q_n)` tensor whose every element is zero |
| Attention.CrossAttend | examples/animatediff/ad/modules/attention.py:185-216 | a rank other than 3 on `q`, `k` or `v` fails first; then a zero head count fails |
| Attention.FlashPath | examples/animatediff/ad/modules/attention.py:194-207 | a query that cannot be split into heads makes the accelerated branch fail with that error |
| Attention.FoldedPath | examples/animatediff/ad/modules/attention.py:208-216 | a query that cannot be folded makes the generic branch fail with that error |
| Attention.FlashPathKeepsShape | examples/animatediff/ad/modules/attention.py:194-207 | with a shape-keeping kernel the accelerated branch succeeds and returns the query's extents `(b, n, h*d)` |
| Attention.FoldedPathKeepsShape | examples/animatediff/ad/modules/attention.py:208-216 | with a shape-keeping kernel the generic branch succeeds and returns the query's extents |
| Attention.CrossAttendKeepsShape | examples/animatediff/ad/modules/attention.py:185-216 | whichever kernel the test picks, the result has the query's extents |
| Attention.Forward | examples/animatediff/ad/modules/attention.py:176-218 | a failing query projection is the forward pass's error |
| Attention.SelfAttentionByDefault | examples/animatediff/ad/modules/attention.py:181 | no context is the same as the input given as context |
| Attention.FlashBranchIgnoresAttend | examples/animatediff/ad/modules/attention.py:191-207 | when the kernel test holds, the generic kernel is never called |
| Attention.GenericBranchIgnoresFlash | examples/animatediff/ad/modules/attention.py:208-216 | when the kernel test fails, neither the accelerated kernel nor its mask zero is used |
| Attention.CrossFrameKeyValues | examples/animatediff/ad/modules/attention.py:255-263 | in cross-attention mode keys and values pass unchanged; in self-attention mode a failing video length is the error |
| Attention.SelfModeSharesFirstFrame | examples/animatediff/ad/modules/attention.py:255-263 | for any batch of `g` groups of `vl = (g*vl) // unet_chunk_size` frames, keys and values keep their extents and frame `fi` of group `gi` becomes frame 0 of that group |
| Attention.CrossFrameAttend | examples/animatediff/ad/modules/attention.py:265-286 | an unfoldable query is the error |
| Attention.CrossFrameAttendKeepsShape | examples/animatediff/ad/modules/attention.py:265-286 | with shape-keeping kernels the cross-frame attention returns the query's extents |
| Attention.CrossFrameForward | examples/animatediff/ad/modules/attention.py:226-287 | a failing query projection is the forward pass's error |
| Attention.CrossModeIgnoresChunk | examples/animatediff/ad/modules/attention.py:228 | with a context given, `unet_chunk_size` plays no part |
| Attention.CrossFrameFlashIgnoresAttend | examples/animatediff/ad/modules/attention.py:269-270 | when the cross-frame test holds, the generic kernel is never called |
| Attention.CrossFrameGenericIgnoresFlash | examples/animatediff/ad/modules/attention.py:271-273 | when the cross-frame test fails, the accelerated kernel is never called |
| Attention.CrossFrameForwardAsWritten | examples/animatediff/ad/modules/attention.py:226-265 | the code as written never succeeds: in cross-attention mode a rank-3 query and a non-zero head count reach `self.reshape` (line 239) and fail there; in self-attention mode a rank-3 key batch with a non-zero video length reaches it at line 247 |
| Attention.AsWrittenAgreesBeforeReshape | examples/animatediff/ad/modules/attention.py:226-265 | wherever the code as written fails before `self.reshape` (a projection, the video length, an unpack, a `//` by zero), the corrected model fails with the same error |
| Attention.AsWrittenZeroVideoLength | examples/animatediff/ad/modules/attention.py:244-258 | a `(1, 1, 1)` batch with `unet_chunk_size` 2 and no context has video length 0, and both fail at `b // f` with a division by zero |
| Attention.CrossFrameReshapeFinding | examples/animatediff/ad/modules/attention.py:239 | on a `(1, 1, 1)` input with identity layers, the as-written method fails and the corrected model returns a `(1, 1, 1)` tensor |

## Left out

- `Attention.construct` (the generic kernel) is a parameter. Its scaled dot product, softmax and mask handling are floating point. Its use of `self.reshape` and `self.heads`, which that class never sets, is outside this model.
- The accelerated kernel `FlashAttention` is a parameter, and so is `FLASH_IS_AVAILABLE`. The device target is an argument of `Attention.NewCrossAttention`.
- The `nn.Dense`/`SequentialCell` projections and the dropout are parameters, so the constructor defaults `dropout=1.0` and `dtype=ms.float32` have no counterpart.
- The following are not part of this model: `GEGLU`, `FeedForward`, `zero_module`, `Normalize`, `LinearAttention`, `BasicTransformerBlock` and `SpatialTransformer`.
- Precision changes by MindSpore's runtime are left out, because elements are of an arbitrary type. This covers dtype casts (`to(ms.float16)`, `.to(x_dtype)`, `fa_mask_dtype`), `choose_flash_attention_dtype` and logging.
- Helpers.Default: a fallback that is neither a tensor or number nor callable would raise `TypeError`. The model's fallback is one of the two modelled kinds.
- Helpers.Uniq: returns a sequence rather than a `dict_keys` view, and elements need only equality, not hashing.
- Heads are natural numbers. A negative `heads`, which Python's floor division would accept, is not modelled.
- `unet_chunk_size` (`chunk`) is a natural number as well. A negative chunk size, which Python's floor division would accept, is not modelled.
- Heads.RearrangeInAt: the extents are required in factored form `(b, n, h*d)`; every input with at least one element on which `_rearange_in` succeeds has that form.
- Heads.RearrangeOutAt: the extents are required in factored form `(b*h, n, d)`; every input with non-empty rows on which `_rearange_out` succeeds has that form.
- Frames.ShareFirstFrameAt: the extents are required in factored form `(g*vl, n, d)`; every input with non-empty rows on which the substitution succeeds has that form.
- A `-1` next to a zero-sized known prefix is `NotInferable`. The exact MindSpore behaviour there is not part of this model.
- The error kinds are coarser than Python's exception classes.
- The transpose `(0, 2, 1, 3)` is modelled on rank-4 tensors only, because every call site reshapes to rank 4 first.
- Attention.CrossFrameForward models the reshapes of `CrossFrameAttention.construct` as `ops.reshape` (see Findings). `CrossFrameAttention.__init__` stores `unet_chunk_size`, passed here as `chunk`. Its default of 2 (line 222) is not modelled: `chunk` is always passed explicitly.
- Attention.CrossFrameAttend hands the accelerated kernel the folded rank-3 tensors and no mask, as the code does. Whether the kernel accepts that layout is left to the kernel parameter.
- Attention.CrossAttendKeepsShape, Attention.FlashPathKeepsShape and Attention.CrossFrameAttendKeepsShape assume kernels that return their first argument's extents.
- The accelerated kernel's extra arguments (`head_dim`, `head_num`, `high_precision`) are left out.

## Findings

| source | as written | input that shows it | evidently intended | confidence | as-written member | corrected member |
|---|---|---|---|---|---|---|
| examples/animatediff/ad/modules/attention.py:239 | the local `rearange_in`, `rearange_frame`, `rearange_frame_back` and `rearange_out` of `CrossFrameAttention.construct` call `self.reshape`, which neither `CrossFrameAttention` nor `CrossAttention` sets (only `self.transpose`, line 130), so every call raises, at the latest at the first `self.reshape`: line 239 in cross-attention mode, line 247 in self-attention mode | identity projections and kernels, one head, a `(1, 1, 1)` input with a context | `ops.reshape`, as `_rearange_in` and `_rearange_out` use | medium, not executed | Attention.CrossFrameForwardAsWritten | Attention.CrossFrameForward |
