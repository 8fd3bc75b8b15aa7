/** Dispatch of `CrossAttention.construct` and `CrossFrameAttention.construct`
    between the accelerated kernel and the generic attention, with the
    layout steps each path applies around its kernel.

    The projections `to_q`, `to_k`, `to_v`, `to_out`, the generic attention
    (`Attention.construct`) and the accelerated kernel (`FlashAttention`)
    are parameters: the model fixes which of them is called, on which
    tensors, and what is done with the result. */
module Attention {
  import opened Arith
  import opened Helpers
  import opened Tensors
  import opened Heads
  import opened Frames

  /** Sequence lengths must be multiples of this for the accelerated kernel. */
  const FlashSeqMultiple: nat := 16
  /** Largest head dimension `CrossAttention` sends to the accelerated kernel. */
  const FlashMaxHeadDim: nat := 128

  /** The settings `CrossAttention.__init__` derives from its arguments. */
  datatype Config = Config(
    queryDim: nat,
    contextDim: nat,   // input extent of `to_k` and `to_v`
    heads: nat,
    dimHead: nat,
    innerDim: nat,     // output extent of `to_q`, `to_k`, `to_v`
    enableFlash: bool)

  /** `CrossAttention.__init__`, with its default arguments; `flashIsAvailable`
      is `FLASH_IS_AVAILABLE` and `deviceTarget` is the context's
      `device_target`, which the source reads from the environment. */
  function NewCrossAttention(flashIsAvailable: bool, deviceTarget: string, queryDim: nat,
                             contextDim: Option<nat> := None, heads: nat := 8, dimHead: nat := 64,
                             enableFlashAttention: bool := false): (c: Config)
    ensures c.queryDim == queryDim && c.heads == heads && c.dimHead == dimHead
    ensures c.innerDim == dimHead * heads
    ensures contextDim.Some? ==> c.contextDim == contextDim.value
    ensures contextDim.None? ==> c.contextDim == queryDim
    ensures c.enableFlash <==> enableFlashAttention && flashIsAvailable && deviceTarget == "Ascend"
  {
    Config(queryDim, Default(contextDim, Constant(queryDim)), heads, dimHead, dimHead * heads,
           enableFlashAttention && flashIsAvailable && deviceTarget == "Ascend")
  }

  /** With only `query_dim` given: 8 heads of 64, keys from the query's own
      width, and the accelerated kernel off whatever the environment offers. */
  lemma NewCrossAttentionDefaults(flashIsAvailable: bool, deviceTarget: string, queryDim: nat)
    ensures NewCrossAttention(flashIsAvailable, deviceTarget, queryDim)
         == Config(queryDim, queryDim, 8, 64, 512, false)
  {
  }

  /** The layers a forward pass calls; each may reject its input. */
  datatype Projections<!T> = Projections(
    toQ: Tensor<T> -> Result<Tensor<T>>,
    toK: Tensor<T> -> Result<Tensor<T>>,
    toV: Tensor<T> -> Result<Tensor<T>>,
    toOut: Tensor<T> -> Result<Tensor<T>>)

  /** The two attention kernels and the zero of the accelerated kernel's
      mask type. */
  datatype Kernels<!T> = Kernels(
    attend: (Tensor<T>, Tensor<T>, Tensor<T>, Option<Tensor<T>>) -> Result<Tensor<T>>,
    flash: (Tensor<T>, Tensor<T>, Tensor<T>, Option<Tensor<T>>) -> Result<Tensor<T>>,
    maskZero: T)

  /** The test of `CrossAttention.construct` for the accelerated branch:
      only when enabled, and then exactly for sequence lengths that are
      multiples of 16 and a head dimension of at most 128. */
  predicate UsesFlash(enableFlash: bool, qn: nat, kn: nat, headDim: nat): (r: bool)
    ensures r ==> enableFlash
    ensures enableFlash ==>
      (r <==> qn % FlashSeqMultiple == 0 && kn % FlashSeqMultiple == 0 && headDim <= FlashMaxHeadDim)
  {
    enableFlash && qn % FlashSeqMultiple == 0 && kn % FlashSeqMultiple == 0
    && headDim <= FlashMaxHeadDim
  }

  /** The test of `CrossFrameAttention.construct` for the accelerated branch:
      only when enabled, and then exactly for sequence lengths that are
      multiples of 16, whatever the head dimension. */
  predicate CrossFrameUsesFlash(enableFlash: bool, qn: nat, kn: nat): (r: bool)
    ensures r ==> enableFlash
    ensures enableFlash ==> (r <==> qn % FlashSeqMultiple == 0 && kn % FlashSeqMultiple == 0)
  {
    enableFlash && qn % FlashSeqMultiple == 0 && kn % FlashSeqMultiple == 0
  }

  /** The cross-frame test is the cross-attention test without the bound on
      the head dimension. */
  lemma CrossFrameGateDropsHeadDim(enableFlash: bool, qn: nat, kn: nat, headDim: nat)
    ensures UsesFlash(enableFlash, qn, kn, headDim) <==>
      CrossFrameUsesFlash(enableFlash, qn, kn) && headDim <= FlashMaxHeadDim
  {
  }

  /** A tensor of the given extents with every element `z`. */
  function Filled<T>(shape: seq<nat>, z: T): (t: Tensor<T>)
    ensures t.shape == shape && forall p | 0 <= p < |t.data| :: t.data[p] == z
  {
    Buffer(shape, seq(Numel(shape), _ => z))
  }

  /** Every element of a filled rank-3 tensor is the fill value. */
  lemma FilledAt3<T>(I: nat, J: nat, K: nat, z: T)
    ensures forall i: nat, j: nat, k: nat | i < I && j < J && k < K :: At3(Filled([I, J, K], z), i, j, k) == z
  {
    var t := Filled([I, J, K], z);
    forall i: nat, j: nat, k: nat | i < I && j < J && k < K
      ensures At3(t, i, j, k) == z
    {
      Numel3(t.shape);
      Off3Bound(i, j, k, I, J, K);
    }
  }

  /** The mask handed to the accelerated kernel: the caller's mask, or all
      zeros of extents `(q_b, q_n, q_n)` when there is none. */
  function FlashMask<T>(mask: Option<Tensor<T>>, qb: nat, qn: nat, zero: T): (m: Tensor<T>)
    ensures mask.Some? ==> m == mask.value
    ensures mask.None? ==> m.shape == [qb, qn, qn]
    ensures mask.None? ==> forall i: nat, j: nat, k: nat | i < qb && j < qn && k < qn :: At3(m, i, j, k) == zero
  {
    if mask.Some? then mask.value
    else
      FilledAt3(qb, qn, qn, zero);
      Filled([qb, qn, qn], zero)
  }

  /** Lines 185-216 of `CrossAttention.construct`, from the projected
      `q`, `k`, `v` to the tensor handed to `to_out`. */
  function CrossAttend<T>(heads: nat, enableFlash: bool, q: Tensor<T>, k: Tensor<T>, v: Tensor<T>,
                          mask: Option<Tensor<T>>, kern: Kernels<T>): (r: Result<Tensor<T>>)
    ensures |q.shape| != 3 || |k.shape| != 3 || |v.shape| != 3 ==> r == Err(RankMismatch)
    ensures |q.shape| == 3 && |k.shape| == 3 && |v.shape| == 3 && heads == 0 ==> r == Err(DivisionByZero)
  {
    if |q.shape| != 3 || |k.shape| != 3 || |v.shape| != 3 then Err(RankMismatch)
    else if heads == 0 then Err(DivisionByZero)
    else
      var headDim := q.shape[2] / heads;
      if UsesFlash(enableFlash, q.shape[1], k.shape[1], headDim)
      then FlashPath(heads, q, k, v, mask, kern)
      else FoldedPath(heads, q, k, v, mask, kern)
  }

  /** The accelerated branch: `(b, n, h*d) -> (b, h, n, d)` views, a zero
      mask `(b, n, n)` when none is given, the kernel, and the way back. */
  function FlashPath<T>(heads: nat, q: Tensor<T>, k: Tensor<T>, v: Tensor<T>,
                        mask: Option<Tensor<T>>, kern: Kernels<T>): (r: Result<Tensor<T>>)
    requires |q.shape| == 3
    ensures ToHeads(q, heads).Err? ==> r == ToHeads(q, heads)
  {
    var q4 :- ToHeads(q, heads);
    var k4 :- ToHeads(k, heads);
    var v4 :- ToHeads(v, heads);
    var m := FlashMask(mask, q.shape[0], q.shape[1], kern.maskZero);
    var out :- kern.flash(q4, k4, v4, Some(m));
    FromHeads(out)
  }

  /** The generic branch: heads folded into the batch, the kernel, and the
      heads unfolded again. */
  function FoldedPath<T>(heads: nat, q: Tensor<T>, k: Tensor<T>, v: Tensor<T>,
                         mask: Option<Tensor<T>>, kern: Kernels<T>): (r: Result<Tensor<T>>)
    ensures RearrangeIn(q, heads).Err? ==> r == RearrangeIn(q, heads)
  {
    var q3 :- RearrangeIn(q, heads);
    var k3 :- RearrangeIn(k, heads);
    var v3 :- RearrangeIn(v, heads);
    var out :- kern.attend(q3, k3, v3, mask);
    RearrangeOut(out, heads)
  }

  /** `CrossAttention.construct(x, context, mask)`. */
  function Forward<T>(cfg: Config, proj: Projections<T>, kern: Kernels<T>,
                      x: Tensor<T>, context: Option<Tensor<T>>, mask: Option<Tensor<T>>): (r: Result<Tensor<T>>)
    ensures proj.toQ(x).Err? ==> r == proj.toQ(x)
  {
    var q :- proj.toQ(x);
    var ctx := Default(context, Constant(x));
    var k :- proj.toK(ctx);
    var v :- proj.toV(ctx);
    var out :- CrossAttend(cfg.heads, cfg.enableFlash, q, k, v, mask, kern);
    proj.toOut(out)
  }

  /** Without a context, `CrossAttention` attends over its own input. */
  lemma SelfAttentionByDefault<T>(cfg: Config, proj: Projections<T>, kern: Kernels<T>,
                                  x: Tensor<T>, mask: Option<Tensor<T>>)
    ensures Forward(cfg, proj, kern, x, None, mask) == Forward(cfg, proj, kern, x, Some(x), mask)
  {
  }

  /** When the test holds the generic attention is not called: replacing it
      does not change the result. */
  lemma FlashBranchIgnoresAttend<T>(heads: nat, enableFlash: bool, q: Tensor<T>, k: Tensor<T>, v: Tensor<T>,
                                    mask: Option<Tensor<T>>, kern: Kernels<T>,
                                    attend2: (Tensor<T>, Tensor<T>, Tensor<T>, Option<Tensor<T>>) -> Result<Tensor<T>>)
    requires |q.shape| == 3 && |k.shape| == 3 && |v.shape| == 3 && heads > 0
    requires UsesFlash(enableFlash, q.shape[1], k.shape[1], q.shape[2] / heads)
    ensures CrossAttend(heads, enableFlash, q, k, v, mask, kern)
         == CrossAttend(heads, enableFlash, q, k, v, mask, kern.(attend := attend2))
  {
  }

  /** When the test fails the accelerated kernel is not called. */
  lemma GenericBranchIgnoresFlash<T>(heads: nat, enableFlash: bool, q: Tensor<T>, k: Tensor<T>, v: Tensor<T>,
                                     mask: Option<Tensor<T>>, kern: Kernels<T>,
                                     flash2: (Tensor<T>, Tensor<T>, Tensor<T>, Option<Tensor<T>>) -> Result<Tensor<T>>,
                                     zero2: T)
    requires |q.shape| == 3 && |k.shape| == 3 && |v.shape| == 3 && heads > 0
    requires !UsesFlash(enableFlash, q.shape[1], k.shape[1], q.shape[2] / heads)
    ensures CrossAttend(heads, enableFlash, q, k, v, mask, kern)
         == CrossAttend(heads, enableFlash, q, k, v, mask, kern.(flash := flash2, maskZero := zero2))
  {
  }

  /** A kernel whose result always has the extents of its first argument. */
  ghost predicate KeepsShape<T(!new)>(f: (Tensor<T>, Tensor<T>, Tensor<T>, Option<Tensor<T>>) -> Result<Tensor<T>>)
  {
    forall a, b, c, m :: f(a, b, c, m).Ok? && f(a, b, c, m).value.shape == a.shape
  }

  /** The accelerated branch on `(b, n, h*d)` queries with non-empty
      keys and values of `h*d` channels gives back `(b, n, h*d)`. */
  lemma FlashPathKeepsShape<T(!new)>(heads: nat, q: Tensor<T>, k: Tensor<T>, v: Tensor<T>,
                                     mask: Option<Tensor<T>>, kern: Kernels<T>,
                                     b: nat, n: nat, kb: nat, kn: nat, vb: nat, vn: nat, d: nat)
    requires q.shape == [b, n, heads * d] && k.shape == [kb, kn, heads * d] && v.shape == [vb, vn, heads * d]
    requires b * n * heads > 0 && kb * kn * heads > 0 && vb * vn * heads > 0
    requires KeepsShape(kern.flash)
    ensures FlashPath(heads, q, k, v, mask, kern).Ok?
    ensures FlashPath(heads, q, k, v, mask, kern).value.shape == q.shape
  {
    var q4 := SplitChannels(q, b, heads, n, d);
    var k4 := SplitChannels(k, kb, heads, kn, d);
    var v4 := SplitChannels(v, vb, heads, vn, d);
    var m := FlashMask(mask, b, n, kern.maskZero);
    var out := kern.flash(Transpose0213(q4), Transpose0213(k4), Transpose0213(v4), Some(m)).value;
    assert b * n > 0;
    var r := MergeChannels(out, b, heads, n, d);
  }

  /** The generic branch on `(b, n, h*d)` queries with keys and values of
      `h*d` channels gives back `(b, n, h*d)`. */
  lemma FoldedPathKeepsShape<T(!new)>(heads: nat, q: Tensor<T>, k: Tensor<T>, v: Tensor<T>,
                                      mask: Option<Tensor<T>>, kern: Kernels<T>,
                                      b: nat, n: nat, kb: nat, kn: nat, vb: nat, vn: nat, d: nat)
    requires q.shape == [b, n, heads * d] && k.shape == [kb, kn, heads * d] && v.shape == [vb, vn, heads * d]
    requires heads > 0 && KeepsShape(kern.attend)
    ensures FoldedPath(heads, q, k, v, mask, kern).Ok?
    ensures FoldedPath(heads, q, k, v, mask, kern).value.shape == q.shape
  {
    var q4, q3 := FoldSteps(q, b, heads, n, d);
    var k4, k3 := FoldSteps(k, kb, heads, kn, d);
    var v4, v3 := FoldSteps(v, vb, heads, vn, d);
    var out := kern.attend(q3, k3, v3, mask).value;
    var out4, r := UnfoldSteps(out, b, heads, n, d);
  }

  /** With kernels that keep the shape of the queries, both branches give
      back a tensor of the query's extents `(b, n, h*d)`. */
  lemma CrossAttendKeepsShape<T(!new)>(heads: nat, enableFlash: bool, q: Tensor<T>, k: Tensor<T>, v: Tensor<T>,
                                       mask: Option<Tensor<T>>, kern: Kernels<T>,
                                       b: nat, n: nat, kb: nat, kn: nat, vb: nat, vn: nat, d: nat)
    requires q.shape == [b, n, heads * d] && k.shape == [kb, kn, heads * d] && v.shape == [vb, vn, heads * d]
    requires heads > 0 && b * n > 0 && kb * kn > 0 && vb * vn > 0
    requires KeepsShape(kern.attend) && KeepsShape(kern.flash)
    ensures CrossAttend(heads, enableFlash, q, k, v, mask, kern).Ok?
    ensures CrossAttend(heads, enableFlash, q, k, v, mask, kern).value.shape == q.shape
  {
    MulPos(b * n, heads);
    MulPos(kb * kn, heads);
    MulPos(vb * vn, heads);
    FlashPathKeepsShape(heads, q, k, v, mask, kern, b, n, kb, kn, vb, vn, d);
    FoldedPathKeepsShape(heads, q, k, v, mask, kern, b, n, kb, kn, vb, vn, d);
  }

  /** Lines 228-263 of `CrossFrameAttention.construct` for the keys and the
      values: left alone in cross-attention mode, and otherwise every frame
      replaced by the first frame of its group, with
      `video_length = k.shape[0] // unet_chunk_size` taken from the keys. */
  function CrossFrameKeyValues<T>(k: Tensor<T>, v: Tensor<T>, isCrossAttention: bool, chunk: nat)
    : (r: Result<(Tensor<T>, Tensor<T>)>)
    ensures isCrossAttention ==> r == Ok((k, v))
    ensures !isCrossAttention && VideoLength(k, chunk).Err? ==> r == Err(VideoLength(k, chunk).error)
  {
    if isCrossAttention then Ok((k, v))
    else
      var videoLength :- VideoLength(k, chunk);
      var k2 :- ShareFirstFrame(k, videoLength);
      var v2 :- ShareFirstFrame(v, videoLength);
      Ok((k2, v2))
  }

  /** The substituted keys and values in self-attention mode are the two
      `ShareFirstFrame` results, with the video length taken from the keys. */
  lemma SelfModeSteps<T>(k: Tensor<T>, v: Tensor<T>, chunk: nat, g: nat, vl: nat, n: nat, d: nat, m: nat, e: nat)
    returns (k2: Tensor<T>, v2: Tensor<T>)
    requires k.shape == [g * vl, n, d] && v.shape == [g * vl, m, e] && vl > 0
    requires vl * chunk <= g * vl < (vl + 1) * chunk
    ensures ShareFirstFrame(k, vl) == Ok(k2) && ShareFirstFrame(v, vl) == Ok(v2)
    ensures CrossFrameKeyValues(k, v, false, chunk) == Ok((k2, v2))
  {
    VideoLengthOf(k, chunk, vl);
    var gk, sk;
    var gv, sv;
    gk, sk, k2 := ShareSteps(k, g, vl, n, d);
    gv, sv, v2 := ShareSteps(v, g, vl, m, e);
  }

  /** In self-attention mode, with a batch of `g` groups of `vl` frames
      where `vl` is the video length `(g*vl) // unet_chunk_size`, keys and
      values keep their extents and frame `fi` of group `gi` of each is frame
      `0` of that group of the projected one. */
  lemma SelfModeSharesFirstFrame<T>(k: Tensor<T>, v: Tensor<T>, chunk: nat, g: nat, vl: nat,
                                    n: nat, d: nat, m: nat, e: nat,
                                    gi: nat, fi: nat, ni: nat, di: nat, mi: nat, ei: nat)
    requires k.shape == [g * vl, n, d] && v.shape == [g * vl, m, e]
    requires vl * chunk <= g * vl < (vl + 1) * chunk
    requires gi < g && fi < vl && ni < n && di < d && mi < m && ei < e
    ensures CrossFrameKeyValues(k, v, false, chunk).Ok?
    ensures var kv := CrossFrameKeyValues(k, v, false, chunk).value;
      && kv.0.shape == k.shape && kv.1.shape == v.shape
      && Flat2(gi, vl, fi) < g * vl && Flat2(gi, vl, 0) < g * vl
      && At3(kv.0, Flat2(gi, vl, fi), ni, di) == At3(k, Flat2(gi, vl, 0), ni, di)
      && At3(kv.1, Flat2(gi, vl, fi), mi, ei) == At3(v, Flat2(gi, vl, 0), mi, ei)
  {
    var k2, v2 := SelfModeSteps(k, v, chunk, g, vl, n, d, m, e);
    ShareFirstFrameAt(k, g, vl, n, d, gi, fi, ni, di);
    ShareFirstFrameAt(v, g, vl, m, e, gi, fi, mi, ei);
  }

  /** Lines 265-287 of `CrossFrameAttention.construct`, from the keys and
      values after substitution to the tensor handed to `to_out`. The
      accelerated kernel gets the folded `(b*h, n, d)` tensors and no mask. */
  function CrossFrameAttend<T>(heads: nat, enableFlash: bool, q: Tensor<T>, k: Tensor<T>, v: Tensor<T>,
                               mask: Option<Tensor<T>>, kern: Kernels<T>): (r: Result<Tensor<T>>)
    ensures RearrangeIn(q, heads).Err? ==> r == RearrangeIn(q, heads)
  {
    var q3 :- RearrangeIn(q, heads);
    var k3 :- RearrangeIn(k, heads);
    var v3 :- RearrangeIn(v, heads);
    var out :- if CrossFrameUsesFlash(enableFlash, q3.shape[1], k3.shape[1])
               then kern.flash(q3, k3, v3, None)
               else kern.attend(q3, k3, v3, mask);
    RearrangeOut(out, heads)
  }

  /** `CrossFrameAttention.construct(x, context, mask)`. */
  function CrossFrameForward<T>(cfg: Config, chunk: nat, proj: Projections<T>, kern: Kernels<T>,
                                x: Tensor<T>, context: Option<Tensor<T>>, mask: Option<Tensor<T>>)
    : (r: Result<Tensor<T>>)
    ensures proj.toQ(x).Err? ==> r == proj.toQ(x)
  {
    var q :- proj.toQ(x);
    var isCrossAttention := Exists(context);
    var ctx := Default(context, Constant(x));
    var k :- proj.toK(ctx);
    var v :- proj.toV(ctx);
    var kv :- CrossFrameKeyValues(k, v, isCrossAttention, chunk);
    var out :- CrossFrameAttend(cfg.heads, cfg.enableFlash, q, kv.0, kv.1, mask, kern);
    proj.toOut(out)
  }

  /** With shape-keeping kernels the cross-frame attention returns a tensor
      of the query's extents `(b, n, h*d)`, whichever kernel runs. */
  lemma CrossFrameAttendKeepsShape<T(!new)>(heads: nat, enableFlash: bool, q: Tensor<T>, k: Tensor<T>, v: Tensor<T>,
                                            mask: Option<Tensor<T>>, kern: Kernels<T>,
                                            b: nat, n: nat, kb: nat, kn: nat, vb: nat, vn: nat, d: nat)
    requires q.shape == [b, n, heads * d] && k.shape == [kb, kn, heads * d] && v.shape == [vb, vn, heads * d]
    requires heads > 0 && KeepsShape(kern.attend) && KeepsShape(kern.flash)
    ensures CrossFrameAttend(heads, enableFlash, q, k, v, mask, kern).Ok?
    ensures CrossFrameAttend(heads, enableFlash, q, k, v, mask, kern).value.shape == q.shape
  {
    var q4, q3 := FoldSteps(q, b, heads, n, d);
    var k4, k3 := FoldSteps(k, kb, heads, kn, d);
    var v4, v3 := FoldSteps(v, vb, heads, vn, d);
    var out := if CrossFrameUsesFlash(enableFlash, q3.shape[1], k3.shape[1])
               then kern.flash(q3, k3, v3, None).value
               else kern.attend(q3, k3, v3, mask).value;
    var out4, r := UnfoldSteps(out, b, heads, n, d);
  }

  /** `CrossFrameAttention.construct` as written: its local reshapes go
      through `self.reshape`, which neither `CrossFrameAttention` nor
      `CrossAttention` sets, so every call raises, at the latest at the first
      `self.reshape`. In self-attention mode that is in `rearange_frame` on the
      keys (line 247), after the video length, the unpack of `k.shape` and
      `b // f`; in cross-attention mode it is in `rearange_in` on the queries
      (line 239), after the unpack of `q.shape` and `d // h`. */
  function CrossFrameForwardAsWritten<T>(cfg: Config, chunk: nat, proj: Projections<T>, kern: Kernels<T>,
                                         x: Tensor<T>, context: Option<Tensor<T>>, mask: Option<Tensor<T>>)
    : (r: Result<Tensor<T>>)
    ensures r.Err?
    ensures var ctx := Default(context, Constant(x));
      (proj.toQ(x).Ok? && proj.toK(ctx).Ok? && proj.toV(ctx).Ok?) ==>
        && (context.Some? && |proj.toQ(x).value.shape| == 3 && cfg.heads > 0 ==> r == Err(MissingAttribute))
        && ((context.None? && |proj.toK(ctx).value.shape| == 3 && chunk > 0 &&
             proj.toK(ctx).value.shape[0] / chunk > 0) ==> r == Err(MissingAttribute))
  {
    var q :- proj.toQ(x);
    var isCrossAttention := Exists(context);
    var ctx := Default(context, Constant(x));
    var k :- proj.toK(ctx);
    var v :- proj.toV(ctx);
    if !isCrossAttention then
      var videoLength :- VideoLength(k, chunk);
      // `rearange_frame(k, video_length)`: unpack, `b // f`, then `self.reshape`
      if |k.shape| != 3 then Err(RankMismatch)
      else if videoLength == 0 then Err(DivisionByZero)
      else Err(MissingAttribute)
    else
      // `rearange_in(q)`: unpack, `d // h`, then `self.reshape`
      if |q.shape| != 3 then Err(RankMismatch)
      else if cfg.heads == 0 then Err(DivisionByZero)
      else Err(MissingAttribute)
  }

  /** Up to the first `self.reshape` the code as written and the corrected
      model take the same steps: wherever the former fails for another
      reason, the latter fails with the same error. */
  lemma AsWrittenAgreesBeforeReshape<T>(cfg: Config, chunk: nat, proj: Projections<T>, kern: Kernels<T>,
                                        x: Tensor<T>, context: Option<Tensor<T>>, mask: Option<Tensor<T>>)
    ensures CrossFrameForwardAsWritten(cfg, chunk, proj, kern, x, context, mask) != Err(MissingAttribute) ==>
      CrossFrameForwardAsWritten(cfg, chunk, proj, kern, x, context, mask)
        == CrossFrameForward(cfg, chunk, proj, kern, x, context, mask)
  {
  }

  /** In self-attention mode a batch shorter than `unet_chunk_size` has
      video length 0, so the code as written stops at `b // f` before any
      reshape, with the same error as the corrected model. */
  lemma AsWrittenZeroVideoLength()
    ensures var cfg := Config(1, 1, 1, 1, 1, false);
      var id := (t: Tensor<int>) => Ok(t);
      var proj := Projections(id, id, id, id);
      var kern := Kernels((a: Tensor<int>, b: Tensor<int>, c: Tensor<int>, m: Option<Tensor<int>>) => Ok(a),
                          (a: Tensor<int>, b: Tensor<int>, c: Tensor<int>, m: Option<Tensor<int>>) => Ok(a), 0);
      var x: Tensor<int> := Buffer([1, 1, 1], [7]);
      && CrossFrameForwardAsWritten(cfg, 2, proj, kern, x, None, None) == Err(DivisionByZero)
      && CrossFrameForward(cfg, 2, proj, kern, x, None, None) == Err(DivisionByZero)
  {
    var x: Tensor<int> := Buffer([1, 1, 1], [7]);
    assert VideoLength(x, 2) == Ok(0);
  }

  /** A concrete input on which the code as written fails and the corrected
      model succeeds: identity projections and kernels, one head, a
      `(1, 1, 1)` input and a context. */
  lemma CrossFrameReshapeFinding()
    ensures var cfg := Config(1, 1, 1, 1, 1, false);
      var id := (t: Tensor<int>) => Ok(t);
      var proj := Projections(id, id, id, id);
      var kern := Kernels((a: Tensor<int>, b: Tensor<int>, c: Tensor<int>, m: Option<Tensor<int>>) => Ok(a),
                          (a: Tensor<int>, b: Tensor<int>, c: Tensor<int>, m: Option<Tensor<int>>) => Ok(a), 0);
      var x: Tensor<int> := Buffer([1, 1, 1], [7]);
      && CrossFrameForwardAsWritten(cfg, 2, proj, kern, x, Some(x), None) == Err(MissingAttribute)
      && CrossFrameForward(cfg, 2, proj, kern, x, Some(x), None).Ok?
      && CrossFrameForward(cfg, 2, proj, kern, x, Some(x), None).value.shape == [1, 1, 1]
  {
    var cfg := Config(1, 1, 1, 1, 1, false);
    var id := (t: Tensor<int>) => Ok(t);
    var proj := Projections(id, id, id, id);
    var kern := Kernels((a: Tensor<int>, b: Tensor<int>, c: Tensor<int>, m: Option<Tensor<int>>) => Ok(a),
                        (a: Tensor<int>, b: Tensor<int>, c: Tensor<int>, m: Option<Tensor<int>>) => Ok(a), 0);
    var x: Tensor<int> := Buffer([1, 1, 1], [7]);
    assert KeepsShape(kern.attend) && KeepsShape(kern.flash);
    CrossFrameAttendKeepsShape(1, false, x, x, x, None, kern, 1, 1, 1, 1, 1, 1, 1);
  }

  /** With a context given, the chunk size plays no part. */
  lemma CrossModeIgnoresChunk<T>(cfg: Config, chunk: nat, chunk2: nat, proj: Projections<T>, kern: Kernels<T>,
                                 x: Tensor<T>, c: Tensor<T>, mask: Option<Tensor<T>>)
    ensures CrossFrameForward(cfg, chunk, proj, kern, x, Some(c), mask)
         == CrossFrameForward(cfg, chunk2, proj, kern, x, Some(c), mask)
  {
  }

  /** When the cross-frame test holds the generic attention is not called. */
  lemma CrossFrameFlashIgnoresAttend<T>(heads: nat, enableFlash: bool, q: Tensor<T>, k: Tensor<T>, v: Tensor<T>,
                                        mask: Option<Tensor<T>>, kern: Kernels<T>,
                                        attend2: (Tensor<T>, Tensor<T>, Tensor<T>, Option<Tensor<T>>) -> Result<Tensor<T>>)
    requires RearrangeIn(q, heads).Ok? && RearrangeIn(k, heads).Ok?
    requires CrossFrameUsesFlash(enableFlash, q.shape[1], k.shape[1])
    ensures CrossFrameAttend(heads, enableFlash, q, k, v, mask, kern)
         == CrossFrameAttend(heads, enableFlash, q, k, v, mask, kern.(attend := attend2))
  {
  }

  /** When the cross-frame test fails the accelerated kernel is not called. */
  lemma CrossFrameGenericIgnoresFlash<T>(heads: nat, enableFlash: bool, q: Tensor<T>, k: Tensor<T>, v: Tensor<T>,
                                         mask: Option<Tensor<T>>, kern: Kernels<T>,
                                         flash2: (Tensor<T>, Tensor<T>, Tensor<T>, Option<Tensor<T>>) -> Result<Tensor<T>>,
                                         zero2: T)
    requires RearrangeIn(q, heads).Ok? && RearrangeIn(k, heads).Ok?
    requires !CrossFrameUsesFlash(enableFlash, q.shape[1], k.shape[1])
    ensures CrossFrameAttend(heads, enableFlash, q, k, v, mask, kern)
         == CrossFrameAttend(heads, enableFlash, q, k, v, mask, kern.(flash := flash2, maskZero := zero2))
  {
  }
}
