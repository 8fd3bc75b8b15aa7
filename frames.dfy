/** Cross-frame key/value substitution of `CrossFrameAttention.construct`.

    In self-attention mode the keys (and values) of a batch holding
    `chunk` groups of `video_length` frames are regrouped by frame, every
    frame of a group is replaced by the group's first frame, and the batch
    is flattened back. */
module Frames {
  import opened Arith
  import opened Tensors

  /** `rearange_frame(x, f)`: `(B, n, d) -> (B/f, f, n, d)`. */
  function RearrangeFrame<T>(x: Tensor<T>, f: nat): (r: Result<Tensor<T>>)
    ensures r.Ok? <==>
      |x.shape| == 3 && f > 0 && (x.shape[0] % f == 0 || x.shape[1] * x.shape[2] == 0)
    ensures r.Ok? ==>
      r.value.shape == [x.shape[0] / f, f, x.shape[1], x.shape[2]] && r.value.data == x.data
  {
    if |x.shape| != 3 then Err(RankMismatch)
    else if f == 0 then Err(DivisionByZero)
    else
      var B, n, d := x.shape[0], x.shape[1], x.shape[2];
      assert x.shape == [B, n, d];
      GroupCounts(B, n, d, f);
      Reshape(x, [B / f, f, n, d])
  }

  /** `rearange_frame_back(x)`: `(b, f, n, d) -> (b*f, n, d)`. */
  function RearrangeFrameBack<T>(x: Tensor<T>): (r: Result<Tensor<T>>)
    ensures r.Ok? <==> |x.shape| == 4
    ensures r.Ok? ==>
      r.value.shape == [x.shape[0] * x.shape[1], x.shape[2], x.shape[3]] && r.value.data == x.data
  {
    if |x.shape| != 4 then Err(RankMismatch)
    else
      var b, f, n, d := x.shape[0], x.shape[1], x.shape[2], x.shape[3];
      Numel4(x.shape);
      Numel3([b * f, n, d]);
      Reshape(x, [b * f, n, d])
  }

  lemma NumelLead2(s: seq<nat>)
    requires |s| >= 2
    ensures Numel(s) == s[0] * s[1] * Numel(s[2..])
  {
    var t := s[1..];
    assert t[0] == s[1] && t[1..] == s[2..];
    MulAssoc(s[0], s[1], Numel(s[2..]));
  }

  /** Where element `p` of the gathered buffer (extents `A, |idx|, M`)
      comes from in the source buffer (extents `A, F, M`). */
  function GatherSource(p: nat, idx: seq<nat>, A: nat, F: nat, M: nat): (s: nat)
    requires p < A * |idx| * M
    requires forall j | 0 <= j < |idx| :: idx[j] < F
    ensures s < A * F * M
  {
    Off3OfCoords(p, A, |idx|, M);
    var c := Coords3(p, |idx|, M);
    Off3Bound(c.0, idx[c.1], c.2, A, F, M);
    Off3(c.0, idx[c.1], c.2, F, M)
  }

  /** `x[:, idx]`: pick the entries `idx` along the second axis. */
  function TakeFrames<T>(x: Tensor<T>, idx: seq<nat>): (r: Result<Tensor<T>>)
    ensures r.Ok? <==> |x.shape| >= 2 && forall j | 0 <= j < |idx| :: idx[j] < x.shape[1]
    ensures r.Ok? ==> r.value.shape == [x.shape[0], |idx|] + x.shape[2..]
  {
    if |x.shape| < 2 then Err(IndexOutOfRange)
    else if exists j | 0 <= j < |idx| :: idx[j] >= x.shape[1] then Err(IndexOutOfRange)
    else
      var A, F, M, J := x.shape[0], x.shape[1], Numel(x.shape[2..]), |idx|;
      var shape := [A, J] + x.shape[2..];
      NumelLead2(x.shape);
      NumelLead2(shape);
      assert shape[2..] == x.shape[2..];
      Ok(Buffer(shape, seq(A * J * M, p requires 0 <= p < A * J * M => x.data[GatherSource(p, idx, A, F, M)])))
  }

  /** Entry `j` of the gathered rank-4 tensor is entry `idx[j]` of the source. */
  lemma TakeFramesAt<T>(x: Tensor<T>, idx: seq<nat>, i: nat, j: nat, k: nat, l: nat)
    requires |x.shape| == 4 && TakeFrames(x, idx).Ok?
    requires i < x.shape[0] && j < |idx| && k < x.shape[2] && l < x.shape[3]
    ensures var r := TakeFrames(x, idx).value;
      && r.shape == [x.shape[0], |idx|, x.shape[2], x.shape[3]]
      && At4(r, i, j, k, l) == At4(x, i, idx[j], k, l)
  {
    var A, F, n, d, J := x.shape[0], x.shape[1], x.shape[2], x.shape[3], |idx|;
    var r := TakeFrames(x, idx).value;
    assert r.shape == [A, J, n, d];
    NumelLead2(x.shape);
    Numel2(x.shape[2..]);
    var M := n * d;
    Numel4(r.shape);
    MulAddLt(k, n, d, l);
    Off3Bound(i, j, k * d + l, A, J, M);
    SplitOffset(i, j, k, l, J, n, d);
    SplitOffset(i, idx[j], k, l, F, n, d);
    Coords3Of(i, j, k * d + l, J, M);
    assert GatherSource(Off3(i, j, k * d + l, J, M), idx, A, F, M) == Off3(i, idx[j], k * d + l, F, M);
    assert At4(r, i, j, k, l) == r.data[Off3(i, j, k * d + l, J, M)];
  }

  /** `[0] * video_length`. */
  function FirstFrameIndex(videoLength: nat): (idx: seq<nat>)
    ensures |idx| == videoLength && forall j | 0 <= j < |idx| :: idx[j] == 0
  {
    seq(videoLength, _ => 0)
  }

  /** `video_length = k.shape[0] // unet_chunk_size`. */
  function VideoLength<T>(k: Tensor<T>, chunk: nat): (r: Result<nat>)
    ensures r.Ok? <==> |k.shape| > 0 && chunk > 0
    ensures r.Ok? ==> r.value * chunk <= k.shape[0] < (r.value + 1) * chunk
  {
    if |k.shape| == 0 then Err(IndexOutOfRange)
    else if chunk == 0 then Err(DivisionByZero)
    else
      DivModOf(k.shape[0] / chunk, k.shape[0] % chunk, chunk);
      Ok(k.shape[0] / chunk)
  }

  /** One of `k` and `v` in self-attention mode: regroup the batch into
      groups of `videoLength` frames, replace each frame by the first of its
      group and flatten the batch again. */
  function ShareFirstFrame<T>(x: Tensor<T>, videoLength: nat): (r: Result<Tensor<T>>)
    ensures r.Ok? <==>
      |x.shape| == 3 && videoLength > 0 && (x.shape[0] % videoLength == 0 || x.shape[1] * x.shape[2] == 0)
    ensures r.Ok? ==>
      r.value.shape == [(x.shape[0] / videoLength) * videoLength, x.shape[1], x.shape[2]]
  {
    var g :- RearrangeFrame(x, videoLength);
    // every index is 0 and the frame axis is `videoLength > 0` long, so the
    // gather cannot fail
    var s := TakeFrames(g, FirstFrameIndex(videoLength)).value;
    RearrangeFrameBack(s)
  }

  /** The intermediate tensors of `ShareFirstFrame` on a batch of `g` groups
      of `vl` frames. */
  lemma ShareSteps<T>(x: Tensor<T>, g: nat, vl: nat, n: nat, d: nat)
    returns (grouped: Tensor<T>, shared: Tensor<T>, out: Tensor<T>)
    requires x.shape == [g * vl, n, d] && vl > 0
    ensures grouped.shape == [g, vl, n, d] && grouped.data == x.data
    ensures TakeFrames(grouped, FirstFrameIndex(vl)) == Ok(shared)
    ensures out.shape == [g * vl, n, d] && out.data == shared.data
    ensures ShareFirstFrame(x, vl) == Ok(out)
  {
    DivModOf(g, 0, vl);
    grouped := RearrangeFrame(x, vl).value;
    shared := TakeFrames(grouped, FirstFrameIndex(vl)).value;
    assert shared.shape == [g, vl, n, d];
    out := RearrangeFrameBack(shared).value;
  }

  /** Frame `fi` of group `gi` after substitution is frame `0` of the same
      group: row `gi*vl + fi` is a copy of row `gi*vl`, and the batch keeps
      its size. */
  lemma ShareFirstFrameAt<T>(x: Tensor<T>, g: nat, vl: nat, n: nat, d: nat,
                             gi: nat, fi: nat, ni: nat, di: nat)
    requires x.shape == [g * vl, n, d]
    requires gi < g && fi < vl && ni < n && di < d
    ensures ShareFirstFrame(x, vl).Ok?
    ensures var out := ShareFirstFrame(x, vl).value;
      && out.shape == x.shape && Flat2(gi, vl, fi) < g * vl && Flat2(gi, vl, 0) < g * vl
      && At3(out, Flat2(gi, vl, fi), ni, di) == At3(x, Flat2(gi, vl, 0), ni, di)
  {
    MulAddLt(gi, g, vl, fi);
    var grouped, shared, out := ShareSteps(x, g, vl, n, d);
    SharedRowAt(x, grouped, shared, out, gi, fi, ni, di);
  }

  lemma SharedRowAt<T>(x: Tensor<T>, grouped: Tensor<T>, shared: Tensor<T>, out: Tensor<T>,
                       gi: nat, fi: nat, ni: nat, di: nat)
    requires |grouped.shape| == 4 && grouped.data == x.data
    requires x.shape == [grouped.shape[0] * grouped.shape[1], grouped.shape[2], grouped.shape[3]]
    requires TakeFrames(grouped, FirstFrameIndex(grouped.shape[1])) == Ok(shared)
    requires out.shape == x.shape && out.data == shared.data
    requires gi < grouped.shape[0] && fi < grouped.shape[1] && ni < grouped.shape[2] && di < grouped.shape[3]
    ensures Flat2(gi, grouped.shape[1], fi) < x.shape[0]
    ensures At3(out, Flat2(gi, grouped.shape[1], fi), ni, di) == At3(x, Flat2(gi, grouped.shape[1], 0), ni, di)
  {
    var vl := grouped.shape[1];
    MulAddLt(gi, grouped.shape[0], vl, fi);
    TakeFramesAt(grouped, FirstFrameIndex(vl), gi, fi, ni, di);
    MergeLeadingAt(shared, out, gi, fi, ni, di);
    MergeLeadingAt(grouped, x, gi, 0, ni, di);
  }

  /** Conversely, every batch of `vl*chunk` up to `(vl+1)*chunk - 1` rows
      has video length `vl`. */
  lemma VideoLengthOf<T>(x: Tensor<T>, chunk: nat, vl: nat)
    requires |x.shape| > 0 && vl * chunk <= x.shape[0] < (vl + 1) * chunk
    ensures VideoLength(x, chunk) == Ok(vl)
  {
    assert (vl + 1) * chunk == vl * chunk + chunk;
    DivModOf(vl, x.shape[0] - vl * chunk, chunk);
  }
}
