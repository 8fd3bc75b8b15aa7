/** Moving attention heads between the channel axis and the batch axis.

    The generic path folds heads into the batch, `(b, n, h*d) -> (b*h, n, d)`,
    and unfolds them afterwards (`CrossAttention._rearange_in` and
    `_rearange_out`, and the local copies in `CrossFrameAttention.construct`).
    The accelerated path keeps heads on an axis of their own,
    `(b, n, h*d) -> (b, h, n, d)`, and flattens the kernel's output back. */
module Heads {
  import opened Arith
  import opened Tensors

  /** `_rearange_in(x, h)`: split the channels into `h` heads and fold the
      heads into the batch axis. */
  function RearrangeIn<T>(x: Tensor<T>, h: nat): (r: Result<Tensor<T>>)
    ensures r.Ok? <==>
      |x.shape| == 3 && h > 0 && (x.shape[2] % h == 0 || x.shape[0] * x.shape[1] == 0)
    ensures r.Ok? ==> r.value.shape == [x.shape[0] * h, x.shape[1], x.shape[2] / h]
  {
    if |x.shape| != 3 then Err(RankMismatch)
    else if h == 0 then Err(DivisionByZero)
    else
      var b, n, c := x.shape[0], x.shape[1], x.shape[2];
      var d := c / h;
      assert x.shape == [b, n, c];
      SplitCounts(b, n, c, h);
      var x4 :- Reshape(x, [b, n, h, d]);
      var y := Transpose0213(x4);
      Reshape(y, [b * h, n, d])
  }

  /** `_rearange_out(x, h)`: unfold the heads from the batch axis back into
      the channels. */
  function RearrangeOut<T>(x: Tensor<T>, h: nat): (r: Result<Tensor<T>>)
    ensures r.Ok? <==>
      |x.shape| == 3 && h > 0 && (x.shape[0] % h == 0 || x.shape[1] * x.shape[2] == 0)
    ensures r.Ok? ==> r.value.shape == [x.shape[0] / h, x.shape[1], h * x.shape[2]]
  {
    if |x.shape| != 3 then Err(RankMismatch)
    else if h == 0 then Err(DivisionByZero)
    else
      var B, n, d := x.shape[0], x.shape[1], x.shape[2];
      var b := B / h;
      assert x.shape == [B, n, d];
      GroupCounts(B, n, d, h);
      var x4 :- Reshape(x, [b, h, n, d]);
      var y := Transpose0213(x4);
      Reshape(y, [b, n, h * d])
  }

  /** Element `(bi*h + hi, ni, di)` of the folded tensor is channel
      `hi*d + di` of token `ni` in batch entry `bi`. */
  lemma RearrangeInAt<T>(x: Tensor<T>, b: nat, h: nat, n: nat, d: nat, bi: nat, hi: nat, ni: nat, di: nat)
    requires x.shape == [b, n, h * d]
    requires bi < b && hi < h && ni < n && di < d
    ensures RearrangeIn(x, h).Ok?
    ensures var y := RearrangeIn(x, h).value;
      && y.shape == [b * h, n, d] && Flat2(bi, h, hi) < b * h && Flat2(hi, d, di) < h * d
      && At3(y, Flat2(bi, h, hi), ni, di) == At3(x, bi, ni, Flat2(hi, d, di))
  {
    MulAddLt(bi, b, h, hi);
    MulAddLt(hi, h, d, di);
    var x4, y := FoldSteps(x, b, h, n, d);
    var t := Transpose0213(x4);
    MergeLeadingAt(t, y, bi, hi, ni, di);
    TransposeAt(x4, bi, hi, ni, di);
    MergeTrailingAt(x4, x, bi, ni, hi, di);
  }

  /** Channel `hi*d + di` of the unfolded tensor at `(bi, ni)` is element
      `(bi*h + hi, ni, di)` of the folded one. The batch extent is written
      `b*h`: every folded tensor with at least one element has that form. */
  lemma RearrangeOutAt<T>(x: Tensor<T>, b: nat, h: nat, n: nat, d: nat, bi: nat, hi: nat, ni: nat, di: nat)
    requires x.shape == [b * h, n, d] && h > 0
    requires bi < b && hi < h && ni < n && di < d
    ensures RearrangeOut(x, h).Ok?
    ensures var y := RearrangeOut(x, h).value;
      && y.shape == [b, n, h * d] && Flat2(bi, h, hi) < b * h && Flat2(hi, d, di) < h * d
      && At3(y, bi, ni, Flat2(hi, d, di)) == At3(x, Flat2(bi, h, hi), ni, di)
  {
    DivModOf(b, 0, h);
    MulAddLt(bi, b, h, hi);
    MulAddLt(hi, h, d, di);
    var y := RearrangeOut(x, h).value;
    Numel3(x.shape);
    Numel4([b, h, n, d]);
    ExactGroup(b * h, h, n, d);
    var x4 := Reshape(x, [b, h, n, d]).value;
    var t := Transpose0213(x4);
    assert y.data == t.data;
    assert t.shape == [b, n, h, d] && x4.shape[1] == h;
    MergeTrailingAt(t, y, bi, ni, hi, di);
    TransposeAt(x4, bi, ni, hi, di);
    MergeLeadingAt(x4, x, bi, hi, ni, di);
  }

  /** The steps of `RearrangeIn` on a tensor of extents `(b, n, h*d)`: the
      reshape to `(b, n, h, d)` and the folded result over the transposed
      elements. */
  lemma FoldSteps<T>(x: Tensor<T>, b: nat, h: nat, n: nat, d: nat) returns (x4: Tensor<T>, y: Tensor<T>)
    requires x.shape == [b, n, h * d] && h > 0
    ensures Reshape(x, [b, n, h, d]) == Ok(x4) && x4.shape == [b, n, h, d] && x4.data == x.data
    ensures RearrangeIn(x, h) == Ok(y)
    ensures y.shape == [b * h, n, d] && y.data == Transpose0213(x4).data
  {
    DivModOf(d, 0, h);
    Numel3(x.shape);
    Numel4([b, n, h, d]);
    ExactSplit(b * n, h * d, h);
    x4 := Reshape(x, [b, n, h, d]).value;
    y := RearrangeIn(x, h).value;
  }

  /** The steps of `RearrangeOut` on a tensor of extents `(b*h, n, d)`. */
  lemma UnfoldSteps<T>(y: Tensor<T>, b: nat, h: nat, n: nat, d: nat) returns (y4: Tensor<T>, z: Tensor<T>)
    requires y.shape == [b * h, n, d] && h > 0
    ensures Reshape(y, [b, h, n, d]) == Ok(y4) && y4.shape == [b, h, n, d] && y4.data == y.data
    ensures RearrangeOut(y, h) == Ok(z)
    ensures z.shape == [b, n, h * d] && z.data == Transpose0213(y4).data
  {
    DivModOf(b, 0, h);
    Numel3(y.shape);
    Numel4([b, h, n, d]);
    ExactGroup(b * h, h, n, d);
    y4 := Reshape(y, [b, h, n, d]).value;
    z := RearrangeOut(y, h).value;
  }

  /** Folding then unfolding the heads gives back the input. */
  lemma RearrangeRoundTrip<T>(x: Tensor<T>, b: nat, h: nat, n: nat, d: nat)
    requires x.shape == [b, n, h * d] && h > 0
    ensures RearrangeIn(x, h).Ok?
    ensures RearrangeOut(RearrangeIn(x, h).value, h) == Ok(x)
  {
    var x4, y := FoldSteps(x, b, h, n, d);
    var y4, z := UnfoldSteps(y, b, h, n, d);
    assert y4 == Transpose0213(x4);
    TransposeTwice(x4);
    assert z == x;
  }

  /** Unfolding then folding the heads gives back the input. */
  lemma RearrangeRoundTripOut<T>(y: Tensor<T>, b: nat, h: nat, n: nat, d: nat)
    requires y.shape == [b * h, n, d] && h > 0
    ensures RearrangeOut(y, h).Ok?
    ensures RearrangeIn(RearrangeOut(y, h).value, h) == Ok(y)
  {
    var y4, z := UnfoldSteps(y, b, h, n, d);
    var z4, w := FoldSteps(z, b, h, n, d);
    assert z4 == Transpose0213(y4);
    TransposeTwice(y4);
    assert w == y;
  }

  /** `x.view(b, n, h, -1).transpose(0, 2, 1, 3)`: the accelerated kernel's
      input layout `(b, h, n, d)`. */
  function ToHeads<T>(x: Tensor<T>, h: nat): (r: Result<Tensor<T>>)
    ensures r.Ok? <==> |x.shape| == 3 && x.shape[0] * x.shape[1] * h > 0 && x.shape[2] % h == 0
    ensures r.Ok? ==> r.value.shape == [x.shape[0], h, x.shape[1], x.shape[2] / h]
  {
    if |x.shape| != 3 then Err(RankMismatch)
    else
      var b, n, c := x.shape[0], x.shape[1], x.shape[2];
      Numel3(x.shape);
      Numel3([b, n, h]);
      if b * n * h > 0 then
        ScaledDivMod(b * n, c, h);
        assert b * n * c == Numel(x.shape);
        var x4 :- ViewInfer(x, [b, n, h]);
        assert x4.shape == [b, n, h, c / h];
        Ok(Transpose0213(x4))
      else
        ViewInfer(x, [b, n, h])
  }

  /** `out.transpose(0, 2, 1, 3).view(b, n, -1)`: the accelerated kernel's
      output `(b, h, n, d)` back to `(b, n, h*d)`. */
  function FromHeads<T>(o: Tensor<T>): (r: Result<Tensor<T>>)
    ensures r.Ok? <==> |o.shape| == 4 && o.shape[0] * o.shape[2] > 0
    ensures r.Ok? ==> r.value.shape == [o.shape[0], o.shape[2], o.shape[1] * o.shape[3]]
  {
    if |o.shape| != 4 then Err(RankMismatch)
    else
      var b, h, n, d := o.shape[0], o.shape[1], o.shape[2], o.shape[3];
      var y := Transpose0213(o);
      Numel4(y.shape);
      Numel2([b, n]);
      if b * n > 0 then
        DivModOf(h * d, 0, b * n);
        assert Numel(y.shape) == (h * d) * (b * n);
        NumelAppend([b, n], h * d);
        ViewInfer(y, [b, n])
      else
        ViewInfer(y, [b, n])
  }

  /** Head `hi` of batch entry `bi` in the accelerated layout holds channels
      `hi*d .. hi*d + d` of every token. */
  lemma ToHeadsAt<T>(x: Tensor<T>, h: nat, bi: nat, hi: nat, ni: nat, di: nat)
    requires ToHeads(x, h).Ok?
    requires bi < x.shape[0] && hi < h && ni < x.shape[1] && di < x.shape[2] / h
    ensures var y := ToHeads(x, h).value;
      && Flat2(hi, x.shape[2] / h, di) < x.shape[2]
      && At4(y, bi, hi, ni, di) == At3(x, bi, ni, Flat2(hi, x.shape[2] / h, di))
  {
    var b, n, d := x.shape[0], x.shape[1], x.shape[2] / h;
    assert x.shape[2] == h * d;
    var x4 := SplitChannels(x, b, h, n, d);
    SplitTransposeAt(x, x4, bi, hi, ni, di);
  }

  /** Element `(bi, hi, ni, di)` of `(b, n, h, d)` transposed is channel
      `hi*d + di` of the same elements read as `(b, n, h*d)`. */
  lemma SplitTransposeAt<T>(x: Tensor<T>, x4: Tensor<T>, bi: nat, hi: nat, ni: nat, di: nat)
    requires |x4.shape| == 4 && x4.data == x.data
    requires x.shape == [x4.shape[0], x4.shape[1], x4.shape[2] * x4.shape[3]]
    requires bi < x4.shape[0] && hi < x4.shape[2] && ni < x4.shape[1] && di < x4.shape[3]
    ensures hi * x4.shape[3] + di < x.shape[2]
    ensures At4(Transpose0213(x4), bi, hi, ni, di) == At3(x, bi, ni, hi * x4.shape[3] + di)
  {
    MergeTrailingAt(x4, x, bi, ni, hi, di);
    TransposeAt(x4, bi, hi, ni, di);
  }

  /** The view step of `ToHeads` on a tensor of extents `(b, n, h*d)` with
      `b*n*h > 0`: extents `(b, n, h, d)` over the same elements. */
  lemma SplitChannels<T>(x: Tensor<T>, b: nat, h: nat, n: nat, d: nat) returns (x4: Tensor<T>)
    requires x.shape == [b, n, h * d] && b * n * h > 0
    ensures ViewInfer(x, [b, n, h]) == Ok(x4) && x4 == Buffer([b, n, h, d], x.data)
    ensures ToHeads(x, h) == Ok(Transpose0213(x4))
  {
    Numel3(x.shape);
    Numel3([b, n, h]);
    DivModOf(d, 0, b * n * h);
    assert b * n * (h * d) == d * (b * n * h);
    DivModOf(d, 0, h);
    x4 := ViewInfer(x, [b, n, h]).value;
  }

  /** Channel `hi*d + di` of token `ni` after flattening is element
      `(bi, hi, ni, di)` of the kernel's output. */
  lemma FromHeadsAt<T>(o: Tensor<T>, b: nat, h: nat, n: nat, d: nat, bi: nat, hi: nat, ni: nat, di: nat)
    requires o.shape == [b, h, n, d]
    requires bi < b && hi < h && ni < n && di < d
    ensures FromHeads(o).Ok?
    ensures var r := FromHeads(o).value;
      && r.shape == [b, n, h * d] && Flat2(hi, d, di) < h * d
      && At3(r, bi, ni, Flat2(hi, d, di)) == At4(o, bi, hi, ni, di)
  {
    MulAddLt(hi, h, d, di);
    MulPos(b, n);
    var y := Transpose0213(o);
    var r := MergeChannels(o, b, h, n, d);
    MergeTrailingAt(y, r, bi, ni, hi, di);
    TransposeAt(o, bi, ni, hi, di);
  }

  /** The view step of `FromHeads` on a kernel output of extents
      `(b, h, n, d)` with `b*n > 0`. */
  lemma MergeChannels<T>(o: Tensor<T>, b: nat, h: nat, n: nat, d: nat) returns (r: Tensor<T>)
    requires o.shape == [b, h, n, d] && b * n > 0
    ensures r == Buffer([b, n, h * d], Transpose0213(o).data)
    ensures FromHeads(o) == Ok(r)
  {
    var y := Transpose0213(o);
    Numel4(y.shape);
    Numel2([b, n]);
    DivModOf(h * d, 0, b * n);
    assert b * n * h * d == (h * d) * (b * n);
    r := ViewInfer(y, [b, n]).value;
  }

  /** The accelerated layout and its flattening are inverse: input to kernel
      layout and back. */
  lemma HeadsRoundTrip<T>(x: Tensor<T>, b: nat, h: nat, n: nat, d: nat)
    requires x.shape == [b, n, h * d] && b * n * h > 0
    ensures ToHeads(x, h).Ok?
    ensures FromHeads(ToHeads(x, h).value) == Ok(x)
  {
    var x4 := SplitChannels(x, b, h, n, d);
    var o := Transpose0213(x4);
    MulPos(b, n);
    var r := MergeChannels(o, b, h, n, d);
    TransposeTwice(x4);
  }

  /** ... and kernel layout to flattened and back. */
  lemma HeadsRoundTripOut<T>(o: Tensor<T>, b: nat, h: nat, n: nat, d: nat)
    requires o.shape == [b, h, n, d] && b * n * h > 0
    ensures FromHeads(o).Ok?
    ensures ToHeads(FromHeads(o).value, h) == Ok(o)
  {
    MulPos(b, n);
    var r := MergeChannels(o, b, h, n, d);
    var r4 := SplitChannels(r, b, h, n, d);
    assert r4 == Transpose0213(o);
    TransposeTwice(o);
  }

  /** Both paths split the channels the same way: the folded tensor is the
      accelerated layout with batch and head axes merged. */
  lemma FoldedIsMergedHeads<T>(x: Tensor<T>, b: nat, h: nat, n: nat, d: nat)
    requires x.shape == [b, n, h * d] && b * n * h > 0
    ensures RearrangeIn(x, h).Ok? && ToHeads(x, h).Ok?
    ensures RearrangeIn(x, h) == Reshape(ToHeads(x, h).value, [b * h, n, d])
  {
    var x4 := SplitChannels(x, b, h, n, d);
    Numel4([b, n, h, d]);
    ExactSplit(b * n, h * d, h);
    assert Reshape(x, [b, n, h, d]) == Ok(x4);
  }
}
