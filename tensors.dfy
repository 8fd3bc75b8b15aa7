/** Row-major tensors over an arbitrary element type, and the layout
    primitives the attention modules apply to them: `reshape`, `view` with
    an inferred trailing `-1`, and the axis permutation `(0, 2, 1, 3)`. */
module Tensors {
  import opened Arith

  /** The exceptions a layout step can raise. */
  datatype Error =
    | RankMismatch     // unpacking `x.shape` into the wrong number of names
    | DivisionByZero   // `//` by a zero head count, chunk size or frame count
    | SizeMismatch     // a reshape whose element count differs
    | NotInferable     // a `-1` extent next to a zero-sized known prefix
    | IndexOutOfRange  // a gather index past the axis
    | MissingAttribute // reading an attribute the object never set

  datatype Result<+R> = Ok(value: R) | Err(error: Error) {
    predicate IsFailure() { Err? }

    function PropagateFailure<U>(): Result<U>
      requires Err?
    {
      Err(error)
    }

    function Extract(): R
      requires Ok?
    {
      value
    }
  }

  /** Number of elements of a tensor with extents `shape`. */
  function Numel(shape: seq<nat>): nat
  {
    if shape == [] then 1 else shape[0] * Numel(shape[1..])
  }

  datatype Buffer<T> = Buffer(shape: seq<nat>, data: seq<T>)

  /** A tensor: a shape and its elements in row-major order. */
  type Tensor<T> = t: Buffer<T> | |t.data| == Numel(t.shape) witness Buffer([0], [])

  lemma Numel2(s: seq<nat>)
    requires |s| == 2
    ensures Numel(s) == s[0] * s[1]
  {
    var t := s[1..];
    assert t == [s[1]] && t[0] == s[1];
    assert t[1..] == [];
    assert Numel(t) == s[1];
  }

  lemma Numel3(s: seq<nat>)
    requires |s| == 3
    ensures Numel(s) == s[0] * s[1] * s[2]
  {
    var t := s[1..];
    assert t[0] == s[1] && t[1..] == [s[2]];
    assert [s[2]][1..] == [];
    assert Numel([s[2]]) == s[2];
    assert Numel(t) == s[1] * s[2];
  }

  lemma Numel4(s: seq<nat>)
    requires |s| == 4
    ensures Numel(s) == s[0] * s[1] * s[2] * s[3]
  {
    Numel3(s[1..]);
  }

  lemma {:induction false} NumelAppend(s: seq<nat>, x: nat)
    ensures Numel(s + [x]) == Numel(s) * x
  {
    if s == [] {
      assert [x][1..] == [];
    } else {
      assert (s + [x])[1..] == s[1..] + [x];
      NumelAppend(s[1..], x);
    }
  }

  /** `ops.reshape(t, shape)`: same elements in the same order, new extents. */
  function Reshape<T>(t: Tensor<T>, shape: seq<nat>): (r: Result<Tensor<T>>)
    ensures r.Ok? <==> Numel(shape) == Numel(t.shape)
    ensures r.Ok? ==> r.value.shape == shape && r.value.data == t.data
  {
    if Numel(shape) == |t.data| then Ok(Buffer(shape, t.data)) else Err(SizeMismatch)
  }

  /** `t.view(*lead, -1)`: the last extent is whatever the element count leaves. */
  function ViewInfer<T>(t: Tensor<T>, lead: seq<nat>): (r: Result<Tensor<T>>)
    ensures r.Ok? <==> Numel(lead) > 0 && Numel(t.shape) % Numel(lead) == 0
    ensures r.Ok? ==>
      r.value.shape == lead + [Numel(t.shape) / Numel(lead)] && r.value.data == t.data
  {
    var known := Numel(lead);
    if known == 0 then Err(NotInferable)
    else if |t.data| % known != 0 then Err(SizeMismatch)
    else
      NumelAppend(lead, |t.data| / known);
      Ok(Buffer(lead + [|t.data| / known], t.data))
  }

  /** Element `(i, j, k)` of a rank-3 tensor. */
  function At3<T>(t: Tensor<T>, i: nat, j: nat, k: nat): T
    requires |t.shape| == 3 && i < t.shape[0] && j < t.shape[1] && k < t.shape[2]
  {
    Numel3(t.shape);
    Off3Bound(i, j, k, t.shape[0], t.shape[1], t.shape[2]);
    t.data[Off3(i, j, k, t.shape[1], t.shape[2])]
  }

  /** Element `(i, j, k, l)` of a rank-4 tensor. */
  function At4<T>(t: Tensor<T>, i: nat, j: nat, k: nat, l: nat): T
    requires |t.shape| == 4
    requires i < t.shape[0] && j < t.shape[1] && k < t.shape[2] && l < t.shape[3]
  {
    Numel4(t.shape);
    Off4Bound(i, j, k, l, t.shape[0], t.shape[1], t.shape[2], t.shape[3]);
    t.data[Off4(i, j, k, l, t.shape[1], t.shape[2], t.shape[3])]
  }

  /** Where element `p` of the transposed buffer (extents `A, C, B, D`)
      comes from in the original buffer (extents `A, B, C, D`). */
  function SwapSource(p: nat, A: nat, B: nat, C: nat, D: nat): (s: nat)
    requires p < A * C * B * D
    ensures s < A * B * C * D
  {
    Off4OfCoords(p, A, C, B, D);
    var c := Coords4(p, C, B, D);
    Off4Bound(c.0, c.2, c.1, c.3, A, B, C, D);
    Off4(c.0, c.2, c.1, c.3, B, C, D)
  }

  /** `ops.transpose(t, (0, 2, 1, 3))` on a rank-4 tensor. */
  function Transpose0213<T>(t: Tensor<T>): (r: Tensor<T>)
    requires |t.shape| == 4
    ensures r.shape == [t.shape[0], t.shape[2], t.shape[1], t.shape[3]]
  {
    var A, B, C, D := t.shape[0], t.shape[1], t.shape[2], t.shape[3];
    Numel4(t.shape);
    Numel4([A, C, B, D]);
    Buffer([A, C, B, D],
           seq(A * C * B * D, p requires 0 <= p < A * C * B * D => t.data[SwapSource(p, A, B, C, D)]))
  }

  /** Transposing swaps the two middle coordinates of every element. */
  lemma TransposeAt<T>(t: Tensor<T>, i: nat, j: nat, k: nat, l: nat)
    requires |t.shape| == 4
    requires i < t.shape[0] && j < t.shape[2] && k < t.shape[1] && l < t.shape[3]
    ensures At4(Transpose0213(t), i, j, k, l) == At4(t, i, k, j, l)
  {
    var A, B, C, D := t.shape[0], t.shape[1], t.shape[2], t.shape[3];
    var u := Transpose0213(t);
    Numel4(u.shape);
    Off4Bound(i, j, k, l, A, C, B, D);
    assert At4(u, i, j, k, l) == u.data[Off4(i, j, k, l, C, B, D)];
    Coords4Of(i, j, k, l, C, B, D);
    assert SwapSource(Off4(i, j, k, l, C, B, D), A, B, C, D) == Off4(i, k, j, l, B, C, D);
  }

  /** Two rank-4 tensors with the same shape and the same elements are equal. */
  lemma Ext4<T>(a: Tensor<T>, b: Tensor<T>)
    requires |a.shape| == 4 && a.shape == b.shape
    requires forall i: nat, j: nat, k: nat, l: nat
      | i < a.shape[0] && j < a.shape[1] && k < a.shape[2] && l < a.shape[3] ::
      At4(a, i, j, k, l) == At4(b, i, j, k, l)
    ensures a == b
  {
    var I, J, K, L := a.shape[0], a.shape[1], a.shape[2], a.shape[3];
    Numel4(a.shape);
    forall p | 0 <= p < |a.data| ensures a.data[p] == b.data[p] {
      Off4OfCoords(p, I, J, K, L);
      var c := Coords4(p, J, K, L);
      assert At4(a, c.0, c.1, c.2, c.3) == At4(b, c.0, c.1, c.2, c.3);
    }
    assert a.data == b.data;
  }

  /** The permutation `(0, 2, 1, 3)` is its own inverse. */
  lemma TransposeTwice<T>(t: Tensor<T>)
    requires |t.shape| == 4
    ensures Transpose0213(Transpose0213(t)) == t
  {
    var u := Transpose0213(t);
    var w := Transpose0213(u);
    forall i: nat, j: nat, k: nat, l: nat
      | i < t.shape[0] && j < t.shape[1] && k < t.shape[2] && l < t.shape[3]
      ensures At4(w, i, j, k, l) == At4(t, i, j, k, l)
    {
      TransposeAt(u, i, j, k, l);
      TransposeAt(t, i, k, j, l);
    }
    Ext4(w, t);
  }

  /** Reshaping `(A, B, C, D)` to `(A*B, C, D)` merges the two leading axes. */
  lemma MergeLeadingAt<T>(t: Tensor<T>, y: Tensor<T>, i: nat, j: nat, k: nat, l: nat)
    requires |t.shape| == 4 && |y.shape| == 3 && y.data == t.data
    requires y.shape[1] == t.shape[2] && y.shape[2] == t.shape[3]
    requires i < t.shape[0] && j < t.shape[1] && k < t.shape[2] && l < t.shape[3]
    requires Flat2(i, t.shape[1], j) < y.shape[0]
    ensures At3(y, Flat2(i, t.shape[1], j), k, l) == At4(t, i, j, k, l)
  {
  }

  /** Reshaping `(A, B, C, D)` to `(A, B, C*D)` merges the two trailing axes. */
  lemma MergeTrailingAt<T>(t: Tensor<T>, y: Tensor<T>, i: nat, j: nat, k: nat, l: nat)
    requires |t.shape| == 4 && |y.shape| == 3 && y.data == t.data
    requires y.shape[0] == t.shape[0] && y.shape[1] == t.shape[1]
    requires y.shape[2] == t.shape[2] * t.shape[3]
    requires i < t.shape[0] && j < t.shape[1] && k < t.shape[2] && l < t.shape[3]
    ensures Flat2(k, t.shape[3], l) < y.shape[2]
    ensures At3(y, i, j, Flat2(k, t.shape[3], l)) == At4(t, i, j, k, l)
  {
    MulAddLt(k, t.shape[2], t.shape[3], l);
    SplitOffset(i, j, k, l, t.shape[1], t.shape[2], t.shape[3]);
  }

  /** Element counts when the last axis of `(b, n, c)` is split into `h`
      parts, the middle axes are swapped and the leading axes merged: the
      split loses nothing exactly when `h` divides `c` or `b*n` is zero. */
  lemma SplitCounts(b: nat, n: nat, c: nat, h: nat)
    requires h > 0
    ensures Numel([b, n, h, c / h]) == Numel([b, n, c]) <==> (c % h == 0 || b * n == 0)
    ensures Numel([b, h, n, c / h]) == Numel([b, n, h, c / h])
    ensures Numel([b * h, n, c / h]) == Numel([b, n, h, c / h])
  {
    var d := c / h;
    Numel3([b, n, c]);
    Numel4([b, n, h, d]);
    Numel4([b, h, n, d]);
    Numel3([b * h, n, d]);
    ExactSplit(b * n, c, h);
    assert b * n * h * d == b * h * n * d;
  }

  /** Element counts when the first axis of `(B, n, d)` is split into blocks
      of `h`, the middle axes are swapped and the trailing axes merged: the
      split loses nothing exactly when `h` divides `B` or `n*d` is zero. */
  lemma GroupCounts(B: nat, n: nat, d: nat, h: nat)
    requires h > 0
    ensures Numel([B / h, h, n, d]) == Numel([B, n, d]) <==> (B % h == 0 || n * d == 0)
    ensures Numel([B / h, n, h, d]) == Numel([B / h, h, n, d])
    ensures Numel([B / h, n, h * d]) == Numel([B / h, n, h, d])
  {
    var b := B / h;
    Numel3([B, n, d]);
    Numel4([b, h, n, d]);
    Numel4([b, n, h, d]);
    Numel3([b, n, h * d]);
    ExactGroup(B, h, n, d);
    assert b * h * n * d == b * n * h * d;
  }
}
