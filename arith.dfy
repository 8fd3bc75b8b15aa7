/** Row-major index arithmetic: the flat offset of a coordinate in a
    multi-dimensional buffer, and the coordinate recovered from an offset. */
module Arith {

  /** Multiplying by a natural number is monotone. */
  lemma MulLe(a: nat, b: nat, m: nat)
    requires a <= b
    ensures a * m <= b * m
  {
    assert b * m == a * m + (b - a) * m;
  }

  /** A digit `r < m` appended to a smaller prefix stays below the next multiple. */
  lemma MulAddLt(x: nat, y: nat, m: nat, r: nat)
    requires x < y && r < m
    ensures x * m + r < y * m
  {
    MulLe(x + 1, y, m);
  }

  /** Quotient and remainder of `q * m + r` are `q` and `r` when `r < m`. */
  lemma DivModOf(q: nat, r: nat, m: nat)
    requires r < m
    ensures (q * m + r) / m == q && (q * m + r) % m == r
  {
    var p := q * m + r;
    var d, k := p / m, p % m;
    assert p == d * m + k;
    if d < q {
      MulAddLt(d, q, m, k);
      assert false;
    } else if d > q {
      MulAddLt(q, d, m, r);
      assert false;
    }
  }

  /** An offset below `y * m` has a quotient below `y`. */
  lemma DivLt(p: nat, y: nat, m: nat)
    requires m > 0 && p < y * m
    ensures p / m < y
  {
    if p / m >= y {
      MulLe(y, p / m, m);
      assert false;
    }
  }

  /** A product of naturals is zero only when a factor is. */
  lemma MulPos(a: nat, b: nat)
    requires a > 0 && b > 0
    ensures a * b > 0
  {
    MulLe(1, a, b);
  }

  /** Splitting `c` into `h` equal parts loses nothing, for a non-empty
      prefix `m`, exactly when `h` divides `c`. */
  lemma ExactSplit(m: nat, c: nat, h: nat)
    requires h > 0
    ensures m * h * (c / h) == m * c <==> (c % h == 0 || m == 0)
  {
    assert c == h * (c / h) + c % h;
    assert m * c == m * h * (c / h) + m * (c % h);
    if m > 0 && c % h > 0 {
      MulPos(m, c % h);
    }
  }

  lemma MulAssoc(a: nat, b: nat, c: nat)
    ensures a * (b * c) == a * b * c
  {
  }

  /** Index of `(i, j)` once two axes of extents `(_, J)` are merged into one. */
  function Flat2(i: nat, J: nat, j: nat): nat
  {
    i * J + j
  }

  /** Offset of `(i, j, k)` in a buffer of extents `(_, J, K)`. */
  function Off3(i: nat, j: nat, k: nat, J: nat, K: nat): nat
  {
    (i * J + j) * K + k
  }

  /** Offset of `(i, j, k, l)` in a buffer of extents `(_, J, K, L)`. */
  function Off4(i: nat, j: nat, k: nat, l: nat, J: nat, K: nat, L: nat): nat
  {
    Off3(i * J + j, k, l, K, L)
  }

  /** Coordinate of offset `p` in a buffer of extents `(_, J, K)`. */
  function Coords3(p: nat, J: nat, K: nat): (nat, nat, nat)
    requires J > 0 && K > 0
  {
    ((p / K) / J, (p / K) % J, p % K)
  }

  /** Coordinate of offset `p` in a buffer of extents `(_, J, K, L)`. */
  function Coords4(p: nat, J: nat, K: nat, L: nat): (nat, nat, nat, nat)
    requires J > 0 && K > 0 && L > 0
  {
    var c := Coords3(p, K, L);
    (c.0 / J, c.0 % J, c.1, c.2)
  }

  lemma Off3Bound(i: nat, j: nat, k: nat, I: nat, J: nat, K: nat)
    requires i < I && j < J && k < K
    ensures Off3(i, j, k, J, K) < I * J * K
  {
    MulAddLt(i, I, J, j);
    MulAddLt(i * J + j, I * J, K, k);
  }

  lemma Off4Bound(i: nat, j: nat, k: nat, l: nat, I: nat, J: nat, K: nat, L: nat)
    requires i < I && j < J && k < K && l < L
    ensures Off4(i, j, k, l, J, K, L) < I * J * K * L
  {
    MulAddLt(i, I, J, j);
    Off3Bound(i * J + j, k, l, I * J, K, L);
  }

  /** Offsets determine coordinates: `Coords3` inverts `Off3`. */
  lemma Coords3Of(i: nat, j: nat, k: nat, J: nat, K: nat)
    requires j < J && k < K
    ensures Coords3(Off3(i, j, k, J, K), J, K) == (i, j, k)
  {
    DivModOf(i * J + j, k, K);
    DivModOf(i, j, J);
  }

  /** Every offset inside the buffer is the offset of an in-range coordinate. */
  lemma Off3OfCoords(p: nat, I: nat, J: nat, K: nat)
    requires p < I * J * K
    ensures J > 0 && K > 0
    ensures var c := Coords3(p, J, K);
      c.0 < I && c.1 < J && c.2 < K && Off3(c.0, c.1, c.2, J, K) == p
  {
    assert J > 0 && K > 0;
    DivLt(p, I * J, K);
    DivLt(p / K, I, J);
  }

  lemma Coords4Of(i: nat, j: nat, k: nat, l: nat, J: nat, K: nat, L: nat)
    requires j < J && k < K && l < L
    ensures Coords4(Off4(i, j, k, l, J, K, L), J, K, L) == (i, j, k, l)
  {
    Coords3Of(i * J + j, k, l, K, L);
    DivModOf(i, j, J);
  }

  lemma Off4OfCoords(p: nat, I: nat, J: nat, K: nat, L: nat)
    requires p < I * J * K * L
    ensures J > 0 && K > 0 && L > 0
    ensures var c := Coords4(p, J, K, L);
      c.0 < I && c.1 < J && c.2 < K && c.3 < L && Off4(c.0, c.1, c.2, c.3, J, K, L) == p
  {
    assert J > 0 && K > 0 && L > 0;
    Off3OfCoords(p, I * J, K, L);
    var c := Coords3(p, K, L);
    DivLt(c.0, I, J);
    var q, r := c.0 / J, c.0 % J;
    assert q * J + r == c.0;
    assert Off4(q, r, c.1, c.2, J, K, L) == Off3(c.0, c.1, c.2, K, L);
  }

  /** Scaling numerator and divisor by the same positive factor keeps
      divisibility and the quotient. */
  lemma ScaledDivMod(m: nat, c: nat, h: nat)
    requires m > 0 && h > 0
    ensures (m * c) % (m * h) == 0 <==> c % h == 0
    ensures c % h == 0 ==> (m * c) / (m * h) == c / h
  {
    var q, r := c / h, c % h;
    assert m * c == (m * h) * q + m * r;
    MulLe(r + 1, h, m);
    DivModOf(q, m * r, m * h);
    if r > 0 {
      MulPos(m, r);
    }
  }

  /** Grouping `B` rows into blocks of `h` loses nothing, for non-empty rows
      of `n * d` elements, exactly when `h` divides `B`. */
  lemma ExactGroup(B: nat, h: nat, n: nat, d: nat)
    requires h > 0
    ensures (B / h) * h * n * d == B * n * d <==> (B % h == 0 || n * d == 0)
  {
    ExactSplit(n * d, B, h);
    assert (B / h) * h * n * d == n * d * h * (B / h);
    assert B * n * d == n * d * B;
  }

  /** Offset of channel `hi*d + di` in row-major `(_, n, h*d)` equals the
      offset of `(hi, di)` in row-major `(_, n, h, d)`. */
  lemma SplitOffset(bi: nat, ni: nat, hi: nat, di: nat, n: nat, h: nat, d: nat)
    ensures Off4(bi, ni, hi, di, n, h, d) == Off3(bi, ni, hi * d + di, n, h * d)
  {
    calc {
      Off4(bi, ni, hi, di, n, h, d);
      ((bi * n + ni) * h + hi) * d + di;
      (bi * n + ni) * (h * d) + (hi * d + di);
    }
  }
}
