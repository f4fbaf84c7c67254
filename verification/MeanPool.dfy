/** Padding a batch into flat buffers, and pooling the model's answer into one unit vector per text. */
module MeanPool {
  import opened Wrappers

  /** The tokens of one text and their attention mask. */
  datatype Encoding = Encoding(ids: seq<nat>, mask: seq<nat>)

  datatype RawTensor = RawTensor(batch: nat, length: nat, dim: nat, data: seq<real>)

  /** A tensor holds as many numbers as its shape says. */
  type Tensor = t: RawTensor | |t.data| == t.batch * t.length * t.dim witness RawTensor(0, 0, 0, [])

  const TINY_WEIGHT := 0.000000001
  const TINY_NORM := 0.000000000001

  // ---- pooling one text, on values ----

  ghost predicate Shaped(rows: seq<seq<real>>, mask: seq<nat>, dim: nat) {
    |rows| == |mask| && forall i | 0 <= i < |rows| :: |rows[i]| == dim
  }

  /** The mask-weighted sum of column d. */
  function WeightedSum(rows: seq<seq<real>>, mask: seq<nat>, dim: nat, d: nat): real
    requires Shaped(rows, mask, dim) && d < dim
  {
    if rows == [] then 0.0
    else
      var n := |rows| - 1;
      assert |rows[n]| == dim;
      WeightedSum(rows[..n], mask[..n], dim, d) + rows[n][d] * mask[n] as real
  }

  function Weight(mask: seq<nat>): (w: real)
    ensures w >= 0.0
  {
    if mask == [] then 0.0 else Weight(mask[..|mask| - 1]) + mask[|mask| - 1] as real
  }

  function Divisor(mask: seq<nat>): (w: real)
    ensures w > 0.0
  {
    if Weight(mask) == 0.0 then TINY_WEIGHT else Weight(mask)
  }

  function Mean(rows: seq<seq<real>>, mask: seq<nat>, dim: nat): seq<real>
    requires Shaped(rows, mask, dim)
  {
    seq(dim, d requires 0 <= d < dim => WeightedSum(rows, mask, dim, d) / Divisor(mask))
  }

  function SquaredNorm(v: seq<real>): (n: real)
    ensures n >= 0.0
  {
    if v == [] then 0.0 else SquaredNorm(v[..|v| - 1]) + v[|v| - 1] * v[|v| - 1]
  }

  function Clamped(norm: real): (n: real)
    ensures n > 0.0
  {
    if norm < TINY_NORM then TINY_NORM else norm
  }

  function Scaled(v: seq<real>, scale: real): seq<real>
    requires scale != 0.0
  {
    seq(|v|, d requires 0 <= d < |v| => v[d] / scale)
  }

  /** The vector of a text: the mean over its tokens, scaled to length one. */
  function Pooled(rows: seq<seq<real>>, mask: seq<nat>, dim: nat, sqrt: real -> real): seq<real>
    requires Shaped(rows, mask, dim)
  {
    var mean := Mean(rows, mask, dim);
    Scaled(mean, Clamped(sqrt(SquaredNorm(mean))))
  }

  // ---- what pooling promises ----

  ghost predicate AllZero(mask: seq<nat>) { forall i | 0 <= i < |mask| :: mask[i] == 0 }

  lemma {:induction false} PaddingAddsNothing(rows: seq<seq<real>>, mask: seq<nat>, pad: seq<seq<real>>, zeros: seq<nat>, dim: nat, d: nat)
    requires Shaped(rows, mask, dim) && Shaped(pad, zeros, dim) && AllZero(zeros) && d < dim
    ensures WeightedSum(rows + pad, mask + zeros, dim, d) == WeightedSum(rows, mask, dim, d)
  {
    if pad == [] {
      assert rows + pad == rows && mask + zeros == mask;
    } else {
      var n := |pad| - 1;
      PaddingAddsNothing(rows, mask, pad[..n], zeros[..n], dim, d);
      assert zeros[n] == 0;
      assert (rows + pad)[..|rows| + n] == rows + pad[..n] && (mask + zeros)[..|mask| + n] == mask + zeros[..n];
    }
  }

  lemma {:induction false} ZerosWeighNothing(mask: seq<nat>, zeros: seq<nat>)
    requires AllZero(zeros)
    ensures Weight(mask + zeros) == Weight(mask)
  {
    if zeros == [] {
      assert mask + zeros == mask;
    } else {
      var n := |zeros| - 1;
      ZerosWeighNothing(mask, zeros[..n]);
      assert zeros[n] == 0 && (mask + zeros)[..|mask| + n] == mask + zeros[..n];
    }
  }

  /** Every token counts, with its own weight. */
  lemma {:induction false} SumsAdd(rows: seq<seq<real>>, mask: seq<nat>, more: seq<seq<real>>, mask': seq<nat>, dim: nat, d: nat)
    requires Shaped(rows, mask, dim) && Shaped(more, mask', dim) && d < dim
    ensures Shaped(rows + more, mask + mask', dim)
    ensures WeightedSum(rows + more, mask + mask', dim, d)
         == WeightedSum(rows, mask, dim, d) + WeightedSum(more, mask', dim, d)
    ensures |more| == 1 ==> WeightedSum(more, mask', dim, d) == more[0][d] * mask'[0] as real
  {
    if more == [] {
      assert rows + more == rows && mask + mask' == mask;
    } else {
      var n := |more| - 1;
      SumsAdd(rows, mask, more[..n], mask'[..n], dim, d);
      assert (rows + more)[..|rows| + n] == rows + more[..n] && (mask + mask')[..|mask| + n] == mask + mask'[..n];
    }
  }

  lemma {:induction false} WeightsAdd(mask: seq<nat>, mask': seq<nat>)
    ensures Weight(mask + mask') == Weight(mask) + Weight(mask')
    ensures |mask'| == 1 ==> Weight(mask') == mask'[0] as real
  {
    if mask' == [] {
      assert mask + mask' == mask;
    } else {
      var n := |mask'| - 1;
      WeightsAdd(mask, mask'[..n]);
      assert (mask + mask')[..|mask| + n] == mask + mask'[..n];
    }
  }

  lemma {:induction false} SquaresAdd(v: seq<real>, w: seq<real>)
    ensures SquaredNorm(v + w) == SquaredNorm(v) + SquaredNorm(w)
    ensures |w| == 1 ==> SquaredNorm(w) == w[0] * w[0]
  {
    if w == [] {
      assert v + w == v;
    } else {
      var n := |w| - 1;
      SquaresAdd(v, w[..n]);
      assert (v + w)[..|v| + n] == v + w[..n];
    }
  }

  function Times(a: real, b: real): real { a * b }

  lemma QuotientTimes(a: real, b: real)
    requires b != 0.0
    ensures Times(a / b, b) == a
  {
  }

  /** Column by column: the vector times its length is the mean, and the mean times the weight of the
      mask is the weighted sum; a zero weight and a tiny length are replaced by small numbers. */
  lemma PooledMeans(rows: seq<seq<real>>, mask: seq<nat>, dim: nat, sqrt: real -> real, d: nat)
    requires Shaped(rows, mask, dim) && d < dim
    ensures |Pooled(rows, mask, dim, sqrt)| == |Mean(rows, mask, dim)| == dim
    ensures var mean := Mean(rows, mask, dim);
      var length := sqrt(SquaredNorm(mean));
      && Times(mean[d], if Weight(mask) == 0.0 then 0.000000001 else Weight(mask)) == WeightedSum(rows, mask, dim, d)
      && Times(Pooled(rows, mask, dim, sqrt)[d], if length < 0.000000000001 then 0.000000000001 else length) == mean[d]
  {
    var mean := Mean(rows, mask, dim);
    QuotientTimes(WeightedSum(rows, mask, dim, d), Divisor(mask));
    QuotientTimes(mean[d], Clamped(sqrt(SquaredNorm(mean))));
  }

  /** Whatever the model says at padded positions, the vector is that of the text alone. */
  lemma PaddingIsInvisible(rows: seq<seq<real>>, mask: seq<nat>, pad: seq<seq<real>>, zeros: seq<nat>, dim: nat, sqrt: real -> real)
    requires Shaped(rows, mask, dim) && Shaped(pad, zeros, dim) && AllZero(zeros)
    ensures Shaped(rows + pad, mask + zeros, dim)
    ensures Pooled(rows + pad, mask + zeros, dim, sqrt) == Pooled(rows, mask, dim, sqrt)
  {
    ZerosWeighNothing(mask, zeros);
    forall d | 0 <= d < dim ensures WeightedSum(rows + pad, mask + zeros, dim, d) == WeightedSum(rows, mask, dim, d) {
      PaddingAddsNothing(rows, mask, pad, zeros, dim, d);
    }
    assert Mean(rows + pad, mask + zeros, dim) == Mean(rows, mask, dim);
  }

  lemma SquareOfQuotient(x: real, n: real)
    requires n != 0.0
    ensures Times((x / n) * (x / n), n * n) == x * x
  {
    var q := x / n;
    assert q * n == x;
    assert q * q * (n * n) == (q * n) * (q * n);
  }

  lemma Distribute(a: real, b: real, c: real)
    ensures Times(a + b, c) == Times(a, c) + Times(b, c)
  {
  }

  lemma NoZeroDivisors(a: real, c: real)
    requires a * c == 0.0 && c != 0.0
    ensures a == 0.0
  {
    assert a * c / c == a;
  }

  lemma {:induction false} NormOfScaled(v: seq<real>, scale: real)
    requires scale != 0.0
    ensures Times(SquaredNorm(Scaled(v, scale)), scale * scale) == SquaredNorm(v)
  {
    if v != [] {
      var n := |v| - 1;
      NormOfScaled(v[..n], scale);
      var s, q := SquaredNorm(Scaled(v[..n], scale)), v[n] / scale;
      assert Scaled(v, scale)[..n] == Scaled(v[..n], scale);
      assert SquaredNorm(Scaled(v, scale)) == s + q * q;
      SquareOfQuotient(v[n], scale);
      Distribute(s, q * q, scale * scale);
    } else {
      assert Scaled(v, scale) == [];
    }
  }

  lemma RatioIsOne(s: real, n: real)
    requires n > 0.0 && Times(s, n * n) == n * n
    ensures s == 1.0
  {
    Distribute(s, -1.0, n * n);
    if n * n == 0.0 { NoZeroDivisors(n, n); }
    NoZeroDivisors(s - 1.0, n * n);
  }

  lemma UnitAfterScaling(v: seq<real>, norm: real)
    requires norm >= TINY_NORM && norm * norm == SquaredNorm(v)
    ensures SquaredNorm(Scaled(v, Clamped(norm))) == 1.0
  {
    NormOfScaled(v, norm);
    RatioIsOne(SquaredNorm(Scaled(v, norm)), norm);
  }

  /** Unless the mean is all but zero, the squares of the vector sum to one. */
  lemma PooledIsUnit(rows: seq<seq<real>>, mask: seq<nat>, dim: nat, sqrt: real -> real)
    requires Shaped(rows, mask, dim)
    requires var n2 := SquaredNorm(Mean(rows, mask, dim)); sqrt(n2) >= TINY_NORM && sqrt(n2) * sqrt(n2) == n2
    ensures SquaredNorm(Pooled(rows, mask, dim, sqrt)) == 1.0
  {
    UnitAfterScaling(Mean(rows, mask, dim), sqrt(SquaredNorm(Mean(rows, mask, dim))));
  }

  lemma {:induction false} NothingWeighted(rows: seq<seq<real>>, mask: seq<nat>, dim: nat, d: nat)
    requires Shaped(rows, mask, dim) && AllZero(mask) && d < dim
    ensures WeightedSum(rows, mask, dim, d) == 0.0
  {
    if rows != [] {
      var n := |rows| - 1;
      NothingWeighted(rows[..n], mask[..n], dim, d);
      assert mask[n] == 0;
    }
  }

  /** A text none of whose tokens count gets the zero vector, not a division by zero. */
  lemma NoTokensGiveZeros(rows: seq<seq<real>>, mask: seq<nat>, dim: nat, sqrt: real -> real)
    requires Shaped(rows, mask, dim) && AllZero(mask)
    ensures Pooled(rows, mask, dim, sqrt) == seq(dim, d => 0.0)
  {
    forall d | 0 <= d < dim ensures Pooled(rows, mask, dim, sqrt)[d] == 0.0 {
      NothingWeighted(rows, mask, dim, d);
    }
  }

  // ---- flat buffers ----

  /** Row b of a grid of the given width ends within it, and the next row starts there. */
  lemma RowInRange(b: nat, width: nat, rows: nat)
    requires b < rows
    ensures 0 <= b * width && b * width + width == (b + 1) * width <= rows * width
  {
    assert (rows - b - 1) * width >= 0;
    assert rows * width == (b + 1) * width + (rows - b - 1) * width;
  }

  lemma CellInRange(b: nat, s: nat, width: nat, rows: nat)
    requires b < rows && s < width
    ensures 0 <= b * width + s < rows * width
  {
    RowInRange(b, width, rows);
  }

  /** The model's answer for token k of the flat batch. */
  function Row(hs: Tensor, k: nat): (row: seq<real>)
    requires k < hs.batch * hs.length
    ensures |row| == hs.dim
  {
    RowInRange(k, hs.dim, hs.batch * hs.length);
    hs.data[k * hs.dim..k * hs.dim + hs.dim]
  }

  function RowAt(hs: Tensor, b: nat, s: nat): (row: seq<real>)
    requires b < hs.batch && s < hs.length
    ensures |row| == hs.dim
  {
    CellInRange(b, s, hs.length, hs.batch);
    Row(hs, b * hs.length + s)
  }

  /** The answers for the tokens of text b, padding included. */
  function Rows(hs: Tensor, b: nat): (rows: seq<seq<real>>)
    requires b < hs.batch
    ensures |rows| == hs.length && forall s | 0 <= s < hs.length :: |rows[s]| == hs.dim
  {
    seq(hs.length, s requires 0 <= s < hs.length => RowAt(hs, b, s))
  }

  /** Where number d of the answer for token s of text b stands. */
  lemma RowsMeans(hs: Tensor, b: nat, s: nat, d: nat)
    requires b < hs.batch && s < hs.length && d < hs.dim
    ensures var i := (b * hs.length + s) * hs.dim + d; 0 <= i < |hs.data| && Rows(hs, b)[s][d] == hs.data[i]
  {
    CellInRange(b, s, hs.length, hs.batch);
    RowInRange(b * hs.length + s, hs.dim, hs.batch * hs.length);
    assert Rows(hs, b)[s] == Row(hs, b * hs.length + s);
  }

  /** The stretch of a flat buffer that belongs to text b, padding included. */
  function TextOf(flat: seq<nat>, b: nat, length: nat, batch: nat): (own: seq<nat>)
    requires b < batch && |flat| == batch * length
    ensures |own| == length
  {
    RowInRange(b, length, batch);
    flat[b * length..b * length + length]
  }

  /** Adds one row, weighted. */
  method AddRow(pooled: array<real>, hs: Tensor, k: nat, m: real, ghost row: seq<real>)
    requires k < hs.batch * hs.length && pooled.Length == hs.dim && row == Row(hs, k)
    modifies pooled
    ensures forall d | 0 <= d < hs.dim :: pooled[d] == old(pooled[d]) + row[d] * m
  {
    RowInRange(k, hs.dim, hs.batch * hs.length);
    var rowOff := k * hs.dim;
    for d := 0 to hs.dim
      invariant forall j | 0 <= j < d :: pooled[j] == old(pooled[j]) + row[j] * m
      invariant forall j | d <= j < hs.dim :: pooled[j] == old(pooled[j])
    {
      pooled[d] := pooled[d] + hs.data[rowOff + d] * m;
    }
  }

  /** Divides every element, and sums the squares of what it leaves. */
  method Divide(pooled: array<real>, divisor: real) returns (norm2: real)
    requires divisor != 0.0
    modifies pooled
    ensures pooled[..] == Scaled(old(pooled[..]), divisor) && norm2 == SquaredNorm(pooled[..])
  {
    norm2 := 0.0;
    for d := 0 to pooled.Length
      invariant forall j | 0 <= j < d :: pooled[j] == old(pooled[j]) / divisor
      invariant forall j | d <= j < pooled.Length :: pooled[j] == old(pooled[j])
      invariant norm2 == SquaredNorm(pooled[..d])
    {
      pooled[d] := pooled[d] / divisor;
      norm2 := norm2 + pooled[d] * pooled[d];
      assert pooled[..d + 1][..d] == pooled[..d];
    }
    assert pooled[..] == pooled[..pooled.Length];
  }

  /** The weighted sums of the first n rows. */
  ghost predicate SumsSoFar(sums: seq<real>, rows: seq<seq<real>>, mask: seq<nat>, dim: nat, n: nat) {
    && Shaped(rows, mask, dim) && n <= |rows| && |sums| == dim
    && Shaped(rows[..n], mask[..n], dim)
    && forall d | 0 <= d < dim :: sums[d] == WeightedSum(rows[..n], mask[..n], dim, d)
  }

  lemma OneMoreRow(sums: seq<real>, sums': seq<real>, rows: seq<seq<real>>, mask: seq<nat>, dim: nat, n: nat)
    requires SumsSoFar(sums, rows, mask, dim, n) && n < |rows| && |sums'| == dim
    requires forall d | 0 <= d < dim :: |rows[n]| == dim && sums'[d] == sums[d] + rows[n][d] * mask[n] as real
    ensures SumsSoFar(sums', rows, mask, dim, n + 1)
    ensures Weight(mask[..n + 1]) == Weight(mask[..n]) + mask[n] as real
  {
    assert rows[..n + 1][..n] == rows[..n] && mask[..n + 1][..n] == mask[..n];
  }

  lemma RowsAt(hs: Tensor, b: nat, s: nat)
    requires b < hs.batch && s < hs.length
    ensures b * hs.length + s < hs.batch * hs.length
    ensures Rows(hs, b)[s] == Row(hs, b * hs.length + s)
  {
    CellInRange(b, s, hs.length, hs.batch);
  }

  lemma MaskAt(flat: seq<nat>, b: nat, s: nat, length: nat, batch: nat)
    requires b < batch && s < length && |flat| == batch * length
    ensures b * length + s < |flat|
    ensures TextOf(flat, b, length, batch)[s] == flat[b * length + s]
  {
    CellInRange(b, s, length, batch);
    RowInRange(b, length, batch);
  }

  /** Where the token at place s of text b stands in the flat batch, and its weight. */
  method Locate(hs: Tensor, maskFlat: array<nat>, b: nat, s: nat) returns (k: nat, m: real)
    requires b < hs.batch && s < hs.length && maskFlat.Length == hs.batch * hs.length
    ensures k < hs.batch * hs.length && Rows(hs, b)[s] == Row(hs, k)
    ensures m == TextOf(maskFlat[..], b, hs.length, hs.batch)[s] as real
  {
    RowsAt(hs, b, s);
    MaskAt(maskFlat[..], b, s, hs.length, hs.batch);
    k := b * hs.length + s;
    m := maskFlat[k] as real;
  }

  /** Takes in the token at place s of text b; tokens of weight zero are passed over. */
  method AddToken(pooled: array<real>, hs: Tensor, k: nat, m: real, denom: real,
                  ghost rows: seq<seq<real>>, ghost mask: seq<nat>, ghost s: nat)
    returns (denom': real)
    requires k < hs.batch * hs.length && s < |rows| && rows[s] == Row(hs, k) && |mask| == |rows| && m == mask[s] as real
    requires SumsSoFar(pooled[..], rows, mask, hs.dim, s) && denom == Weight(mask[..s])
    modifies pooled
    ensures SumsSoFar(pooled[..], rows, mask, hs.dim, s + 1) && denom' == Weight(mask[..s + 1])
  {
    ghost var was := pooled[..];
    if m == 0.0 {
      OneMoreRow(was, was, rows, mask, hs.dim, s);
      return denom;
    }
    AddRow(pooled, hs, k, m, rows[s]);
    OneMoreRow(was, pooled[..], rows, mask, hs.dim, s);
    return denom + m;
  }

  /** From weighted sums to the unit vector. */
  method Normalise(pooled: array<real>, denom: real, sqrt: real -> real,
                   ghost rows: seq<seq<real>>, ghost mask: seq<nat>, ghost dim: nat)
    requires Shaped(rows, mask, dim) && pooled.Length == dim && denom == Weight(mask)
    requires forall d | 0 <= d < dim :: pooled[d] == WeightedSum(rows, mask, dim, d)
    modifies pooled
    ensures pooled[..] == Pooled(rows, mask, dim, sqrt)
  {
    var divisor := if denom == 0.0 then TINY_WEIGHT else denom;
    var norm2 := Divide(pooled, divisor);
    assert pooled[..] == Mean(rows, mask, dim);
    var norm := sqrt(norm2);
    if norm < TINY_NORM {
      norm := TINY_NORM;
    }
    var _ := Divide(pooled, norm);
  }

  /** Pools the text at place b of the batch. */
  method PoolText(hs: Tensor, maskFlat: array<nat>, b: nat, sqrt: real -> real) returns (pooled: array<real>)
    requires b < hs.batch && maskFlat.Length == hs.batch * hs.length
    ensures fresh(pooled)
    ensures pooled[..] == Pooled(Rows(hs, b), TextOf(maskFlat[..], b, hs.length, hs.batch), hs.dim, sqrt)
  {
    ghost var rows, mask := Rows(hs, b), TextOf(maskFlat[..], b, hs.length, hs.batch);
    pooled := new real[hs.dim](_ => 0.0);
    var denom := 0.0;
    for s := 0 to hs.length
      invariant fresh(pooled) && pooled.Length == hs.dim
      invariant SumsSoFar(pooled[..], rows, mask, hs.dim, s)
      invariant denom == Weight(mask[..s])
    {
      var k, m := Locate(hs, maskFlat, b, s);
      denom := AddToken(pooled, hs, k, m, denom, rows, mask, s);
    }
    assert rows[..hs.length] == rows && mask[..hs.length] == mask;
    forall d | 0 <= d < hs.dim ensures pooled[d] == WeightedSum(rows, mask, hs.dim, d) {
      assert pooled[..][d] == pooled[d];
    }
    Normalise(pooled, denom, sqrt, rows, mask, hs.dim);
  }

  // ---- padding a batch ----

  /** A text's mask: where the tokenizer gave none, a token counts. */
  function OwnMask(e: Encoding): (mask: seq<nat>)
    ensures |mask| == |e.ids|
  {
    seq(|e.ids|, j requires 0 <= j < |e.ids| => if j < |e.mask| then e.mask[j] else 1)
  }

  function Zeros(n: nat): (z: seq<nat>)
    ensures |z| == n && AllZero(z)
  {
    seq(n, _ => 0)
  }

  function Padded(own: seq<nat>, length: nat): (padded: seq<nat>)
    requires |own| <= length
    ensures |padded| == length
  {
    own + Zeros(length - |own|)
  }

  /** The buffer with a stretch replaced. */
  ghost function Overwritten(was: seq<nat>, off: nat, v: seq<nat>): seq<nat>
    requires off + |v| <= |was|
  {
    was[..off] + v + was[off + |v|..]
  }

  lemma IsOverwritten(was: seq<nat>, now: seq<nat>, off: nat, own: seq<nat>, length: nat)
    requires |own| <= length && off + length <= |was| == |now| && was[off..off + length] == Zeros(length)
    requires forall k | 0 <= k < |was| && !(off <= k < off + |own|) :: now[k] == was[k]
    requires forall k | 0 <= k < |own| :: now[off + k] == own[k]
    ensures now == Overwritten(was, off, Padded(own, length))
  {
    forall k | off + |own| <= k < off + length ensures was[k] == 0 {
      assert was[k] == was[off..off + length][k - off];
    }
  }

  /** Writes one text over zeros; the rest of both buffers stays. */
  method FillText(ids: array<nat>, mask: array<nat>, off: nat, e: Encoding, length: nat)
    requires ids != mask && ids.Length == mask.Length && off + length <= ids.Length && |e.ids| <= length
    requires ids[off..off + length] == mask[off..off + length] == Zeros(length)
    modifies ids, mask
    ensures ids[..] == Overwritten(old(ids[..]), off, Padded(e.ids, length))
    ensures mask[..] == Overwritten(old(mask[..]), off, Padded(OwnMask(e), length))
  {
    ghost var wasIds, wasMask := ids[..], mask[..];
    for j := 0 to |e.ids|
      invariant forall k | 0 <= k < ids.Length && !(off <= k < off + j) :: ids[k] == wasIds[k] && mask[k] == wasMask[k]
      invariant forall k | 0 <= k < j :: ids[off + k] == e.ids[k] && mask[off + k] == OwnMask(e)[k]
    {
      ids[off + j] := e.ids[j];
      if j < |e.mask| {
        mask[off + j] := e.mask[j];
      } else {
        mask[off + j] := 1;
      }
    }
    IsOverwritten(wasIds, ids[..], off, e.ids, length);
    IsOverwritten(wasMask, mask[..], off, OwnMask(e), length);
  }

  lemma SliceOfPrefix(was: seq<nat>, now: seq<nat>, end: nat, off: nat, n: nat)
    requires end <= |was| == |now| && was[..end] == now[..end] && off + n <= end
    ensures was[off..off + n] == now[off..off + n]
  {
    assert was[off..off + n] == was[..end][off..off + n] && now[off..off + n] == now[..end][off..off + n];
  }

  lemma SliceOfSuffix(was: seq<nat>, now: seq<nat>, start: nat, off: nat, n: nat)
    requires start <= |was| == |now| && was[start..] == now[start..] && start <= off && off + n <= |was|
    ensures was[off..off + n] == now[off..off + n]
  {
    assert was[off..off + n] == was[start..][off - start..off - start + n];
    assert now[off..off + n] == now[start..][off - start..off - start + n];
  }

  /** Stretches of different texts do not overlap. */
  lemma OtherTextsKept(was: seq<nat>, now: seq<nat>, i: nat, b: nat, length: nat, batch: nat)
    requires i < batch && b < batch && b != i && |was| == |now| == batch * length
    requires i * length + length <= |was| && was[..i * length] == now[..i * length]
    requires was[i * length + length..] == now[i * length + length..]
    ensures TextOf(now, b, length, batch) == TextOf(was, b, length, batch)
  {
    RowInRange(b, length, batch);
    if b < i {
      RowInRange(b, length, i);
      SliceOfPrefix(was, now, i * length, b * length, length);
    } else {
      RowInRange(i, length, b);
      SliceOfSuffix(was, now, i * length + length, b * length, length);
    }
  }

  /** The first n texts are in place, the others still zero. */
  ghost predicate Filled(flat: seq<nat>, own: seq<seq<nat>>, length: nat, n: nat) {
    && |flat| == |own| * length && n <= |own|
    && (forall b | 0 <= b < |own| :: |own[b]| <= length)
    && forall b | 0 <= b < |own| :: TextOf(flat, b, length, |own|) == if b < n then Padded(own[b], length) else Zeros(length)
  }

  lemma FilledOneMore(was: seq<nat>, now: seq<nat>, own: seq<seq<nat>>, length: nat, i: nat)
    requires Filled(was, own, length, i) && i < |own| && i * length + length <= |was|
    requires now == Overwritten(was, i * length, Padded(own[i], length))
    ensures Filled(now, own, length, i + 1)
  {
    assert now[..i * length] == was[..i * length] && now[i * length + length..] == was[i * length + length..];
    forall b | 0 <= b < |own|
      ensures TextOf(now, b, length, |own|) == if b < i + 1 then Padded(own[b], length) else Zeros(length)
    {
      if b != i { OtherTextsKept(was, now, i, b, length, |own|); }
    }
  }

  lemma FreshIsFilled(flat: seq<nat>, own: seq<seq<nat>>, length: nat)
    requires |flat| == |own| * length && AllZero(flat) && forall b | 0 <= b < |own| :: |own[b]| <= length
    ensures Filled(flat, own, length, 0)
  {
    forall b | 0 <= b < |own| ensures TextOf(flat, b, length, |own|) == Zeros(length) {
      RowInRange(b, length, |own|);
    }
  }

  ghost function IdsOf(encs: seq<Encoding>): (own: seq<seq<nat>>)
    ensures |own| == |encs| && forall b | 0 <= b < |encs| :: own[b] == encs[b].ids
  {
    seq(|encs|, b requires 0 <= b < |encs| => encs[b].ids)
  }

  ghost function MasksOf(encs: seq<Encoding>): (own: seq<seq<nat>>)
    ensures |own| == |encs| && forall b | 0 <= b < |encs| :: own[b] == OwnMask(encs[b])
  {
    seq(|encs|, b requires 0 <= b < |encs| => OwnMask(encs[b]))
  }

  /** Both buffers hold the first n texts. */
  ghost predicate BothFilled(ids: seq<nat>, mask: seq<nat>, encs: seq<Encoding>, length: nat, n: nat) {
    Filled(ids, IdsOf(encs), length, n) && Filled(mask, MasksOf(encs), length, n)
  }

  /** Number by number: token j of text b stands at b * length + j, and padding is zeros. Where the
      tokenizer gave no mask the token counts. */
  lemma FilledMeans(ids: seq<nat>, mask: seq<nat>, encs: seq<Encoding>, length: nat, b: nat, j: nat)
    requires BothFilled(ids, mask, encs, length, |encs|) && b < |encs| && j < length
    ensures var i, e := b * length + j, encs[b];
      && 0 <= i < |ids| == |mask| == |encs| * length
      && ids[i] == (if j < |e.ids| then e.ids[j] else 0)
      && mask[i] == (if j >= |e.ids| then 0 else if j < |e.mask| then e.mask[j] else 1)
  {
    CellInRange(b, j, length, |encs|);
    RowInRange(b, length, |encs|);
    assert TextOf(ids, b, length, |encs|)[j] == ids[b * length + j];
    assert TextOf(mask, b, length, |encs|)[j] == mask[b * length + j];
    assert TextOf(ids, b, length, |encs|) == Padded(IdsOf(encs)[b], length);
    assert TextOf(mask, b, length, |encs|) == Padded(MasksOf(encs)[b], length);
  }

  method FillNext(ids: array<nat>, mask: array<nat>, encs: seq<Encoding>, i: nat, length: nat)
    requires ids != mask && i < |encs| && BothFilled(ids[..], mask[..], encs, length, i)
    modifies ids, mask
    ensures BothFilled(ids[..], mask[..], encs, length, i + 1)
  {
    RowInRange(i, length, |encs|);
    ghost var wasIds, wasMask := ids[..], mask[..];
    assert TextOf(wasIds, i, length, |encs|) == TextOf(wasMask, i, length, |encs|) == Zeros(length);
    assert ids[i * length..i * length + length] == mask[i * length..i * length + length] == Zeros(length);
    assert |IdsOf(encs)[i]| <= length;
    FillText(ids, mask, i * length, encs[i], length);
    FilledOneMore(wasIds, ids[..], IdsOf(encs), length, i);
    FilledOneMore(wasMask, mask[..], MasksOf(encs), length, i);
  }

  method Fill(encs: seq<Encoding>, length: nat) returns (ids: array<nat>, mask: array<nat>)
    requires forall b | 0 <= b < |encs| :: |encs[b].ids| <= length
    ensures fresh(ids) && fresh(mask)
    ensures BothFilled(ids[..], mask[..], encs, length, |encs|)
  {
    ids := new nat[|encs| * length](_ => 0);
    mask := new nat[|encs| * length](_ => 0);
    FreshIsFilled(ids[..], IdsOf(encs), length);
    FreshIsFilled(mask[..], MasksOf(encs), length);
    for i := 0 to |encs|
      invariant fresh(ids) && fresh(mask) && ids != mask
      invariant BothFilled(ids[..], mask[..], encs, length, i)
    {
      FillNext(ids, mask, encs, i, length);
    }
  }

  // ---- a batch ----

  /** The longest text of a batch, and one at least. */
  method BatchLength(encs: seq<Encoding>) returns (length: nat)
    ensures length > 0 && forall b | 0 <= b < |encs| :: |encs[b].ids| <= length
    ensures length == 1 || exists b :: 0 <= b < |encs| && |encs[b].ids| == length
  {
    length := 0;
    for i := 0 to |encs|
      invariant forall b | 0 <= b < i :: |encs[b].ids| <= length
      invariant length == 0 || exists b :: 0 <= b < i && |encs[b].ids| == length
    {
      if |encs[i].ids| > length {
        length := |encs[i].ids|;
      }
    }
    if length == 0 {
      length := 1;
    }
  }

  /** What the model said about the tokens of text b itself. */
  ghost function OwnRows(hs: Tensor, b: nat, n: nat): (rows: seq<seq<real>>)
    requires b < hs.batch && n <= hs.length
    ensures |rows| == n && forall s | 0 <= s < n :: |rows[s]| == hs.dim
  {
    Rows(hs, b)[..n]
  }

  /** The vector a text gets from the answers at its own tokens, whatever batch it was in. */
  ghost predicate IsVectorOf(v: seq<real>, hs: Tensor, b: nat, e: Encoding, sqrt: real -> real) {
    && b < hs.batch && |e.ids| <= hs.length
    && v == Pooled(OwnRows(hs, b, |e.ids|), OwnMask(e), hs.dim, sqrt)
  }

  /** A text's vector comes from its own rows and mask alone. */
  lemma OnlyOwnTokensMatter(hs: Tensor, maskFlat: seq<nat>, encs: seq<Encoding>, b: nat, sqrt: real -> real)
    requires |encs| == hs.batch && b < hs.batch && Filled(maskFlat, MasksOf(encs), hs.length, |encs|)
    ensures |encs[b].ids| <= hs.length
    ensures Pooled(Rows(hs, b), TextOf(maskFlat, b, hs.length, hs.batch), hs.dim, sqrt) ==
      Pooled(OwnRows(hs, b, |encs[b].ids|), OwnMask(encs[b]), hs.dim, sqrt)
  {
    var n := |encs[b].ids|;
    assert |MasksOf(encs)[b]| == n;
    var own, pad := Rows(hs, b)[..n], Rows(hs, b)[n..];
    assert Rows(hs, b) == own + pad;
    PaddingIsInvisible(own, OwnMask(encs[b]), pad, Zeros(hs.length - n), hs.dim, sqrt);
  }

  /** The same text with the same answers at its tokens gets the same vector in any two batches. */
  lemma SameVectorInAnyBatch(v: seq<real>, w: seq<real>, hs: Tensor, b: nat, other: Tensor, c: nat, e: Encoding, sqrt: real -> real)
    requires IsVectorOf(v, hs, b, e, sqrt) && IsVectorOf(w, other, c, e, sqrt) && hs.dim == other.dim
    requires forall s | 0 <= s < |e.ids| :: Rows(hs, b)[s] == Rows(other, c)[s]
    ensures v == w
  {
    assert OwnRows(hs, b, |e.ids|) == OwnRows(other, c, |e.ids|);
  }

  method PoolAll(hs: Tensor, maskFlat: array<nat>, encs: seq<Encoding>, sqrt: real -> real) returns (out: seq<seq<real>>)
    requires hs.batch == |encs| && Filled(maskFlat[..], MasksOf(encs), hs.length, |encs|)
    ensures |out| == |encs|
    ensures forall b | 0 <= b < |encs| :: IsVectorOf(out[b], hs, b, encs[b], sqrt)
  {
    out := [];
    for b := 0 to |encs|
      invariant |out| == b
      invariant forall j | 0 <= j < b :: IsVectorOf(out[j], hs, j, encs[j], sqrt)
    {
      var pooled := PoolText(hs, maskFlat, b, sqrt);
      OnlyOwnTokensMatter(hs, maskFlat[..], encs, b, sqrt);
      out := out + [pooled[..]];
    }
  }

  /** Pads, asks the model, pools every text. The model is any function of the two flat buffers and
      their shape; no answer, or one of another shape or dimension, is an error. */
  method EncodeBatch(encs: seq<Encoding>, run: (seq<nat>, seq<nat>, nat, nat) -> Option<Tensor>, expectedDim: nat, sqrt: real -> real)
    returns (out: Option<seq<seq<real>>>, ghost ids: seq<nat>, ghost mask: seq<nat>, ghost length: nat)
    ensures encs == [] ==> out == Some([])
    ensures encs != [] ==> length > 0 && BothFilled(ids, mask, encs, length, |encs|)
    ensures encs != [] ==>
      var answer := run(ids, mask, |encs|, length);
      (out.Some? <==> answer.Some? && answer.value.batch == |encs| && answer.value.length == length && answer.value.dim == expectedDim)
    ensures encs != [] && out.Some? ==>
      var hs := run(ids, mask, |encs|, length).value;
      |out.value| == |encs| && forall b | 0 <= b < |encs| :: IsVectorOf(out.value[b], hs, b, encs[b], sqrt)
  {
    ids, mask, length := [], [], 0;
    if |encs| == 0 {
      return Some([]), ids, mask, length;
    }
    var maxLen := BatchLength(encs);
    var idsFlat, maskFlat := Fill(encs, maxLen);
    ids, mask, length := idsFlat[..], maskFlat[..], maxLen;
    var answer := run(idsFlat[..], maskFlat[..], |encs|, maxLen);
    if answer.None? {
      return None, ids, mask, length;
    }
    var hs := answer.value;
    if hs.batch != |encs| || hs.length != maxLen {
      return None, ids, mask, length;
    }
    if hs.dim != expectedDim {
      return None, ids, mask, length;
    }
    var vectors := PoolAll(hs, maskFlat, encs, sqrt);
    return Some(vectors), ids, mask, length;
  }
}
