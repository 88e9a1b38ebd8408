/** `arma::ind2sub` of tomominer/core/src/arma_extend.cpp: a linear index
    into column-major subscripts.  `ldiv` divides truncating toward zero;
    each quotient is stored into an unsigned 64-bit vector. */
module ArmaExtend {

  const WordModulus: int := 0x1_0000_0000_0000_0000

  /** A `long` stored into an unsigned 64-bit element. */
  function Word(x: int): (w: nat)
    ensures w < WordModulus
    ensures 0 <= x < WordModulus ==> w == x
  {
    x % WordModulus
  }

  function Words(s: seq<int>): (w: seq<nat>)
    ensures |w| == |s| && forall k :: 0 <= k < |s| ==> w[k] == Word(s[k])
  {
    seq(|s|, k requires 0 <= k < |s| => Word(s[k]))
  }

  /** `ldiv(a, b).quot` for a positive divisor: truncation toward zero. */
  function TDiv(a: int, b: int): int
    requires b > 0
  {
    if a >= 0 then a / b else -((-a) / b)
  }

  /** `ldiv(a, b).rem`. */
  function TRem(a: int, b: int): int
    requires b > 0
  {
    a - b * TDiv(a, b)
  }

  /** Truncating division: the remainder has the sign of the dividend and
      is smaller than the divisor in magnitude. */
  lemma TDivSpec(a: int, b: int)
    requires b > 0
    ensures a == b * TDiv(a, b) + TRem(a, b)
    ensures a >= 0 ==> 0 <= TRem(a, b) < b && TDiv(a, b) == a / b && TDiv(a, b) >= 0
    ensures a <= 0 ==> -b < TRem(a, b) <= 0 && TDiv(a, b) <= 0
  {
    if a < 0 {
      var q := (-a) / b;
      DivNonneg(-a, b);
      ModBound(-a, b);
      NegMul(b, q);
      assert TRem(a, b) == -((-a) - b * q);
    } else {
      DivNonneg(a, b);
      ModBound(a, b);
    }
  }

  /** Euclidean division of a non-negative number leaves a remainder below
      the divisor. */
  lemma ModBound(a: int, b: int)
    requires a >= 0 && b > 0
    ensures 0 <= a - b * (a / b) < b
  {
    assert a == b * (a / b) + a % b;
  }

  lemma NegMul(b: int, q: int)
    ensures b * (-q) == -(b * q)
  {
  }

  /** The column-major stride of dimension `k`: `shape(0)·…·shape(k-1)`. */
  function Stride(shape: seq<nat>, k: nat): nat
    requires k <= |shape|
  {
    if k == 0 then 1 else Stride(shape, k - 1) * shape[k - 1]
  }

  /** Every extent but the last is nonzero: what `ldiv` needs. */
  predicate Divisible(shape: seq<nat>)
  {
    forall j :: 0 <= j < |shape| - 1 ==> shape[j] > 0
  }

  lemma {:induction false} StridePositive(shape: seq<nat>, k: nat)
    requires k < |shape| && Divisible(shape)
    ensures Stride(shape, k) > 0
  {
    if k > 0 {
      StridePositive(shape, k - 1);
    }
  }

  /** Subscripts `0..k` from remainder `r`: the highest one is the quotient
      by stride `k`, the lower ones come from the remainder. */
  function Digits(shape: seq<nat>, k: nat, r: int): (s: seq<int>)
    requires k < |shape| && Divisible(shape)
    ensures |s| == k + 1
  {
    StridePositive(shape, k);
    (if k == 0 then [] else Digits(shape, k - 1, TRem(r, Stride(shape, k)))) + [TDiv(r, Stride(shape, k))]
  }

  /** The signed quotients the loop computes, before they are stored. */
  function Subs(shape: seq<nat>, idx: int): (s: seq<int>)
    requires |shape| >= 1 && Divisible(shape)
    ensures |s| == |shape|
  {
    Digits(shape, |shape| - 1, idx)
  }

  /** `Σ_{j<k} sub(j)·stride(j)`. */
  function Combine(sub: seq<int>, shape: seq<nat>, k: nat): int
    requires k <= |sub| && k <= |shape|
  {
    if k == 0 then 0 else Combine(sub, shape, k - 1) + sub[k - 1] * Stride(shape, k - 1)
  }

  lemma {:induction false} CombinePrefix(a: seq<int>, b: seq<int>, shape: seq<nat>, k: nat)
    requires k <= |a| && k <= |b| && k <= |shape| && a[..k] == b[..k]
    ensures Combine(a, shape, k) == Combine(b, shape, k)
  {
    if k > 0 {
      assert a[..k - 1] == a[..k][..k - 1] && b[..k - 1] == b[..k][..k - 1];
      assert a[k - 1] == a[..k][k - 1];
      CombinePrefix(a, b, shape, k - 1);
    }
  }

  /** Reconstruction: the subscripts weighted by their strides add up to the
      remainder they came from, for any sign of it. */
  lemma {:induction false} DigitsReconstruct(shape: seq<nat>, k: nat, r: int)
    requires k < |shape| && Divisible(shape)
    ensures Combine(Digits(shape, k, r), shape, k + 1) == r
  {
    var p := Stride(shape, k);
    StridePositive(shape, k);
    var s := Digits(shape, k, r);
    var q := TDiv(r, p);
    assert s[k] == q;
    if k == 0 {
      assert Combine(s, shape, 0) == 0;
      assert p == 1;
    } else {
      var rr := TRem(r, p);
      var lower := Digits(shape, k - 1, rr);
      assert s[..k] == lower[..k];
      CombinePrefix(s, lower, shape, k);
      DigitsReconstruct(shape, k - 1, rr);
      assert Combine(s, shape, k) == rr;
      assert rr == r - p * q;
      assert q * p == p * q;
    }
  }

  /** Bounds: every subscript below the highest is under its extent in
      magnitude, and all have the sign of the remainder. */
  lemma {:induction false} DigitsBounded(shape: seq<nat>, k: nat, r: int)
    requires k < |shape| && Divisible(shape)
    ensures forall j :: 0 <= j < k ==> -(shape[j] as int) < Digits(shape, k, r)[j] < shape[j]
    ensures r >= 0 ==> forall j :: 0 <= j <= k ==> Digits(shape, k, r)[j] >= 0
    ensures r >= 0 ==> forall j :: 0 <= j < k ==> 0 <= Digits(shape, k, r)[j] < shape[j]
    ensures r <= 0 ==> forall j :: 0 <= j <= k ==> Digits(shape, k, r)[j] <= 0
  {
    var p := Stride(shape, k);
    StridePositive(shape, k);
    TDivSpec(r, p);
    if k > 0 {
      var rr := TRem(r, p);
      DigitsBounded(shape, k - 1, rr);
      var s := Digits(shape, k, r);
      var lower := Digits(shape, k - 1, rr);
      assert forall j :: 0 <= j < k ==> s[j] == lower[j];
      TopBound(shape, k, rr);
    }
  }

  /** The top subscript of a remainder below stride `k` is under extent
      `k - 1` in magnitude. */
  lemma TopBound(shape: seq<nat>, k: nat, rr: int)
    requires 0 < k < |shape| && Divisible(shape) && -(Stride(shape, k) as int) < rr < Stride(shape, k)
    ensures -(shape[k - 1] as int) < Digits(shape, k - 1, rr)[k - 1] < shape[k - 1]
  {
    var q := Stride(shape, k - 1);
    DigitsTop(shape, k - 1, rr);
    assert Stride(shape, k) == q * shape[k - 1];
    QuotientBound(rr, q, shape[k - 1]);
  }

  lemma QuotientBound(a: int, q: int, e: int)
    requires q > 0 && e > 0 && -(q * e) < a < q * e
    ensures -e < TDiv(a, q) < e
  {
    var b := if a >= 0 then a else -a;
    assert b < q * e;
    QuotientBelow(b, q, e);
    DivNonneg(b, q);
  }

  lemma DivNonneg(b: int, q: int)
    requires b >= 0 && q > 0
    ensures b / q >= 0
  {
  }

  lemma QuotientBelow(a: int, p: int, e: int)
    requires a >= 0 && p > 0
    ensures a / p < e <==> a < p * e
  {
    var t, r := a / p, a % p;
    assert a == p * t + r && 0 <= r < p;
    if t < e {
      MulLeft(p, t, e - 1);
      assert p * (e - 1) == p * e - p;
    } else {
      MulLeft(p, e, t);
    }
  }

  lemma MulLeft(p: int, x: int, y: int)
    requires p > 0 && x <= y
    ensures p * x <= p * y
  {
    assert p * y - p * x == p * (y - x);
  }

  /** For a non-negative index the full reconstruction holds, every
      subscript but the last is within its extent, and the last one is
      within its extent exactly when the index is below the product of all
      extents. */
  lemma Ind2SubCorrect(shape: seq<nat>, idx: int)
    requires |shape| >= 1 && Divisible(shape) && idx >= 0
    ensures Combine(Subs(shape, idx), shape, |shape|) == idx
    ensures forall j :: 0 <= j < |shape| - 1 ==> 0 <= Subs(shape, idx)[j] < shape[j]
    ensures 0 <= Subs(shape, idx)[|shape| - 1]
    ensures Subs(shape, idx)[|shape| - 1] < shape[|shape| - 1] <==> idx < Stride(shape, |shape|)
  {
    var d := |shape|;
    DigitsReconstruct(shape, d - 1, idx);
    SubsWithinExtents(shape, idx);
    LastSubscript(shape, idx);
  }

  lemma SubsWithinExtents(shape: seq<nat>, idx: int)
    requires |shape| >= 1 && Divisible(shape) && idx >= 0
    ensures forall j :: 0 <= j < |shape| - 1 ==> 0 <= Subs(shape, idx)[j] < shape[j]
    ensures 0 <= Subs(shape, idx)[|shape| - 1]
  {
    DigitsBounded(shape, |shape| - 1, idx);
  }

  lemma LastSubscript(shape: seq<nat>, idx: int)
    requires |shape| >= 1 && Divisible(shape) && idx >= 0
    ensures Subs(shape, idx)[|shape| - 1] < shape[|shape| - 1] <==> idx < Stride(shape, |shape|)
  {
    var d := |shape|;
    var p := Stride(shape, d - 1);
    var e := shape[d - 1];
    DigitsTop(shape, d - 1, idx);
    QuotientBelow(idx, p, e);
    assert Stride(shape, d) == p * e;
  }

  /** The highest subscript is the truncated quotient by its stride. */
  lemma DigitsTop(shape: seq<nat>, k: nat, r: int)
    requires k < |shape| && Divisible(shape)
    ensures Stride(shape, k) > 0 && Digits(shape, k, r)[k] == TDiv(r, Stride(shape, k))
    ensures r >= 0 ==> Digits(shape, k, r)[k] == r / Stride(shape, k)
  {
    StridePositive(shape, k);
  }

  lemma {:induction false} DigitsSplit(shape: seq<nat>, k: nat, r: int)
    requires 0 < k < |shape| && Divisible(shape)
    ensures Stride(shape, k) > 0 && Digits(shape, k, r)[..k] == Digits(shape, k - 1, TRem(r, Stride(shape, k)))
  {
    StridePositive(shape, k);
  }

  /** One turn of the peeling loop: with subscripts `0..k` still to come
      from remainder `r`, subscript `k` is the quotient by stride `k` and
      the rest come from the remainder of that division. */
  lemma PeelStep(shape: seq<nat>, all: seq<int>, k: nat, r: int)
    requires k < |shape| && k < |all| && Divisible(shape) && all[..k + 1] == Digits(shape, k, r)
    ensures Stride(shape, k) > 0 && all[k] == TDiv(r, Stride(shape, k))
    ensures k > 0 ==> all[..k] == Digits(shape, k - 1, TRem(r, Stride(shape, k)))
  {
    StridePositive(shape, k);
    assert all[k] == all[..k + 1][k];
    if k > 0 {
      DigitsSplit(shape, k, r);
      assert all[..k] == all[..k + 1][..k];
    }
  }

  /** The first loop of `arma::ind2sub`: `m(d-1) = 1` and each slot below
      is the one above times the next extent, so slot `d-1-k` holds
      stride `k`. */
  method StrideTable(shape: array<nat>) returns (m: array<nat>)
    requires shape.Length >= 1
    ensures fresh(m) && m.Length == shape.Length
    ensures forall k :: 0 <= k < m.Length ==> m[k] == Stride(shape[..], m.Length - 1 - k)
  {
    var d := shape.Length;
    m := new nat[d];
    m[d - 1] := 1;
    var i := 1;
    while i < d
      invariant 1 <= i <= d
      invariant forall k :: d - i <= k < d ==> m[k] == Stride(shape[..], d - 1 - k)
    {
      m[d - i - 1] := m[d - i] * shape[i - 1];
      i := i + 1;
    }
  }

  /** `arma::ind2sub` as written: fill the strides from the last slot down,
      then peel subscripts off from the highest dimension. */
  method Ind2Sub(shape: array<nat>, idx: int) returns (sub: array<nat>)
    requires shape.Length >= 1 && Divisible(shape[..])
    ensures fresh(sub) && sub[..] == Words(Subs(shape[..], idx))
  {
    var d := shape.Length;
    sub := new nat[d];
    var m := StrideTable(shape);
    ghost var all := Subs(shape[..], idx);
    var r := idx;
    var i := 0;
    while i < d
      invariant 0 <= i <= d
      invariant forall k :: d - i <= k < d ==> sub[k] == Word(all[k])
      modifies sub
      invariant i < d ==> all[..d - i] == Digits(shape[..], d - 1 - i, r)
    {
      var k := d - 1 - i;
      PeelStep(shape[..], all, k, r);
      sub[k] := Word(TDiv(r, m[i]));
      r := TRem(r, m[i]);
      i := i + 1;
    }
    assert sub[..] == Words(all);
  }
}
