/** Finite sums over sequences of reals: the plain sum, the dot product with a coefficient
    sequence, and the arithmetic mean (SQL `AVG`). */
module Sums {

  function Sum(xs: seq<real>): real {
    if xs == [] then 0.0 else xs[0] + Sum(xs[1..])
  }

  function Dot(xs: seq<real>, ys: seq<real>): real
    requires |xs| == |ys|
  {
    if xs == [] then 0.0 else Times(xs[0], ys[0]) + Dot(xs[1..], ys[1..])
  }

  /** `c * x`, named so that the solver multiplies one pair at a time. */
  function Times(c: real, x: real): real {
    c * x
  }

  /** The arithmetic mean of a non-empty sequence. */
  function Mean(xs: seq<real>): real
    requires xs != []
  {
    Sum(xs) / (|xs| as real)
  }

  lemma SumStep(t: seq<real>, k: nat)
    requires k < |t|
    ensures Sum(t[k..]) == t[k] + Sum(t[k + 1..])
  {
    assert t[k..][1..] == t[k + 1..];
  }

  /** A sum of nine terms, unfolded. */
  lemma SumNine(t: seq<real>)
    requires |t| == 9
    ensures Sum(t) == t[0] + t[1] + t[2] + t[3] + t[4] + t[5] + t[6] + t[7] + t[8]
  {
    assert t[0..] == t;
    SumStep(t, 0); SumStep(t, 1); SumStep(t, 2); SumStep(t, 3); SumStep(t, 4);
    SumStep(t, 5); SumStep(t, 6); SumStep(t, 7); SumStep(t, 8);
    assert Sum(t[9..]) == 0.0;
  }

  lemma DotStep(t: seq<real>, y: seq<real>, k: nat)
    requires |t| == |y| && k < |t|
    ensures Dot(t[k..], y[k..]) == Times(t[k], y[k]) + Dot(t[k + 1..], y[k + 1..])
  {
    assert t[k..][1..] == t[k + 1..] && y[k..][1..] == y[k + 1..];
  }

  /** A dot product of nine terms, unfolded. */
  lemma DotNine(t: seq<real>, y: seq<real>)
    requires |t| == |y| == 9
    ensures Dot(t, y) == Times(t[0], y[0]) + Times(t[1], y[1]) + Times(t[2], y[2]) + Times(t[3], y[3]) + Times(t[4], y[4])
                         + Times(t[5], y[5]) + Times(t[6], y[6]) + Times(t[7], y[7]) + Times(t[8], y[8])
  {
    assert t[0..] == t && y[0..] == y;
    DotStep(t, y, 0); DotStep(t, y, 1); DotStep(t, y, 2); DotStep(t, y, 3); DotStep(t, y, 4); DotStep(t, y, 5); DotStep(t, y, 6); DotStep(t, y, 7); DotStep(t, y, 8);
    assert Dot(t[9..], y[9..]) == 0.0;
  }

  /** A sum of eight terms, unfolded. */
  lemma SumEight(t: seq<real>)
    requires |t| == 8
    ensures Sum(t) == t[0] + t[1] + t[2] + t[3] + t[4] + t[5] + t[6] + t[7]
  {
    assert t[0..] == t;
    SumStep(t, 0); SumStep(t, 1); SumStep(t, 2); SumStep(t, 3); SumStep(t, 4);
    SumStep(t, 5); SumStep(t, 6); SumStep(t, 7);
    assert Sum(t[8..]) == 0.0;
  }

  /** A dot product of eight terms, unfolded. */
  lemma DotEight(t: seq<real>, y: seq<real>)
    requires |t| == |y| == 8
    ensures Dot(t, y) == Times(t[0], y[0]) + Times(t[1], y[1]) + Times(t[2], y[2]) + Times(t[3], y[3]) + Times(t[4], y[4])
                         + Times(t[5], y[5]) + Times(t[6], y[6]) + Times(t[7], y[7])
  {
    assert t[0..] == t && y[0..] == y;
    DotStep(t, y, 0); DotStep(t, y, 1); DotStep(t, y, 2); DotStep(t, y, 3); DotStep(t, y, 4); DotStep(t, y, 5); DotStep(t, y, 6); DotStep(t, y, 7);
    assert Dot(t[8..], y[8..]) == 0.0;
  }

  /** A sum of five terms, unfolded. */
  lemma SumFive(t: seq<real>)
    requires |t| == 5
    ensures Sum(t) == t[0] + t[1] + t[2] + t[3] + t[4]
  {
    assert t[0..] == t;
    SumStep(t, 0); SumStep(t, 1); SumStep(t, 2); SumStep(t, 3); SumStep(t, 4);
    assert Sum(t[5..]) == 0.0;
  }

  /** A dot product of five terms, unfolded. */
  lemma DotFive(t: seq<real>, y: seq<real>)
    requires |t| == |y| == 5
    ensures Dot(t, y) == Times(t[0], y[0]) + Times(t[1], y[1]) + Times(t[2], y[2]) + Times(t[3], y[3]) + Times(t[4], y[4])
  {
    assert t[0..] == t && y[0..] == y;
    DotStep(t, y, 0); DotStep(t, y, 1); DotStep(t, y, 2); DotStep(t, y, 3); DotStep(t, y, 4);
    assert Dot(t[5..], y[5..]) == 0.0;
  }

  // ---------------------------------------------------------------------------------------
  // Small algebra steps, kept apart so that each inductive step is a substitution.

  /** If `t = k y + w` and `t2 = (c k) y + c w` then `t2 = c t`. */
  lemma ScaleStep(c: real, k: real, y: real, w: real, t: real, t2: real)
    requires t == Times(k, y) + w && t2 == Times(Times(c, k), y) + Times(c, w)
    ensures t2 == Times(c, t)
  {
  }

  /** If `t = k + w` and `t2 = c k + c w` then `t2 = c t`. */
  lemma ScaleSumStep(c: real, k: real, w: real, t: real, t2: real)
    requires t == k + w && t2 == Times(c, k) + Times(c, w)
    ensures t2 == Times(c, t)
  {
  }

  /** `k * a <= k * b` for a non-negative `k`. */
  lemma MulLeft(k: real, a: real, b: real)
    requires k >= 0.0 && a <= b
    ensures k * a <= k * b
  {
    assert k * (b - a) >= 0.0;
  }

  /** One step of the bound: a non-negative term with coefficient in `[lo, hi]` added to a
      bounded rest keeps the bound. */
  lemma BoundStep(k: real, y: real, w: real, s: real, lo: real, hi: real)
    requires k >= 0.0 && lo <= y <= hi
    requires Times(lo, s) <= w <= Times(hi, s)
    ensures Times(lo, k + s) <= Times(k, y) + w <= Times(hi, k + s)
  {
    MulLeft(k, lo, y);
    MulLeft(k, y, hi);
    assert lo * (k + s) == k * lo + lo * s;
    assert hi * (k + s) == k * hi + hi * s;
  }

  // ---------------------------------------------------------------------------------------
  // Scaling.

  /** Scaling every term scales the dot product. */
  lemma {:induction false} DotScales(xs: seq<real>, xs2: seq<real>, ys: seq<real>, c: real)
    requires |xs| == |ys| == |xs2|
    requires forall i :: 0 <= i < |xs| ==> xs2[i] == Times(c, xs[i])
    ensures Dot(xs2, ys) == Times(c, Dot(xs, ys))
  {
    if xs == [] {
      assert Times(c, 0.0) == 0.0;
    } else {
      DotScales(xs[1..], xs2[1..], ys[1..], c);
      assert xs2[0] == Times(c, xs[0]);
      ScaleStep(c, xs[0], ys[0], Dot(xs[1..], ys[1..]), Dot(xs, ys), Dot(xs2, ys));
    }
  }

  /** Scaling every term scales the sum. */
  lemma {:induction false} SumScales(xs: seq<real>, xs2: seq<real>, c: real)
    requires |xs| == |xs2|
    requires forall i :: 0 <= i < |xs| ==> xs2[i] == Times(c, xs[i])
    ensures Sum(xs2) == Times(c, Sum(xs))
  {
    if xs == [] {
      assert Times(c, 0.0) == 0.0;
    } else {
      SumScales(xs[1..], xs2[1..], c);
      assert xs2[0] == Times(c, xs[0]);
      ScaleSumStep(c, xs[0], Sum(xs[1..]), Sum(xs), Sum(xs2));
    }
  }

  // ---------------------------------------------------------------------------------------
  // Changing one term.

  /** Two sequences that differ at position `j` only: the dot products and the sums differ by
      that term alone. */
  lemma {:induction false} DiffersAt(xs1: seq<real>, xs0: seq<real>, ys: seq<real>, j: nat)
    requires |xs1| == |xs0| == |ys| && j < |xs1|
    requires forall i :: 0 <= i < |xs1| && i != j ==> xs1[i] == xs0[i]
    ensures Dot(xs1, ys) == Dot(xs0, ys) + (xs1[j] - xs0[j]) * ys[j]
    ensures Sum(xs1) == Sum(xs0) + (xs1[j] - xs0[j])
  {
    if j == 0 {
      assert xs1[1..] == xs0[1..];
      var a, b, y := xs1[0], xs0[0], ys[0];
      assert a * y == b * y + (a - b) * y;
    } else {
      DiffersAt(xs1[1..], xs0[1..], ys[1..], j - 1);
      assert xs1[0] == xs0[0];
    }
  }

  /** Terms that grow only where their coefficient is zero leave the dot product unchanged and
      do not lower the sum. */
  lemma {:induction false} GrowsWhereZero(xs1: seq<real>, xs0: seq<real>, ys: seq<real>)
    requires |xs1| == |xs0| == |ys|
    requires forall i :: 0 <= i < |xs1| ==> xs1[i] == xs0[i] || (ys[i] == 0.0 && xs1[i] >= xs0[i])
    ensures Dot(xs1, ys) == Dot(xs0, ys)
    ensures Sum(xs1) >= Sum(xs0)
  {
    if xs1 != [] {
      GrowsWhereZero(xs1[1..], xs0[1..], ys[1..]);
      if xs1[0] != xs0[0] {
        assert ys[0] == 0.0;
        assert xs1[0] * ys[0] == 0.0 == xs0[0] * ys[0];
      }
    }
  }

  // ---------------------------------------------------------------------------------------
  // Bounds.

  /** With non-negative terms and every coefficient in `[lo, hi]`, the dot product lies between
      `lo` and `hi` times the sum: it is a weighted mean of the coefficients. */
  lemma {:induction false} DotBounds(xs: seq<real>, ys: seq<real>, lo: real, hi: real)
    requires |xs| == |ys|
    requires forall i :: 0 <= i < |xs| ==> xs[i] >= 0.0 && lo <= ys[i] <= hi
    ensures Times(lo, Sum(xs)) <= Dot(xs, ys) <= Times(hi, Sum(xs))
  {
    if xs == [] {
      assert Times(lo, 0.0) == 0.0 == Times(hi, 0.0);
    } else {
      DotBounds(xs[1..], ys[1..], lo, hi);
      BoundStep(xs[0], ys[0], Dot(xs[1..], ys[1..]), Sum(xs[1..]), lo, hi);
    }
  }

  /** A sum of terms each at least `lo` is at least `|xs| * lo`, and likewise above. */
  lemma {:induction false} SumBounds(xs: seq<real>, lo: real, hi: real)
    requires forall i :: 0 <= i < |xs| ==> lo <= xs[i] <= hi
    ensures (|xs| as real) * lo <= Sum(xs) <= (|xs| as real) * hi
  {
    if xs != [] {
      SumBounds(xs[1..], lo, hi);
      var n := |xs[1..]| as real;
      assert (|xs| as real) * lo == lo + n * lo;
      assert (|xs| as real) * hi == hi + n * hi;
    }
  }

  /** The mean of one value is that value. */
  lemma MeanOfOne(x: real)
    ensures Mean([x]) == x
  {
    assert [x][1..] == [];
    assert Sum([x]) == x;
    assert (|[x]| as real) == 1.0;
  }

  /** The mean of a non-empty sequence lies between its smallest and its largest element. */
  lemma MeanBounds(xs: seq<real>, lo: real, hi: real)
    requires xs != []
    requires forall i :: 0 <= i < |xs| ==> lo <= xs[i] <= hi
    ensures lo <= Mean(xs) <= hi
  {
    SumBounds(xs, lo, hi);
    var n, s := |xs| as real, Sum(xs);
    assert Mean(xs) * n == s;
    if Mean(xs) < lo {
      MulLeft(n, Mean(xs), lo);
      assert false;
    }
    if Mean(xs) > hi {
      MulLeft(n, hi, Mean(xs));
      assert false;
    }
  }

  /** The mean of a constant sequence is that constant. */
  lemma MeanOfConstant(xs: seq<real>, v: real)
    requires xs != []
    requires forall i :: 0 <= i < |xs| ==> xs[i] == v
    ensures Mean(xs) == v
  {
    MeanBounds(xs, v, v);
  }
}
