/** Sums, scalings and weighted sums of score vectors. */
module RealSeq {

  /**
   * `a * b`, kept as one term: a product of two variables directly inside a
   * sequence update defeats the solver's reasoning about the update.
   */
  function Mul(a: real, b: real): real {
    a * b
  }

  lemma MulDistributes(a: real, b: real, c: real)
    ensures Mul(a, b + c) == Mul(a, b) + Mul(a, c)
  {
  }

  /** The sign of a product of a non-negative and a positive factor. */
  lemma MulSign(a: real, b: real)
    requires a >= 0.0
    ensures b >= 0.0 ==> Mul(a, b) >= 0.0
    ensures b > 0.0 ==> (Mul(a, b) > 0.0 <==> a > 0.0)
  {
  }

  /** Dividing by a positive number keeps the sign. */
  lemma DivSign(a: real, t: real)
    requires t > 0.0
    ensures a >= 0.0 ==> a / t >= 0.0
    ensures a / t > 0.0 <==> a > 0.0
  {
  }

  /** `sum(v)`, adding from the left as Python does. */
  function Sum(v: seq<real>): real {
    if v == [] then 0.0 else Sum(v[..|v| - 1]) + v[|v| - 1]
  }

  function Zeros(n: nat): (z: seq<real>)
    ensures |z| == n && forall i | 0 <= i < n :: z[i] == 0.0
  {
    seq(n, _ => 0.0)
  }

  /** `{k: v / t for k, v in d.items()}` */
  function Div(v: seq<real>, t: real): (r: seq<real>)
    requires t != 0.0
    ensures |r| == |v| && forall i | 0 <= i < |v| :: r[i] == v[i] / t
  {
    seq(|v|, i requires 0 <= i < |v| => v[i] / t)
  }

  /** The first entry holding the largest value: Python's `max` keeps the earliest of equal maxima. */
  function ArgMax(v: seq<real>): (i: nat)
    requires v != []
    ensures i < |v|
    ensures forall j | 0 <= j < |v| :: v[j] <= v[i]
    ensures forall j | 0 <= j < i :: v[j] < v[i]
    decreases |v|
  {
    if |v| == 1 then 0
    else
      var k := ArgMax(v[..|v| - 1]);
      if v[|v| - 1] > v[k] then |v| - 1 else k
  }

  /** `max(v)` */
  function Max(v: seq<real>): (m: real)
    requires v != []
    ensures m in v && forall j | 0 <= j < |v| :: v[j] <= m
  {
    v[ArgMax(v)]
  }

  lemma {:induction false} SumAppend(a: seq<real>, b: seq<real>)
    ensures Sum(a + b) == Sum(a) + Sum(b)
    decreases |b|
  {
    if b == [] {
      assert a + b == a;
    } else {
      assert (a + b)[..|a + b| - 1] == a + b[..|b| - 1];
      SumAppend(a, b[..|b| - 1]);
    }
  }

  lemma {:induction false} SumZeros(n: nat)
    ensures Sum(Zeros(n)) == 0.0
  {
    if n > 0 {
      assert Zeros(n)[..n - 1] == Zeros(n - 1);
      SumZeros(n - 1);
    }
  }

  lemma {:induction false} SumNonNegative(v: seq<real>)
    requires forall i | 0 <= i < |v| :: v[i] >= 0.0
    ensures Sum(v) >= 0.0
  {
    if v != [] {
      SumNonNegative(v[..|v| - 1]);
    }
  }

  /** The sum of non-negative values is zero only when every value is. */
  lemma {:induction false} SumZeroIffAllZero(v: seq<real>)
    requires forall i | 0 <= i < |v| :: v[i] >= 0.0
    ensures Sum(v) == 0.0 <==> forall i | 0 <= i < |v| :: v[i] == 0.0
  {
    if v != [] {
      var w := v[..|v| - 1];
      SumZeroIffAllZero(w);
      SumNonNegative(w);
      assert forall i | 0 <= i < |w| :: w[i] == v[i];
    }
  }

  /** Dividing every entry by `t` divides the sum by `t`. */
  lemma {:induction false} SumDiv(v: seq<real>, t: real)
    requires t != 0.0
    ensures Sum(Div(v, t)) == Sum(v) / t
    decreases |v|
  {
    if v != [] {
      var w := v[..|v| - 1];
      assert Div(v, t)[..|v| - 1] == Div(w, t);
      SumDiv(w, t);
      DivAdd(Sum(w), v[|v| - 1], t);
    }
  }

  lemma DivAdd(a: real, b: real, t: real)
    requires t != 0.0
    ensures a / t + b / t == (a + b) / t
  {
  }

  /** Normalising by the total leaves entries that sum to 1. */
  lemma Normalised(v: seq<real>)
    requires Sum(v) != 0.0
    ensures Sum(Div(v, Sum(v))) == 1.0
  {
    var t := Sum(v);
    SumDiv(v, t);
    assert t / t == 1.0;
  }

  /** `sum(x * w for x, w in zip(xs, ws))` */
  function Dot(xs: seq<real>, ws: seq<real>): real
    requires |xs| == |ws|
  {
    if xs == [] then 0.0 else Dot(xs[..|xs| - 1], ws[..|ws| - 1]) + Mul(xs[|xs| - 1], ws[|ws| - 1])
  }

  /**
   * A weighted sum with non-negative weights lies between the smallest and
   * the largest value times the total weight.
   */
  lemma {:induction false} DotBounds(xs: seq<real>, ws: seq<real>, lo: real, hi: real)
    requires |xs| == |ws|
    requires forall i | 0 <= i < |ws| :: ws[i] >= 0.0
    requires forall i | 0 <= i < |xs| :: lo <= xs[i] <= hi
    ensures lo * Sum(ws) <= Dot(xs, ws) <= hi * Sum(ws)
  {
    if xs != [] {
      var n := |xs| - 1;
      var xp, wp := xs[..n], ws[..n];
      assert forall i | 0 <= i < |wp| :: wp[i] == ws[i];
      assert forall i | 0 <= i < |xp| :: xp[i] == xs[i];
      DotBounds(xp, wp, lo, hi);
      var d, s := Dot(xp, wp), Sum(wp);
      assert Dot(xs, ws) == d + Mul(xs[n], ws[n]);
      assert Sum(ws) == s + ws[n];
      BoundsStep(lo, hi, d, s, xs[n], ws[n], Dot(xs, ws), Sum(ws));
    } else {
      assert ws == [];
      ZeroBounds(lo, hi, Dot(xs, ws), Sum(ws));
    }
  }

  lemma ZeroBounds(lo: real, hi: real, d: real, s: real)
    requires d == 0.0 && s == 0.0
    ensures lo * s <= d <= hi * s
  {
  }

  /** One more value within the bounds, with a weight that is not negative, keeps a weighted sum within them. */
  lemma BoundsStep(lo: real, hi: real, d: real, s: real, x: real, w: real, d': real, s': real)
    requires lo * s <= d <= hi * s && lo <= x <= hi && w >= 0.0
    requires d' == d + Mul(x, w) && s' == s + w
    ensures lo * s' <= d' <= hi * s'
  {
    MulMonotone(lo, x, w);
    MulMonotone(x, hi, w);
    Distribute(lo, s, w);
    Distribute(hi, s, w);
  }

  /** A weighted mean with non-negative weights of positive total lies within the values' bounds. */
  lemma WeightedMeanBetween(xs: seq<real>, ws: seq<real>, lo: real, hi: real)
    requires |xs| == |ws| && Sum(ws) > 0.0
    requires forall i | 0 <= i < |ws| :: ws[i] >= 0.0
    requires forall i | 0 <= i < |xs| :: lo <= xs[i] <= hi
    ensures lo <= Dot(xs, ws) / Sum(ws) <= hi
  {
    MeanBetween(xs, ws, lo, hi, Dot(xs, ws), Sum(ws));
  }

  /** The quotient of `WeightedMeanBetween`, over its numerator and denominator as plain values. */
  lemma MeanBetween(xs: seq<real>, ws: seq<real>, lo: real, hi: real, d: real, t: real)
    requires |xs| == |ws| && t > 0.0 && d == Dot(xs, ws) && t == Sum(ws)
    requires forall i | 0 <= i < |ws| :: ws[i] >= 0.0
    requires forall i | 0 <= i < |xs| :: lo <= xs[i] <= hi
    ensures lo <= d / t <= hi
  {
    DotBounds(xs, ws, lo, hi);
    ScaledBounds(lo, hi, d, t, Dot(xs, ws), Sum(ws));
  }

  /** Bounds on a weighted sum carry over to the sum divided by its positive total weight. */
  lemma ScaledBounds(lo: real, hi: real, d: real, t: real, d': real, t': real)
    requires t > 0.0 && d == d' && t == t' && lo * t' <= d' <= hi * t'
    ensures lo <= d / t <= hi
  {
    QuotientBetween(d, t, lo, hi);
  }

  lemma QuotientBetween(s: real, t: real, lo: real, hi: real)
    requires t > 0.0 && lo * t <= s <= hi * t
    ensures lo <= s / t <= hi
  {
  }

  /** A mean under weights that are not negative and sum to 1 lies within the values' bounds. */
  lemma WeightedMeanBounds(xs: seq<real>, ws: seq<real>, lo: real, hi: real)
    requires |xs| == |ws| && Sum(ws) == 1.0
    requires forall i | 0 <= i < |ws| :: ws[i] >= 0.0
    requires forall i | 0 <= i < |xs| :: lo <= xs[i] <= hi
    ensures lo <= Dot(xs, ws) <= hi
  {
    DotBounds(xs, ws, lo, hi);
  }

  lemma MulMonotone(a: real, b: real, w: real)
    requires a <= b && w >= 0.0
    ensures a * w <= b * w
  {
  }

  lemma Distribute(c: real, a: real, b: real)
    ensures c * (a + b) == c * a + c * b
  {
  }

  /** Scaling every weight by `c` scales the weighted sum by `c`. */
  lemma {:induction false} DotScale(xs: seq<real>, ws: seq<real>, c: real, vs: seq<real>)
    requires |xs| == |ws| == |vs|
    requires forall i | 0 <= i < |ws| :: vs[i] == ws[i] * c
    ensures Dot(xs, vs) == Dot(xs, ws) * c
  {
    if xs != [] {
      var n := |xs| - 1;
      DotScale(xs[..n], ws[..n], c, vs[..n]);
    }
  }

  lemma {:induction false} SumScale(ws: seq<real>, c: real, vs: seq<real>)
    requires |ws| == |vs|
    requires forall i | 0 <= i < |ws| :: vs[i] == ws[i] * c
    ensures Sum(vs) == Sum(ws) * c
  {
    if ws != [] {
      var n := |ws| - 1;
      SumScale(ws[..n], c, vs[..n]);
    }
  }

  /** One more entry adds its value to the running sum (the step of a summing loop). */
  lemma SumStep(v: seq<real>, k: nat)
    requires k < |v|
    ensures Sum(v[..k + 1]) == Sum(v[..k]) + v[k]
  {
    assert v[..k + 1][..k] == v[..k];
  }

  /** One more pair adds its product to the running weighted sum. */
  lemma DotStep(xs: seq<real>, ws: seq<real>, k: nat)
    requires |xs| == |ws| && k < |xs|
    ensures Dot(xs[..k + 1], ws[..k + 1]) == Dot(xs[..k], ws[..k]) + Mul(xs[k], ws[k])
  {
    assert xs[..k + 1][..k] == xs[..k];
    assert ws[..k + 1][..k] == ws[..k];
  }

  /** `n` copies of `c` sum to `n * c`. */
  lemma {:induction false} SumConst(v: seq<real>, c: real)
    requires forall i | 0 <= i < |v| :: v[i] == c
    ensures Sum(v) == |v| as real * c
  {
    if v != [] {
      SumConst(v[..|v| - 1], c);
    }
  }

  /** A non-negative entry is at most the sum of non-negative entries. */
  lemma {:induction false} EntryAtMostSum(v: seq<real>, k: nat)
    requires k < |v| && forall i | 0 <= i < |v| :: v[i] >= 0.0
    ensures v[k] <= Sum(v)
  {
    var n := |v| - 1;
    SumNonNegative(v[..n]);
    if k < n {
      EntryAtMostSum(v[..n], k);
    }
  }

  /** Values that are all `x` except one `c` sum to `c` plus the others' total. */
  lemma {:induction false} SumOneOff(v: seq<real>, j: nat, c: real, x: real)
    requires j < |v| && v[j] == c
    requires forall i | 0 <= i < |v| && i != j :: v[i] == x
    ensures Sum(v) == c + (|v| - 1) as real * x
  {
    var n := |v| - 1;
    if j == n {
      SumConst(v[..n], x);
    } else {
      SumOneOff(v[..n], j, c, x);
    }
  }

  /** Adding `d` to one entry adds `d` to the sum. */
  lemma {:induction false} SumUpdate(v: seq<real>, i: nat, d: real)
    requires i < |v|
    ensures Sum(v[i := v[i] + d]) == Sum(v) + d
  {
    var n := |v| - 1;
    var w := v[i := v[i] + d];
    if i < n {
      assert w[..n] == v[..n][i := v[..n][i] + d];
      SumUpdate(v[..n], i, d);
    } else {
      assert w[..n] == v[..n];
    }
  }

  /** Values within `[lo, hi]` sum to between `lo` and `hi` times their count. */
  lemma {:induction false} SumBounds(v: seq<real>, lo: real, hi: real)
    requires forall i | 0 <= i < |v| :: lo <= v[i] <= hi
    ensures lo * |v| as real <= Sum(v) <= hi * |v| as real
  {
    if v != [] {
      SumBounds(v[..|v| - 1], lo, hi);
    }
  }

  /** Three sequences whose entries add up to `w`'s have sums that add up to `w`'s sum. */
  lemma {:induction false} SumSplit3(a: seq<real>, b: seq<real>, c: seq<real>, w: seq<real>)
    requires |a| == |b| == |c| == |w|
    requires forall i | 0 <= i < |w| :: a[i] + b[i] + c[i] == w[i]
    ensures Sum(a) + Sum(b) + Sum(c) == Sum(w)
  {
    if w != [] {
      var n := |w| - 1;
      SumSplit3(a[..n], b[..n], c[..n], w[..n]);
    }
  }

  /** Three score sequences that add up to 1 everywhere have weighted sums that add up to the total weight. */
  lemma {:induction false} DotSplit3(a: seq<real>, b: seq<real>, c: seq<real>, w: seq<real>)
    requires |a| == |b| == |c| == |w|
    requires forall i | 0 <= i < |w| :: a[i] + b[i] + c[i] == 1.0
    ensures Dot(a, w) + Dot(b, w) + Dot(c, w) == Sum(w)
  {
    if w != [] {
      var n := |w| - 1;
      DotSplit3(a[..n], b[..n], c[..n], w[..n]);
      assert a[n] * w[n] + b[n] * w[n] + c[n] * w[n] == (a[n] + b[n] + c[n]) * w[n];
    }
  }

  /** The sum of three values. */
  lemma Sum3(v: seq<real>)
    requires |v| == 3
    ensures Sum(v) == v[0] + v[1] + v[2]
  {
    SumStep(v, 0);
    SumStep(v, 1);
    SumStep(v, 2);
    assert v[..0] == [] && v[..3] == v;
  }

  /** The weighted sum of three values. */
  lemma Dot3(xs: seq<real>, ws: seq<real>)
    requires |xs| == |ws| == 3
    ensures Dot(xs, ws) == Mul(xs[0], ws[0]) + Mul(xs[1], ws[1]) + Mul(xs[2], ws[2])
  {
    DotStep(xs, ws, 0);
    DotStep(xs, ws, 1);
    DotStep(xs, ws, 2);
    assert xs[..0] == [] && ws[..0] == [] && xs[..3] == xs && ws[..3] == ws;
  }

  /** The sum of one value. */
  lemma Sum1(v: seq<real>)
    requires |v| == 1
    ensures Sum(v) == v[0]
  {
    SumStep(v, 0);
    assert v[..0] == [] && v[..1] == v;
  }

  /** The weighted sum of one value. */
  lemma Dot1(xs: seq<real>, ws: seq<real>)
    requires |xs| == |ws| == 1
    ensures Dot(xs, ws) == Mul(xs[0], ws[0])
  {
    DotStep(xs, ws, 0);
    assert xs[..0] == [] && ws[..0] == [] && xs[..1] == xs && ws[..1] == ws;
  }

  /** A value weighted by `w` and divided by `w` is the value. */
  lemma MulDivCancel(d: real, x: real, w: real)
    requires w > 0.0 && d == Mul(x, w) / w
    ensures d == x
  {
  }

  /** `s0 + x * a`, plus `x * b`, is `s0 + x * (a + b)`, stated on plain values. */
  lemma MulAddStep(s0: real, s: real, s': real, a: real, b: real, c: real, x: real)
    requires s == s0 + Mul(x, a) && s' == s + Mul(x, b) && c == a + b
    ensures s' == s0 + Mul(x, c)
  {
    MulDistributes(x, a, b);
  }

  /** `n` times `a / n` is `a`. */
  lemma MulQuotient(n: real, a: real, q: real)
    requires n > 0.0 && q == a / n
    ensures n * q == a
  {
  }
}
