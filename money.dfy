/**
 * Monetary values of the allocation engine: exact reals, the two-decimal
 * rounding applied by `round(x, 2)`, cells that a division by zero turns into
 * infinity or NaN, and the sums and proportional shares the engine builds.
 */
module Money {

  /** One numeric cell of a table: a finite number, or the infinity/NaN that
      dividing a float by a zero integer sum produces. */
  datatype Amount = Finite(value: real) | NonFinite

  /** `round(x, 2)`: the nearest multiple of 0.01, ties going to the even
      hundredth. */
  function Round2(x: real): (r: real)
    ensures -1.0 / 200.0 <= r - x <= 1.0 / 200.0
  {
    var y := x * 100.0;
    var f := y.Floor;
    var frac := y - f as real;
    var n := if frac < 0.5 then f
             else if frac > 0.5 then f + 1
             else if f % 2 == 0 then f else f + 1;
    n as real / 100.0
  }

  /** A value that already has at most two decimals is left as it is. */
  lemma Round2Exact(cents: int)
    ensures Round2(cents as real / 100.0) == cents as real / 100.0
  {
    var y := (cents as real / 100.0) * 100.0;
    assert y == cents as real;
    assert y.Floor == cents;
  }

  /** Rounding never reverses the order of two values. */
  lemma Round2Monotone(x: real, y: real)
    requires x <= y
    ensures Round2(x) <= Round2(y)
  {
    var fx := (x * 100.0).Floor;
    var fy := (y * 100.0).Floor;
    assert fx <= fy;
    if fx == fy {
      assert x * 100.0 - fx as real <= y * 100.0 - fy as real;
    }
  }

  /** Rounding a cell: infinity and NaN stay as they are. */
  function RoundAmount(a: Amount): (r: Amount)
    ensures r.Finite? <==> a.Finite?
    ensures r.Finite? ==> -1.0 / 200.0 <= r.value - a.value <= 1.0 / 200.0
  {
    match a
    case Finite(v) => Finite(Round2(v))
    case NonFinite => NonFinite
  }

  /** `numerator / denominator` for a float divided by an integer sum. */
  function Quotient(numerator: real, denominator: int): (r: Amount)
    ensures r.Finite? <==> denominator != 0
    ensures r.Finite? ==> r.value * denominator as real == numerator
  {
    if denominator == 0 then NonFinite else Finite(numerator / denominator as real)
  }

  /** An integer column value multiplied by a rate cell. */
  function Times(weight: nat, rate: Amount): (r: Amount)
    ensures r.Finite? <==> rate.Finite?
    ensures r.Finite? ==> r.value == Scale(weight, rate.value)
  {
    match rate
    case Finite(v) => Finite(Scale(weight, v))
    case NonFinite => NonFinite
  }

  /** `weight * rate` for a whole-number weight, written as repeated addition;
      `ScaleIsProduct` states that it is the product. */
  function Scale(weight: nat, rate: real): real
  {
    if weight == 0 then 0.0 else rate + Scale(weight - 1, rate)
  }

  lemma {:induction false} ScaleIsProduct(weight: nat, rate: real)
    ensures Scale(weight, rate) == weight as real * rate
  {
    if weight > 0 {
      ScaleIsProduct(weight - 1, rate);
    }
  }

  lemma {:induction false} ScaleAdd(a: nat, b: nat, rate: real)
    ensures Scale(a + b, rate) == Scale(a, rate) + Scale(b, rate)
  {
    if a > 0 {
      ScaleAdd(a - 1, b, rate);
    }
  }

  /** A larger weight never gets a smaller share of a non-negative rate. */
  lemma {:induction false} ScaleMonotone(a: nat, b: nat, rate: real)
    requires a <= b && rate >= 0.0
    ensures Scale(a, rate) <= Scale(b, rate)
  {
    if a < b {
      ScaleMonotone(a, b - 1, rate);
    }
  }

  /** Addition of two cells: infinity or NaN absorbs every other value. */
  function Plus(a: Amount, b: Amount): (r: Amount)
    ensures r.Finite? <==> a.Finite? && b.Finite?
    ensures r.Finite? ==> r.value == a.value + b.value
  {
    if a.Finite? && b.Finite? then Finite(a.value + b.value) else NonFinite
  }

  function SumNat(s: seq<nat>): nat
  {
    if s == [] then 0 else s[0] + SumNat(s[1..])
  }

  function Sum(s: seq<real>): real
  {
    if s == [] then 0.0 else s[0] + Sum(s[1..])
  }

  lemma {:induction false} SumAppend(a: seq<real>, b: seq<real>)
    ensures Sum(a + b) == Sum(a) + Sum(b)
  {
    if a == [] {
      assert a + b == b;
    } else {
      assert (a + b)[1..] == a[1..] + b;
      SumAppend(a[1..], b);
    }
  }

  lemma {:induction false} SumNatAppend(a: seq<nat>, b: seq<nat>)
    ensures SumNat(a + b) == SumNat(a) + SumNat(b)
  {
    if a == [] {
      assert a + b == b;
    } else {
      assert (a + b)[1..] == a[1..] + b;
      SumNatAppend(a[1..], b);
    }
  }

  /** A sum of naturals is zero exactly when every term is zero. */
  lemma {:induction false} SumNatZero(s: seq<nat>)
    ensures SumNat(s) == 0 <==> forall i :: 0 <= i < |s| ==> s[i] == 0
  {
    if s != [] {
      SumNatZero(s[1..]);
      assert forall i :: 1 <= i < |s| ==> s[i] == s[1..][i - 1];
    }
  }

  /** The values of a column whose every cell is finite. */
  function Values(cells: seq<Amount>): (r: seq<real>)
    requires forall i :: 0 <= i < |cells| ==> cells[i].Finite?
    ensures |r| == |cells|
    ensures forall i :: 0 <= i < |cells| ==> r[i] == cells[i].value
  {
    if cells == [] then [] else [cells[0].value] + Values(cells[1..])
  }

  lemma {:induction false} ValuesAppend(a: seq<Amount>, b: seq<Amount>)
    requires forall i :: 0 <= i < |a| ==> a[i].Finite?
    requires forall i :: 0 <= i < |b| ==> b[i].Finite?
    ensures forall i :: 0 <= i < |a + b| ==> (a + b)[i].Finite?
    ensures Values(a + b) == Values(a) + Values(b)
  {
  }

  /** The exact proportional shares `weights[i] * rate`. */
  function Shares(weights: seq<nat>, rate: real): (r: seq<real>)
    ensures |r| == |weights|
    ensures forall i :: 0 <= i < |weights| ==> r[i] == Scale(weights[i], rate)
  {
    if weights == [] then [] else [Scale(weights[0], rate)] + Shares(weights[1..], rate)
  }

  /** Scaling every weight by one rate scales their sum by it. */
  lemma {:induction false} SharesSum(weights: seq<nat>, rate: real)
    ensures Sum(Shares(weights, rate)) == Scale(SumNat(weights), rate)
  {
    if weights != [] {
      SharesSum(weights[1..], rate);
      assert Shares(weights, rate)[1..] == Shares(weights[1..], rate);
      ScaleAdd(weights[0], SumNat(weights[1..]), rate);
    }
  }

  /** Proportional shares of a pool add back up to the whole pool. */
  lemma SharesReconcile(weights: seq<nat>, pool: real)
    requires SumNat(weights) != 0
    ensures Sum(Shares(weights, pool / SumNat(weights) as real)) == pool
  {
    var total := SumNat(weights);
    SharesSum(weights, pool / total as real);
    ScaleIsProduct(total, pool / total as real);
  }

  /** Rounding every term moves a sum by at most half a hundredth per term. */
  lemma {:induction false} RoundingDrift(xs: seq<real>, rounded: seq<real>)
    requires |rounded| == |xs|
    requires forall i :: 0 <= i < |xs| ==> rounded[i] == Round2(xs[i])
    ensures -(|xs| as real) / 200.0 <= Sum(rounded) - Sum(xs) <= |xs| as real / 200.0
  {
    if xs != [] {
      RoundingDrift(xs[1..], rounded[1..]);
    }
  }

  /** Summing a column of row sums is summing each column. */
  lemma {:induction false} SumColumns(a: seq<real>, b: seq<real>, c: seq<real>, d: seq<real>, e: seq<real>, t: seq<real>)
    requires |a| == |t| && |b| == |t| && |c| == |t| && |d| == |t| && |e| == |t|
    requires forall i :: 0 <= i < |t| ==> t[i] == a[i] + b[i] + c[i] + d[i] + e[i]
    ensures Sum(t) == Sum(a) + Sum(b) + Sum(c) + Sum(d) + Sum(e)
  {
    if t != [] {
      SumColumns(a[1..], b[1..], c[1..], d[1..], e[1..], t[1..]);
    }
  }
}
