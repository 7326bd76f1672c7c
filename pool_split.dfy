/**
 * A pool split by weight, as both cost engines write it: every row's weight
 * times the pool's rate per unit of weight, rounded to two places, where the
 * rate is the pool divided by the total weight.
 */
module PoolSplit {
  import opened Money

  /** `round(df[weight] * rate, 2)`: every row's weight times the rate, rounded. */
  function WeightedColumn(weights: seq<nat>, rate: Amount): (col: seq<Amount>)
    ensures |col| == |weights|
    ensures forall i :: 0 <= i < |weights| ==> (col[i].Finite? <==> rate.Finite?)
  {
    seq(|weights|, i requires 0 <= i < |weights| => RoundAmount(Times(weights[i], rate)))
  }

  /** The column a pool split by weight produces. */
  function PoolColumn(weights: seq<nat>, pool: real): (col: seq<Amount>)
    ensures |col| == |weights|
  {
    WeightedColumn(weights, Quotient(pool, SumNat(weights)))
  }

  lemma WeightedCell(weights: seq<nat>, rate: real, i: int)
    requires 0 <= i < |weights|
    ensures WeightedColumn(weights, Finite(rate))[i] == Finite(Round2(Scale(weights[i], rate)))
  {
    assert WeightedColumn(weights, Finite(rate))[i] == RoundAmount(Times(weights[i], Finite(rate)));
    assert Times(weights[i], Finite(rate)) == Finite(Scale(weights[i], rate));
    assert RoundAmount(Finite(Scale(weights[i], rate))) == Finite(Round2(Scale(weights[i], rate)));
  }

  /** With a nonzero total weight, the cell of row `i` is finite and is the
      row's exact share `weight * (pool / total)` rounded. */
  lemma PoolCell(weights: seq<nat>, pool: real, i: int)
    requires SumNat(weights) != 0 && 0 <= i < |weights|
    ensures PoolColumn(weights, pool)[i] == Finite(Round2(Scale(weights[i], pool / SumNat(weights) as real)))
  {
    var rate := pool / SumNat(weights) as real;
    assert Quotient(pool, SumNat(weights)) == Finite(rate);
    WeightedCell(weights, rate, i);
  }

  /** With a nonzero total weight every cell is finite, lies within half a
      hundredth of its exact share `weight * pool / total`, and the cells add
      up to the pool within half a hundredth per row. */
  lemma PoolColumnReconciles(weights: seq<nat>, pool: real)
    requires SumNat(weights) != 0
    ensures forall i :: 0 <= i < |weights| ==> PoolColumn(weights, pool)[i].Finite?
    ensures forall i :: 0 <= i < |weights| ==>
              -1.0 / 200.0 <= PoolColumn(weights, pool)[i].value - Scale(weights[i], pool / SumNat(weights) as real) <= 1.0 / 200.0
    ensures -(|weights| as real) / 200.0 <= Sum(Values(PoolColumn(weights, pool))) - pool <= |weights| as real / 200.0
  {
    var rate := pool / SumNat(weights) as real;
    var col := PoolColumn(weights, pool);
    var exact := Shares(weights, rate);
    forall i | 0 <= i < |weights|
      ensures col[i].Finite? && col[i].value == Round2(exact[i])
    {
      PoolCell(weights, pool, i);
    }
    var values := Values(col);
    assert forall i :: 0 <= i < |weights| ==> values[i] == Round2(exact[i]);
    SharesReconcile(weights, pool);
    RoundingDrift(exact, values);
  }

  /** With a zero total weight (every weight zero) the whole column is infinite
      or NaN. */
  lemma PoolColumnDegenerate(weights: seq<nat>, pool: real)
    requires SumNat(weights) == 0
    ensures forall i :: 0 <= i < |weights| ==> PoolColumn(weights, pool)[i] == NonFinite
  {
  }

  /** A larger weight never receives a smaller share of a non-negative pool,
      and equal weights receive equal shares. */
  lemma PoolColumnMonotone(weights: seq<nat>, pool: real, i: int, j: int)
    requires SumNat(weights) != 0 && pool >= 0.0
    requires 0 <= i < |weights| && 0 <= j < |weights| && weights[i] <= weights[j]
    ensures PoolColumn(weights, pool)[i].value <= PoolColumn(weights, pool)[j].value
  {
    var rate := pool / SumNat(weights) as real;
    assert Quotient(pool, SumNat(weights)) == Finite(rate);
    WeightedMonotone(weights, rate, i, j);
  }

  lemma WeightedMonotone(weights: seq<nat>, rate: real, i: int, j: int)
    requires rate >= 0.0
    requires 0 <= i < |weights| && 0 <= j < |weights| && weights[i] <= weights[j]
    ensures WeightedColumn(weights, Finite(rate))[i].value <= WeightedColumn(weights, Finite(rate))[j].value
  {
    WeightedCell(weights, rate, i);
    WeightedCell(weights, rate, j);
    var x := Scale(weights[i], rate);
    var y := Scale(weights[j], rate);
    ScaleMonotone(weights[i], weights[j], rate);
    Round2Monotone(x, y);
  }

}
