/**
 * The division-pool rules of main.py: the employee pool split by headcount,
 * the department pool split by department count and the subscription fee
 * split equally, each written as a new column of the caller's divisions table.
 */
module Divisions {
  import opened Wrappers
  import opened Money
  import opened PoolSplit

  /** One row of the divisions roster. */
  datatype Division = Division(id: int, name: string, employees: nat, departments: nat)

  function EmployeeCounts(rows: seq<Division>): (r: seq<nat>)
    ensures |r| == |rows|
    ensures forall i :: 0 <= i < |rows| ==> r[i] == rows[i].employees
  {
    seq(|rows|, i requires 0 <= i < |rows| => rows[i].employees)
  }

  function DepartmentCounts(rows: seq<Division>): (r: seq<nat>)
    ensures |r| == |rows|
    ensures forall i :: 0 <= i < |rows| ==> r[i] == rows[i].departments
  {
    seq(|rows|, i requires 0 <= i < |rows| => rows[i].departments)
  }

  /** `calc_employee_cost`: the pool per employee; infinite or NaN when the
      roster has no employees at all. */
  function EmployeeCost(rows: seq<Division>, totalCost: real): (r: Amount)
    ensures r.Finite? <==> SumNat(EmployeeCounts(rows)) != 0
    ensures r.Finite? ==> r.value * SumNat(EmployeeCounts(rows)) as real == totalCost
  {
    Quotient(totalCost, SumNat(EmployeeCounts(rows)))
  }

  /** `calc_department_cost`: the pool per department. */
  function DepartmentCost(rows: seq<Division>, totalCost: real): (r: Amount)
    ensures r.Finite? <==> SumNat(DepartmentCounts(rows)) != 0
    ensures r.Finite? ==> r.value * SumNat(DepartmentCounts(rows)) as real == totalCost
  {
    Quotient(totalCost, SumNat(DepartmentCounts(rows)))
  }

  /** `calc_subscription_cost`: the fee per division. */
  function SubscriptionCost(rows: seq<Division>, totalCost: real): (r: Amount)
    ensures r.Finite? <==> |rows| != 0
    ensures r.Finite? ==> r.value * |rows| as real == totalCost
  {
    Quotient(totalCost, |rows|)
  }

  /** `df['cost_for_subscription'] = round(cost, 2)`: one value broadcast to
      every row. */
  function BroadcastColumn(n: nat, cost: Amount): (col: seq<Amount>)
    ensures |col| == n
    ensures forall i :: 0 <= i < n ==> (col[i].Finite? <==> cost.Finite?)
    ensures cost.Finite? ==> forall i :: 0 <= i < n ==> -1.0 / 200.0 <= col[i].value - cost.value <= 1.0 / 200.0
  {
    seq(n, i => RoundAmount(cost))
  }

  /** A non-empty roster shares the fee equally: every division gets the same
      rounded value and the values add up to the fee within half a hundredth
      per division. */
  lemma {:induction false} SubscriptionEqualSplit(rows: seq<Division>, totalCost: real)
    requires |rows| != 0
    ensures forall i :: 0 <= i < |rows| ==>
              BroadcastColumn(|rows|, SubscriptionCost(rows, totalCost))[i] == Finite(Round2(totalCost / |rows| as real))
    ensures -(|rows| as real) / 200.0
            <= Sum(Values(BroadcastColumn(|rows|, SubscriptionCost(rows, totalCost)))) - totalCost
            <= |rows| as real / 200.0
  {
    var n := |rows|;
    var share := totalCost / n as real;
    var col := BroadcastColumn(n, SubscriptionCost(rows, totalCost));
    assert SubscriptionCost(rows, totalCost) == Finite(share);
    assert forall i :: 0 <= i < n ==> col[i] == Finite(Round2(share));
    EvenShares(n, totalCost);
    RoundingDrift(Shares(seq(n, i => 1), share), Values(col));
  }

  /** `n` equal shares of `total` are each `total / n` and add up to `total`. */
  lemma {:induction false} EvenShares(n: nat, total: real)
    requires n != 0
    ensures var exact := Shares(seq(n, i => 1), total / n as real);
            && |exact| == n
            && (forall i :: 0 <= i < n ==> exact[i] == total / n as real)
            && Sum(exact) == total
  {
    var share := total / n as real;
    var ones := seq(n, i => 1);
    assert Sum(Shares(ones, share)) == Scale(n, share) by {
      SumNatOnes(n);
      SharesSum(ones, share);
    }
    assert Scale(n, share) == total by {
      ScaleIsProduct(n, share);
    }
    assert forall i :: 0 <= i < n ==> Shares(ones, share)[i] == Scale(1, share);
    assert Scale(1, share) == share;
  }

  lemma {:induction false} SumNatOnes(n: nat)
    ensures SumNat(seq(n, i => 1)) == n
  {
    if n > 0 {
      assert seq(n, i => 1)[1..] == seq(n - 1, i => 1);
      SumNatOnes(n - 1);
    }
  }

  /**
   * The divisions table with the cost columns the engine adds to it. A column
   * that has not been written yet is `None`; a written column has one cell per
   * roster row.
   */
  class DivisionTable {
    var rows: seq<Division>
    var costForEmployees: Option<seq<Amount>>
    var costForDepartments: Option<seq<Amount>>
    var costForSubscription: Option<seq<Amount>>

    ghost predicate Valid()
      reads this
    {
      && (costForEmployees.Some? ==> |costForEmployees.value| == |rows|)
      && (costForDepartments.Some? ==> |costForDepartments.value| == |rows|)
      && (costForSubscription.Some? ==> |costForSubscription.value| == |rows|)
    }

    /** All three cost columns have been written. */
    ghost predicate Costed()
      reads this
    {
      Valid() && costForEmployees.Some? && costForDepartments.Some? && costForSubscription.Some?
    }

    /** A table freshly loaded from the roster, without cost columns. */
    constructor (roster: seq<Division>)
      ensures Valid()
      ensures rows == roster
      ensures costForEmployees == None && costForDepartments == None && costForSubscription == None
    {
      rows := roster;
      costForEmployees := None;
      costForDepartments := None;
      costForSubscription := None;
    }
  }

  /** `calculate_sum_for_employees`: writes the employee-pool column. */
  method CalculateSumForEmployees(df: DivisionTable, totalCost: real)
    requires df.Valid()
    modifies df
    ensures df.Valid()
    ensures df.rows == old(df.rows)
    ensures df.costForEmployees == Some(PoolColumn(EmployeeCounts(df.rows), totalCost))
    ensures df.costForDepartments == old(df.costForDepartments)
    ensures df.costForSubscription == old(df.costForSubscription)
  {
    var emp := EmployeeCost(df.rows, totalCost);
    df.costForEmployees := Some(WeightedColumn(EmployeeCounts(df.rows), emp));
  }

  /** `calc_sum_for_departments`: writes the department-pool column. */
  method CalcSumForDepartments(df: DivisionTable, totalCost: real)
    requires df.Valid()
    modifies df
    ensures df.Valid()
    ensures df.rows == old(df.rows)
    ensures df.costForDepartments == Some(PoolColumn(DepartmentCounts(df.rows), totalCost))
    ensures df.costForEmployees == old(df.costForEmployees)
    ensures df.costForSubscription == old(df.costForSubscription)
  {
    var dep := DepartmentCost(df.rows, totalCost);
    df.costForDepartments := Some(WeightedColumn(DepartmentCounts(df.rows), dep));
  }

  /** `calc_subscription_sum_by_departments`: writes the subscription column. */
  method CalcSubscriptionSumByDepartments(df: DivisionTable, totalCost: real)
    requires df.Valid()
    modifies df
    ensures df.Valid()
    ensures df.rows == old(df.rows)
    ensures df.costForSubscription == Some(BroadcastColumn(|df.rows|, SubscriptionCost(df.rows, totalCost)))
    ensures df.costForEmployees == old(df.costForEmployees)
    ensures df.costForDepartments == old(df.costForDepartments)
  {
    var sub := SubscriptionCost(df.rows, totalCost);
    df.costForSubscription := Some(BroadcastColumn(|df.rows|, sub));
  }

  /** `calculate_expenses_by_divisions`: writes the three cost columns into the
      table it is given and hands the same table back. */
  method CalculateExpensesByDivisions(employeesCost: real, departmentsCost: real, subscriptionFee: real,
                                      divisions: DivisionTable)
    returns (r: DivisionTable)
    requires divisions.Valid()
    modifies divisions
    ensures r == divisions
    ensures r.Costed()
    ensures r.rows == old(divisions.rows)
    ensures r.costForEmployees == Some(PoolColumn(EmployeeCounts(r.rows), employeesCost))
    ensures r.costForDepartments == Some(PoolColumn(DepartmentCounts(r.rows), departmentsCost))
    ensures r.costForSubscription == Some(BroadcastColumn(|r.rows|, SubscriptionCost(r.rows, subscriptionFee)))
  {
    CalculateSumForEmployees(divisions, employeesCost);
    CalcSumForDepartments(divisions, departmentsCost);
    CalcSubscriptionSumByDepartments(divisions, subscriptionFee);
    r := divisions;
  }
}
