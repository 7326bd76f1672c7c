/**
 * The report of the desktop front end: the divisions table with its three
 * pool columns joined on `id` to the per-number table, a `total` column added
 * as the sum of the five costs, and seven columns selected and renamed; and
 * the main window whose line edits feed the engines and receive the invoice
 * pools.
 */
module Report {
  import opened Wrappers
  import opened Money
  import opened Tables
  import opened Ledger
  import opened PoolSplit
  import opened Divisions
  import opened Numbers
  import opened Invoice

  /** A roster row with the three cost cells the division engine wrote. */
  datatype CostedDivision = CostedDivision(division: Division, costForEmployees: Amount,
                                           costForDepartments: Amount, costForSubscription: Amount)

  /** A row of `_final`: a costed division joined to the per-number row with its id. */
  datatype Joined = Joined(left: CostedDivision, right: CallCost)

  /** A row of the report, in its column order. */
  datatype ReportRow = ReportRow(name: string, costForEmployees: Amount, costForDepartments: Amount,
                                 costForSubscription: Amount, costForCalls: Amount, costForNumbers: real,
                                 total: Amount)

  /** The columns `_final` is narrowed to, in order. */
  const Selected: seq<string> :=
    ["name", "cost_for_employees", "cost_for_departments", "cost_for_subscription",
     "cost_for_calls", "cost_for_numbers", "total"]

  /** The headings the report shows for them. */
  const Headings: seq<string> := ["Отдел", "Сотрудники", "Отделы", "Абонентка", "Звонки", "Номера", "Общая сумма"]

  /** One cell of the shown report. */
  datatype Cell = Label(text: string) | Cost(amount: Amount)

  /** The table shown and exported: headings and one row of cells per report row. */
  datatype Table = Table(headings: seq<string>, body: seq<seq<Cell>>)

  /** The divisions table as rows, once all three cost columns are written. */
  function CostedRows(rows: seq<Division>, employees: seq<Amount>, departments: seq<Amount>,
                      subscription: seq<Amount>): (r: seq<CostedDivision>)
    requires |employees| == |rows| && |departments| == |rows| && |subscription| == |rows|
    ensures |r| == |rows|
    ensures forall i :: 0 <= i < |rows| ==>
              r[i] == CostedDivision(rows[i], employees[i], departments[i], subscription[i])
  {
    seq(|rows|, i requires 0 <= i < |rows| => CostedDivision(rows[i], employees[i], departments[i], subscription[i]))
  }

  function DivisionIds(rows: seq<CostedDivision>): (r: seq<int>)
    ensures |r| == |rows|
    ensures forall i :: 0 <= i < |rows| ==> r[i] == rows[i].division.id
  {
    seq(|rows|, i requires 0 <= i < |rows| => rows[i].division.id)
  }

  /** The per-number rows that share `left`'s id, each joined to it, in order. */
  function IdMatches(left: CostedDivision, right: seq<CallCost>): (r: seq<Joined>)
    ensures forall j :: 0 <= j < |r| ==> r[j].left == left && r[j].right.id == left.division.id && r[j].right in right
  {
    if right == [] then []
    else (if right[0].id == left.division.id then [Joined(left, right[0])] else []) + IdMatches(left, right[1..])
  }

  /** `_divisions.merge(_phones, on='id')`: an inner join in the order of the
      divisions table. */
  function MergeOnId(left: seq<CostedDivision>, right: seq<CallCost>): (r: seq<Joined>)
    ensures forall j :: 0 <= j < |r| ==> r[j].right.id == r[j].left.division.id && r[j].right in right
  {
    if left == [] then []
    else
      var head := IdMatches(left[0], right);
      var tail := MergeOnId(left[1..], right);
      assert forall j :: 0 <= j < |head + tail| ==> (head + tail)[j] == if j < |head| then head[j] else tail[j - |head|];
      head + tail
  }

  function Lefts(rows: seq<Joined>): (r: seq<CostedDivision>)
    ensures |r| == |rows|
    ensures forall i :: 0 <= i < |rows| ==> r[i] == rows[i].left
  {
    seq(|rows|, i requires 0 <= i < |rows| => rows[i].left)
  }

  /** The charge table row with this id, if there is one. */
  predicate HasId(right: seq<CallCost>, id: int)
  {
    id in CallCostIds(right)
  }

  lemma {:induction false} IdMatchesOne(left: CostedDivision, right: seq<CallCost>)
    requires StrictlyIncreasing(CallCostIds(right))
    ensures |IdMatches(left, right)| == if HasId(right, left.division.id) then 1 else 0
  {
    if right != [] {
      assert CallCostIds(right[1..]) == CallCostIds(right)[1..];
      IdMatchesOne(left, right[1..]);
      if right[0].id == left.division.id {
        assert !HasId(right[1..], left.division.id) by {
          forall j | 0 <= j < |right[1..]| ensures CallCostIds(right[1..])[j] != left.division.id {
            assert CallCostIds(right)[0] < CallCostIds(right)[j + 1];
          }
        }
      } else {
        assert HasId(right, left.division.id) <==> HasId(right[1..], left.division.id) by {
          if HasId(right, left.division.id) {
            var j :| 0 <= j < |right| && CallCostIds(right)[j] == left.division.id;
            assert j > 0;
            assert CallCostIds(right[1..])[j - 1] == left.division.id;
          }
        }
      }
    }
  }

  /** With one per-number row per id, the join keeps exactly the divisions
      that have a per-number row, once each, in roster order; every other
      division is silently dropped. */
  lemma {:induction false} MergeOnIdKeeps(left: seq<CostedDivision>, right: seq<CallCost>)
    requires StrictlyIncreasing(CallCostIds(right))
    ensures Lefts(MergeOnId(left, right)) == Filter(left, (d: CostedDivision) => HasId(right, d.division.id))
  {
    if left != [] {
      MergeOnIdKeeps(left[1..], right);
      var head := IdMatches(left[0], right);
      var tail := MergeOnId(left[1..], right);
      assert MergeOnId(left, right) == head + tail;
      assert Lefts(head + tail) == Lefts(head) + Lefts(tail);
      assert Lefts(head) == if HasId(right, left[0].division.id) then [left[0]] else [] by {
        IdMatchesOne(left[0], right);
      }
    }
  }

  /** `_final['total']`: the five costs added left to right. */
  function Total(row: Joined): (r: Amount)
    ensures r.Finite? <==> row.left.costForEmployees.Finite? && row.left.costForDepartments.Finite?
                           && row.left.costForSubscription.Finite? && row.right.costForCalls.Finite?
    ensures r.Finite? ==> r.value == row.left.costForEmployees.value + row.left.costForDepartments.value
                                     + row.left.costForSubscription.value + row.right.costForCalls.value
                                     + row.right.costForNumbers
  {
    Plus(Plus(Plus(Plus(row.left.costForEmployees, row.left.costForDepartments), row.left.costForSubscription),
              row.right.costForCalls),
         Finite(row.right.costForNumbers))
  }

  /** `_final[[...]]`: the selected columns of `_final`, `total` added. */
  function ReportRows(merged: seq<Joined>): (r: seq<ReportRow>)
    ensures |r| == |merged|
    ensures forall i :: 0 <= i < |merged| ==>
              && r[i].name == merged[i].left.division.name
              && r[i].costForEmployees == merged[i].left.costForEmployees
              && r[i].costForDepartments == merged[i].left.costForDepartments
              && r[i].costForSubscription == merged[i].left.costForSubscription
              && r[i].costForCalls == merged[i].right.costForCalls
              && r[i].costForNumbers == merged[i].right.costForNumbers
              && r[i].total == Total(merged[i])
  {
    seq(|merged|, i requires 0 <= i < |merged| =>
      var m := merged[i];
      ReportRow(m.left.division.name, m.left.costForEmployees, m.left.costForDepartments,
                m.left.costForSubscription, m.right.costForCalls, m.right.costForNumbers, Total(m)))
  }

  /** `_final[column]` for the columns a report row holds; any other name
      raises `KeyError`. */
  function ColumnOf(row: ReportRow, column: string): (r: Option<Cell>)
    ensures r.Some? <==> column in Selected
  {
    match column
    case "name" => Some(Label(row.name))
    case "cost_for_employees" => Some(Cost(row.costForEmployees))
    case "cost_for_departments" => Some(Cost(row.costForDepartments))
    case "cost_for_subscription" => Some(Cost(row.costForSubscription))
    case "cost_for_calls" => Some(Cost(row.costForCalls))
    case "cost_for_numbers" => Some(Cost(Finite(row.costForNumbers)))
    case "total" => Some(Cost(row.total))
    case _ => None
  }

  /** The cells of one report row, in the order of `Selected`. */
  function Cells(row: ReportRow): (r: seq<Cell>)
    ensures |r| == |Selected| == |Headings|
    ensures forall k :: 0 <= k < |r| ==> ColumnOf(row, Selected[k]) == Some(r[k])
  {
    [Label(row.name), Cost(row.costForEmployees), Cost(row.costForDepartments), Cost(row.costForSubscription),
     Cost(row.costForCalls), Cost(Finite(row.costForNumbers)), Cost(row.total)]
  }

  /** `self.to_model` after the renaming: the fixed headings over one row of
      cells per report row. */
  function ShownTable(rows: seq<ReportRow>): (t: Table)
    ensures t.headings == Headings
    ensures |t.body| == |rows|
    ensures forall i :: 0 <= i < |rows| ==> t.body[i] == Cells(rows[i])
  {
    Table(Headings, seq(|rows|, i requires 0 <= i < |rows| => Cells(rows[i])))
  }

  lemma {:induction false} IdMatchesNone(left: CostedDivision, right: seq<CallCost>)
    requires !HasId(right, left.division.id)
    ensures IdMatches(left, right) == []
  {
    if right != [] {
      assert CallCostIds(right[1..]) == CallCostIds(right)[1..];
      assert CallCostIds(right)[0] == right[0].id;
      IdMatchesNone(left, right[1..]);
    }
  }

  /** A per-number row whose id no division has takes no part in the join. */
  lemma {:induction false} MergeSkips(left: seq<CostedDivision>, right: seq<CallCost>)
    requires right != []
    requires forall k :: 0 <= k < |left| ==> left[k].division.id != right[0].id
    ensures MergeOnId(left, right) == MergeOnId(left, right[1..])
  {
    if left != [] {
      MergeSkips(left[1..], right);
      assert IdMatches(left[0], right) == IdMatches(left[0], right[1..]);
      assert MergeOnId(left, right) == IdMatches(left[0], right) + MergeOnId(left[1..], right);
    }
  }

  /** Two tables of the same length joined row by row. */
  function Pairs(left: seq<CostedDivision>, right: seq<CallCost>): (r: seq<Joined>)
    requires |left| == |right|
    ensures |r| == |left|
    ensures forall i :: 0 <= i < |left| ==> r[i] == Joined(left[i], right[i])
  {
    if left == [] then [] else [Joined(left[0], right[0])] + Pairs(left[1..], right[1..])
  }

  /** When the roster lists exactly the ids of the per-number table, in the
      same order, the join pairs the two tables row by row. */
  lemma {:induction false} MergeAligned(left: seq<CostedDivision>, right: seq<CallCost>)
    requires StrictlyIncreasing(CallCostIds(right))
    requires DivisionIds(left) == CallCostIds(right)
    ensures MergeOnId(left, right) == Pairs(left, right)
  {
    if left != [] {
      var l, r, tail, rest := left[0], right[0], left[1..], right[1..];
      assert CallCostIds(rest) == CallCostIds(right)[1..];
      assert DivisionIds(tail) == DivisionIds(left)[1..];
      assert l.division.id == r.id by {
        assert DivisionIds(left)[0] == CallCostIds(right)[0];
      }
      assert MergeOnId(left, right) == [Joined(l, r)] + MergeOnId(tail, right) by {
        assert left == [l] + tail;
        MergeOnIdAppend([l], tail, right);
        JoinFirst(l, right);
      }
      forall k | 0 <= k < |tail| ensures tail[k].division.id != r.id {
        assert DivisionIds(left)[k + 1] == CallCostIds(right)[k + 1];
        assert CallCostIds(right)[0] < CallCostIds(right)[k + 1];
      }
      MergeSkips(tail, right);
      MergeAligned(tail, rest);
    }
  }

  function ReportCallCells(rows: seq<ReportRow>): (r: seq<Amount>)
    ensures |r| == |rows|
    ensures forall i :: 0 <= i < |rows| ==> r[i] == rows[i].costForCalls
  {
    seq(|rows|, i requires 0 <= i < |rows| => rows[i].costForCalls)
  }

  /** The `cost_for_calls` cells of the joined rows. */
  function JoinedCalls(rows: seq<Joined>): (r: seq<Amount>)
    ensures |r| == |rows| && forall i :: 0 <= i < |rows| ==> r[i] == rows[i].right.costForCalls
  {
    seq(|rows|, i requires 0 <= i < |rows| => rows[i].right.costForCalls)
  }

  /** The `cost_for_numbers` values of the joined rows. */
  function JoinedCharges(rows: seq<Joined>): (r: seq<real>)
    ensures |r| == |rows| && forall i :: 0 <= i < |rows| ==> r[i] == rows[i].right.costForNumbers
  {
    seq(|rows|, i requires 0 <= i < |rows| => rows[i].right.costForNumbers)
  }

  /** No two roster rows share an id. */
  predicate DistinctIds(rows: seq<CostedDivision>)
  {
    forall i, j :: 0 <= i < j < |rows| ==> rows[i].division.id != rows[j].division.id
  }

  /** The join of a roster made of two blocks is the join of each block. */
  lemma {:induction false} MergeOnIdAppend(a: seq<CostedDivision>, b: seq<CostedDivision>, right: seq<CallCost>)
    ensures MergeOnId(a + b, right) == MergeOnId(a, right) + MergeOnId(b, right)
  {
    if a == [] {
      assert a + b == b;
    } else {
      assert (a + b)[0] == a[0];
      assert (a + b)[1..] == a[1..] + b;
      MergeOnIdAppend(a[1..], b, right);
    }
  }

  lemma {:induction false} MergeOnNothing(left: seq<CostedDivision>)
    ensures MergeOnId(left, []) == []
  {
    if left != [] {
      MergeOnNothing(left[1..]);
    }
  }

  /** The division owning the first per-number row is joined to that row
      alone. */
  lemma {:induction false} JoinFirst(l: CostedDivision, right: seq<CallCost>)
    requires StrictlyIncreasing(CallCostIds(right))
    requires right != [] && l.division.id == right[0].id
    ensures MergeOnId([l], right) == [Joined(l, right[0])]
    ensures MergeOnId([l], right[1..]) == []
  {
    var rest := right[1..];
    assert CallCostIds(rest) == CallCostIds(right)[1..];
    assert !HasId(rest, l.division.id) by {
      forall j | 0 <= j < |rest| ensures CallCostIds(rest)[j] != l.division.id {
        assert CallCostIds(right)[0] < CallCostIds(right)[j + 1];
      }
    }
    IdMatchesNone(l, rest);
    MergeOnNothing([]);
    assert [l][1..] == [];
  }

  /** The join of a roster cut in three blocks is the join of each block. */
  lemma {:induction false} MergeOnIdAround(a: seq<CostedDivision>, l: CostedDivision, b: seq<CostedDivision>,
                                           right: seq<CallCost>)
    ensures MergeOnId(a + [l] + b, right) == MergeOnId(a, right) + MergeOnId([l], right) + MergeOnId(b, right)
  {
    MergeOnIdAppend(a + [l], b, right);
    MergeOnIdAppend(a, [l], right);
  }

  /** A roster cut in three blocks around the one division owning the first
      per-number row: that row is joined there and nowhere else. */
  lemma {:induction false} MergeAroundOwner(a: seq<CostedDivision>, l: CostedDivision, b: seq<CostedDivision>,
                                            right: seq<CallCost>)
    requires StrictlyIncreasing(CallCostIds(right))
    requires right != [] && l.division.id == right[0].id
    requires forall i :: 0 <= i < |a| ==> a[i].division.id != right[0].id
    requires forall i :: 0 <= i < |b| ==> b[i].division.id != right[0].id
    ensures MergeOnId(a + [l] + b, right)
            == MergeOnId(a, right[1..]) + [Joined(l, right[0])] + MergeOnId(b, right[1..])
  {
    JoinFirst(l, right);
    MergeOnIdAround(a, l, b, right);
    MergeSkips(a, right);
    MergeSkips(b, right);
  }

  /** Without the first per-number row, its owner drops out of the join. */
  lemma {:induction false} MergeWithoutOwner(a: seq<CostedDivision>, l: CostedDivision, b: seq<CostedDivision>,
                                             right: seq<CallCost>)
    requires StrictlyIncreasing(CallCostIds(right))
    requires right != [] && l.division.id == right[0].id
    ensures MergeOnId(a + [l] + b, right[1..]) == MergeOnId(a, right[1..]) + MergeOnId(b, right[1..])
  {
    var rest := right[1..];
    JoinFirst(l, right);
    MergeOnIdAppend(a, [l], rest);
    var ma := MergeOnId(a, rest);
    assert ma + [] == ma;
    MergeOnIdAppend(a + [l], b, rest);
  }

  /** Cutting the roster at the division that owns the first per-number row:
      that row is joined there and nowhere else. */
  lemma {:induction false} MergeSplitsAt(left: seq<CostedDivision>, right: seq<CallCost>, k: int)
    requires StrictlyIncreasing(CallCostIds(right))
    requires DistinctIds(left)
    requires right != [] && 0 <= k < |left| && left[k].division.id == right[0].id
    ensures MergeOnId(left, right)
            == MergeOnId(left[..k], right[1..]) + [Joined(left[k], right[0])] + MergeOnId(left[k + 1..], right[1..])
    ensures MergeOnId(left, right[1..]) == MergeOnId(left[..k], right[1..]) + MergeOnId(left[k + 1..], right[1..])
  {
    var a, l, b := left[..k], left[k], left[k + 1..];
    assert left == a + [l] + b;
    forall i | 0 <= i < |a| ensures a[i].division.id != right[0].id {
      assert a[i] == left[i];
    }
    forall i | 0 <= i < |b| ensures b[i].division.id != right[0].id {
      assert b[i] == left[k + 1 + i];
    }
    MergeAroundOwner(a, l, b, right);
    MergeWithoutOwner(a, l, b, right);
  }

  lemma {:induction false} JoinedCallsAppend(x: seq<Joined>, y: seq<Joined>)
    ensures JoinedCalls(x + y) == JoinedCalls(x) + JoinedCalls(y)
    ensures JoinedCharges(x + y) == JoinedCharges(x) + JoinedCharges(y)
  {
  }

  /** Inserting one joined row adds its call cost and its line charge to
      the column sums. */
  lemma {:induction false} JoinedSumsInsert(x: seq<Joined>, y: Joined, z: seq<Joined>)
    requires forall j :: 0 <= j < |x| ==> x[j].right.costForCalls.Finite?
    requires forall j :: 0 <= j < |z| ==> z[j].right.costForCalls.Finite?
    requires y.right.costForCalls.Finite?
    ensures forall j :: 0 <= j < |x + [y] + z| ==> (x + [y] + z)[j].right.costForCalls.Finite?
    ensures Sum(Values(JoinedCalls(x + [y] + z))) == Sum(Values(JoinedCalls(x + z))) + y.right.costForCalls.value
    ensures Sum(JoinedCharges(x + [y] + z)) == Sum(JoinedCharges(x + z)) + y.right.costForNumbers
  {
    JoinedCallsAppend(x + [y], z);
    JoinedCallsAppend(x, [y]);
    JoinedCallsAppend(x, z);
    var cx, cy, cz := JoinedCalls(x), JoinedCalls([y]), JoinedCalls(z);
    ValuesAppend(cx + cy, cz);
    ValuesAppend(cx, cy);
    ValuesAppend(cx, cz);
    var vx, vy, vz := Values(cx), Values(cy), Values(cz);
    assert vy == [y.right.costForCalls.value];
    SumAppend(vx + vy, vz);
    SumAppend(vx, vy);
    SumAppend(vx, vz);
    var hx, hy, hz := JoinedCharges(x), JoinedCharges([y]), JoinedCharges(z);
    assert hy == [y.right.costForNumbers];
    SumAppend(hx + hy, hz);
    SumAppend(hx, hy);
    SumAppend(hx, hz);
  }

  /** The call and line sums of the per-number table, its first row apart. */
  lemma {:induction false} ChargeSumsHead(right: seq<CallCost>)
    requires right != []
    requires forall k :: 0 <= k < |right| ==> right[k].costForCalls.Finite?
    ensures forall k :: 0 <= k < |right[1..]| ==> right[1..][k].costForCalls.Finite?
    ensures Sum(Values(CallCostCells(right)))
            == right[0].costForCalls.value + Sum(Values(CallCostCells(right[1..])))
    ensures Sum(CallCostCharges(right)) == right[0].costForNumbers + Sum(CallCostCharges(right[1..]))
  {
    assert Values(CallCostCells(right))[1..] == Values(CallCostCells(right[1..]));
    assert CallCostCharges(right)[1..] == CallCostCharges(right[1..]);
  }

  /** One more joined row, carrying the first per-number row, keeps the
      joined columns in step with the per-number table. */
  lemma {:induction false} JoinedRowAdded(m: seq<Joined>, x: seq<Joined>, y: Joined, z: seq<Joined>,
                                          right: seq<CallCost>)
    requires right != [] && y.right == right[0] && m == x + [y] + z
    requires forall k :: 0 <= k < |right| ==> right[k].costForCalls.Finite?
    requires |x + z| == |right[1..]|
    requires forall j :: 0 <= j < |x + z| ==> (x + z)[j].right.costForCalls.Finite?
    requires Sum(Values(JoinedCalls(x + z))) == Sum(Values(CallCostCells(right[1..])))
    requires Sum(JoinedCharges(x + z)) == Sum(CallCostCharges(right[1..]))
    ensures |m| == |right|
    ensures forall j :: 0 <= j < |m| ==> m[j].right.costForCalls.Finite?
    ensures Sum(Values(JoinedCalls(m))) == Sum(Values(CallCostCells(right)))
    ensures Sum(JoinedCharges(m)) == Sum(CallCostCharges(right))
  {
    forall j | 0 <= j < |x| ensures x[j].right.costForCalls.Finite? {
      assert x[j] == (x + z)[j];
    }
    forall j | 0 <= j < |z| ensures z[j].right.costForCalls.Finite? {
      assert z[j] == (x + z)[|x| + j];
    }
    JoinedSumsInsert(x, y, z);
    ChargeSumsHead(right);
  }

  /**
   * With distinct roster ids covering every per-number row, the join uses
   * each per-number row exactly once, whatever the roster's order and
   * whatever divisions without a per-number row it holds besides: the joined
   * rows are as many as the per-number rows, and the joined call and line
   * columns add up to the same totals.
   */
  lemma {:induction false} MergeUsesEachRow(left: seq<CostedDivision>, right: seq<CallCost>)
    requires StrictlyIncreasing(CallCostIds(right))
    requires DistinctIds(left)
    requires forall k :: 0 <= k < |right| ==> right[k].id in DivisionIds(left)
    requires forall k :: 0 <= k < |right| ==> right[k].costForCalls.Finite?
    ensures |MergeOnId(left, right)| == |right|
    ensures forall j :: 0 <= j < |MergeOnId(left, right)| ==> MergeOnId(left, right)[j].right.costForCalls.Finite?
    ensures Sum(Values(JoinedCalls(MergeOnId(left, right)))) == Sum(Values(CallCostCells(right)))
    ensures Sum(JoinedCharges(MergeOnId(left, right))) == Sum(CallCostCharges(right))
    decreases |right|
  {
    if right == [] {
      MergeOnNothing(left);
    } else {
      var r0, rest := right[0], right[1..];
      assert CallCostIds(rest) == CallCostIds(right)[1..];
      assert r0.id in DivisionIds(left);
      var k :| 0 <= k < |left| && DivisionIds(left)[k] == r0.id;
      MergeSplitsAt(left, right, k);
      forall k | 0 <= k < |rest| ensures rest[k].id in DivisionIds(left) && rest[k].costForCalls.Finite? {
        assert rest[k] == right[k + 1];
      }
      MergeUsesEachRow(left, rest);
      var x, z := MergeOnId(left[..k], rest), MergeOnId(left[k + 1..], rest);
      JoinedRowAdded(MergeOnId(left, right), x, Joined(left[k], r0), z, right);
    }
  }

  /** Whatever the roster's order, and whatever divisions without matched
      calls it holds besides, when its ids are distinct and include every
      division with matched calls, the report has one row per such division
      and its call column adds up to the call-time pool within half a
      hundredth per row. */
  lemma {:induction false} ReportCallsReconcile(divisions: seq<CostedDivision>, phones: seq<Phone>, calls: seq<CallRecord>,
                             numberCost: real, start: int, end: int, conversationCost: real)
    requires DistinctIds(divisions)
    requires forall id :: HasKey(Matching(phones, calls, start, end), id) ==> id in DivisionIds(divisions)
    requires Weights(Matching(phones, calls, start, end)) != 0
    ensures var report := ReportRows(MergeOnId(divisions,
                            ExpensesByNumbers(phones, calls, numberCost, start, end, conversationCost)));
            && |report| == |SortedKeys(Matching(phones, calls, start, end))|
            && (forall i :: 0 <= i < |report| ==> report[i].costForCalls.Finite?)
            && -(|report| as real) / 200.0 <= Sum(Values(ReportCallCells(report))) - conversationCost
            && Sum(Values(ReportCallCells(report))) - conversationCost <= |report| as real / 200.0
  {
    var right := ExpensesByNumbers(phones, calls, numberCost, start, end, conversationCost);
    ExpensesByNumbersShape(phones, calls, numberCost, start, end, conversationCost);
    ExpensesByNumbersCalls(phones, calls, numberCost, start, end, conversationCost, right);
    forall k | 0 <= k < |right| ensures right[k].id in DivisionIds(divisions) {
      assert CallCostIds(right)[k] in SortedKeys(Matching(phones, calls, start, end));
    }
    MergeUsesEachRow(divisions, right);
    var merged := MergeOnId(divisions, right);
    assert ReportCallCells(ReportRows(merged)) == JoinedCalls(merged);
  }

  function RosterIds(rows: seq<Division>): (r: seq<int>)
    ensures |r| == |rows|
    ensures forall i :: 0 <= i < |rows| ==> r[i] == rows[i].id
  {
    seq(|rows|, i requires 0 <= i < |rows| => rows[i].id)
  }

  /** The divisions table as the division engine leaves it. */
  function CostedRoster(rows: seq<Division>, employeesCost: real, departmentsCost: real, subscriptionFee: real)
    : (r: seq<CostedDivision>)
    ensures DivisionIds(r) == RosterIds(rows)
  {
    var r := CostedRows(rows, PoolColumn(EmployeeCounts(rows), employeesCost),
                        PoolColumn(DepartmentCounts(rows), departmentsCost),
                        BroadcastColumn(|rows|, SubscriptionCost(rows, subscriptionFee)));
    assert DivisionIds(r) == RosterIds(rows);
    r
  }

  function EmployeeCells(rows: seq<ReportRow>): (r: seq<Amount>)
    ensures |r| == |rows| && forall i :: 0 <= i < |rows| ==> r[i] == rows[i].costForEmployees
  {
    seq(|rows|, i requires 0 <= i < |rows| => rows[i].costForEmployees)
  }

  function DepartmentCells(rows: seq<ReportRow>): (r: seq<Amount>)
    ensures |r| == |rows| && forall i :: 0 <= i < |rows| ==> r[i] == rows[i].costForDepartments
  {
    seq(|rows|, i requires 0 <= i < |rows| => rows[i].costForDepartments)
  }

  function SubscriptionCells(rows: seq<ReportRow>): (r: seq<Amount>)
    ensures |r| == |rows| && forall i :: 0 <= i < |rows| ==> r[i] == rows[i].costForSubscription
  {
    seq(|rows|, i requires 0 <= i < |rows| => rows[i].costForSubscription)
  }

  function NumberValues(rows: seq<ReportRow>): (r: seq<real>)
    ensures |r| == |rows| && forall i :: 0 <= i < |rows| ==> r[i] == rows[i].costForNumbers
  {
    seq(|rows|, i requires 0 <= i < |rows| => rows[i].costForNumbers)
  }

  function TotalCells(rows: seq<ReportRow>): (r: seq<Amount>)
    ensures |r| == |rows| && forall i :: 0 <= i < |rows| ==> r[i] == rows[i].total
  {
    seq(|rows|, i requires 0 <= i < |rows| => rows[i].total)
  }

  /** The report of the whole engine for a roster, the directory, the call
      history, the window and the five prices. */
  function FullReport(rows: seq<Division>, employeesCost: real, departmentsCost: real, subscriptionFee: real,
                      phones: seq<Phone>, calls: seq<CallRecord>, numberCost: real, start: int, end: int,
                      conversationCost: real): (r: seq<ReportRow>)
    ensures forall i :: 0 <= i < |r| ==>
              (r[i].total.Finite? <==> r[i].costForEmployees.Finite? && r[i].costForDepartments.Finite?
                                       && r[i].costForSubscription.Finite? && r[i].costForCalls.Finite?)
    ensures forall i :: 0 <= i < |r| ==> r[i].total.Finite? ==>
              r[i].total.value == r[i].costForEmployees.value + r[i].costForDepartments.value
                                  + r[i].costForSubscription.value + r[i].costForCalls.value + r[i].costForNumbers
  {
    ReportRows(MergeOnId(CostedRoster(rows, employeesCost, departmentsCost, subscriptionFee),
                         ExpensesByNumbers(phones, calls, numberCost, start, end, conversationCost)))
  }

  /** The pair of tables the report joins lines up row by row when the roster
      lists, by ascending id, exactly the divisions with matched calls. */
  lemma {:induction false} FullReportAligned(rows: seq<Division>, employeesCost: real, departmentsCost: real, subscriptionFee: real,
                          phones: seq<Phone>, calls: seq<CallRecord>, numberCost: real, start: int, end: int,
                          conversationCost: real)
    requires RosterIds(rows) == SortedKeys(Matching(phones, calls, start, end))
    ensures var report := FullReport(rows, employeesCost, departmentsCost, subscriptionFee, phones, calls,
                                     numberCost, start, end, conversationCost);
            var byNumbers := ExpensesByNumbers(phones, calls, numberCost, start, end, conversationCost);
            && |report| == |rows| == |byNumbers|
            && EmployeeCells(report) == PoolColumn(EmployeeCounts(rows), employeesCost)
            && DepartmentCells(report) == PoolColumn(DepartmentCounts(rows), departmentsCost)
            && SubscriptionCells(report) == BroadcastColumn(|rows|, SubscriptionCost(rows, subscriptionFee))
            && ReportCallCells(report) == CallCostCells(byNumbers)
            && (forall i :: 0 <= i < |rows| ==> report[i].costForNumbers == byNumbers[i].costForNumbers)
  {
    var costed := CostedRoster(rows, employeesCost, departmentsCost, subscriptionFee);
    var byNumbers := ExpensesByNumbers(phones, calls, numberCost, start, end, conversationCost);
    assert CallCostIds(byNumbers) == SortedKeys(Matching(phones, calls, start, end)) by {
      ExpensesByNumbersShape(phones, calls, numberCost, start, end, conversationCost);
    }
    MergeAligned(costed, byNumbers);
    var merged := MergeOnId(costed, byNumbers);
    assert Lefts(merged) == costed;
    ReportOfRoster(rows, employeesCost, departmentsCost, subscriptionFee, merged);
    assert JoinedCalls(merged) == CallCostCells(byNumbers);
  }

  /** When every line belongs to a division with matched calls, the line
      charges of the per-number table are the whole charge table. */
  lemma NumbersAllCharged(phones: seq<Phone>, calls: seq<CallRecord>, numberCost: real, start: int, end: int,
                          conversationCost: real)
    requires forall i :: 0 <= i < |phones| ==> Matched(phones, OutgoingInPeriod(calls, start, end), phones[i].divisionId)
    ensures var byNumbers := ExpensesByNumbers(phones, calls, numberCost, start, end, conversationCost);
            Sum(CallCostCharges(byNumbers)) == |phones| as real * numberCost
  {
    var byNumbers := ExpensesByNumbers(phones, calls, numberCost, start, end, conversationCost);
    var charges := PhonesCostToDivision(phones, numberCost);
    assert CallCostIds(byNumbers) == NumberCostIds(charges) by {
      ExpensesByNumbersDivisions(phones, calls, numberCost, start, end, conversationCost, byNumbers);
      forall id ensures id in CallCostIds(byNumbers) <==> id in NumberCostIds(charges) {
        if OwnsLine(phones, id) {
          var i :| 0 <= i < |phones| && phones[i].divisionId == id;
          assert Matched(phones, OutgoingInPeriod(calls, start, end), phones[i].divisionId);
        }
        if Matched(phones, OutgoingInPeriod(calls, start, end), id) {
          var i :| 0 <= i < |phones| && phones[i].divisionId == id && HasCalls(OutgoingInPeriod(calls, start, end), phones[i].number);
          assert OwnsLine(phones, id);
        }
      }
      SortedUnique(CallCostIds(byNumbers), NumberCostIds(charges));
    }
    assert CallCostCharges(byNumbers) == NumberCostValues(charges) by {
      ExpensesByNumbersShape(phones, calls, numberCost, start, end, conversationCost);
    }
    PhonesCostTotal(phones, numberCost);
  }

  /** No two roster rows share an id. */
  predicate DistinctRoster(rows: seq<Division>)
  {
    forall i, j :: 0 <= i < j < |rows| ==> rows[i].id != rows[j].id
  }

  /** A roster whose distinct ids are exactly those of the per-number table
      is kept whole by the join, and each per-number row is used once. */
  lemma {:induction false} MergeCoversRoster(left: seq<CostedDivision>, right: seq<CallCost>)
    requires StrictlyIncreasing(CallCostIds(right))
    requires DistinctIds(left)
    requires forall k :: 0 <= k < |right| ==> right[k].id in DivisionIds(left)
    requires forall i :: 0 <= i < |left| ==> HasId(right, left[i].division.id)
    requires forall k :: 0 <= k < |right| ==> right[k].costForCalls.Finite?
    ensures Lefts(MergeOnId(left, right)) == left
    ensures |left| == |right|
    ensures forall j :: 0 <= j < |MergeOnId(left, right)| ==> MergeOnId(left, right)[j].right.costForCalls.Finite?
    ensures Sum(Values(JoinedCalls(MergeOnId(left, right)))) == Sum(Values(CallCostCells(right)))
    ensures Sum(JoinedCharges(MergeOnId(left, right))) == Sum(CallCostCharges(right))
  {
    MergeOnIdKeeps(left, right);
    FilterAll(left, (d: CostedDivision) => HasId(right, d.division.id));
    MergeUsesEachRow(left, right);
  }

  /** The report of a join that kept the costed roster whole shows the
      division engine's three columns unchanged, and the joined call and
      line cells. */
  lemma {:induction false} ReportOfRoster(rows: seq<Division>, employeesCost: real, departmentsCost: real,
                                          subscriptionFee: real, merged: seq<Joined>)
    requires Lefts(merged) == CostedRoster(rows, employeesCost, departmentsCost, subscriptionFee)
    ensures var report := ReportRows(merged);
            && |report| == |rows|
            && EmployeeCells(report) == PoolColumn(EmployeeCounts(rows), employeesCost)
            && DepartmentCells(report) == PoolColumn(DepartmentCounts(rows), departmentsCost)
            && SubscriptionCells(report) == BroadcastColumn(|rows|, SubscriptionCost(rows, subscriptionFee))
            && ReportCallCells(report) == JoinedCalls(merged)
            && NumberValues(report) == JoinedCharges(merged)
  {
    var report := ReportRows(merged);
    assert |merged| == |rows|;
    forall i | 0 <= i < |rows|
      ensures merged[i].left == CostedRoster(rows, employeesCost, departmentsCost, subscriptionFee)[i]
    {
      assert Lefts(merged)[i] == merged[i].left;
    }
    assert EmployeeCells(report) == PoolColumn(EmployeeCounts(rows), employeesCost);
    assert DepartmentCells(report) == PoolColumn(DepartmentCounts(rows), departmentsCost);
    assert SubscriptionCells(report) == BroadcastColumn(|rows|, SubscriptionCost(rows, subscriptionFee));
    assert ReportCallCells(report) == JoinedCalls(merged);
    assert NumberValues(report) == JoinedCharges(merged);
  }

  /**
   * When the roster's ids are distinct and are exactly the divisions that
   * made matched calls, in any order, the report keeps the roster's rows and
   * order: its three pool columns are the division engine's columns, and its
   * call and line columns hold the per-number table's cells, reordered, so
   * they add up to the same sums.
   */
  lemma {:induction false} FullReportColumns(rows: seq<Division>, employeesCost: real, departmentsCost: real,
                                             subscriptionFee: real, phones: seq<Phone>, calls: seq<CallRecord>,
                                             numberCost: real, start: int, end: int, conversationCost: real,
                                             report: seq<ReportRow>)
    requires report == FullReport(rows, employeesCost, departmentsCost, subscriptionFee, phones, calls,
                                  numberCost, start, end, conversationCost)
    requires DistinctRoster(rows)
    requires forall id :: id in RosterIds(rows) <==> HasKey(Matching(phones, calls, start, end), id)
    requires Weights(Matching(phones, calls, start, end)) != 0
    ensures var byNumbers := ExpensesByNumbers(phones, calls, numberCost, start, end, conversationCost);
            && |report| == |rows| == |byNumbers|
            && EmployeeCells(report) == PoolColumn(EmployeeCounts(rows), employeesCost)
            && DepartmentCells(report) == PoolColumn(DepartmentCounts(rows), departmentsCost)
            && SubscriptionCells(report) == BroadcastColumn(|rows|, SubscriptionCost(rows, subscriptionFee))
            && (forall i :: 0 <= i < |report| ==> ReportCallCells(report)[i].Finite?)
            && (forall k :: 0 <= k < |byNumbers| ==> CallCostCells(byNumbers)[k].Finite?)
            && Sum(Values(ReportCallCells(report))) == Sum(Values(CallCostCells(byNumbers)))
            && Sum(NumberValues(report)) == Sum(CallCostCharges(byNumbers))
  {
    var pd := Matching(phones, calls, start, end);
    var costed := CostedRoster(rows, employeesCost, departmentsCost, subscriptionFee);
    var byNumbers := ExpensesByNumbers(phones, calls, numberCost, start, end, conversationCost);
    assert CallCostIds(byNumbers) == SortedKeys(pd) by {
      ExpensesByNumbersShape(phones, calls, numberCost, start, end, conversationCost);
    }
    assert forall k :: 0 <= k < |byNumbers| ==> byNumbers[k].costForCalls.Finite? by {
      ExpensesByNumbersCalls(phones, calls, numberCost, start, end, conversationCost, byNumbers);
    }
    assert DistinctIds(costed) by {
      forall i, j | 0 <= i < j < |costed| ensures costed[i].division.id != costed[j].division.id {
        assert DivisionIds(costed)[i] == rows[i].id && DivisionIds(costed)[j] == rows[j].id;
      }
    }
    forall k | 0 <= k < |byNumbers| ensures byNumbers[k].id in DivisionIds(costed) {
      assert CallCostIds(byNumbers)[k] in SortedKeys(pd);
    }
    forall i | 0 <= i < |costed| ensures HasId(byNumbers, costed[i].division.id) {
      assert RosterIds(rows)[i] == costed[i].division.id;
    }
    MergeCoversRoster(costed, byNumbers);
    ReportOfRoster(rows, employeesCost, departmentsCost, subscriptionFee, MergeOnId(costed, byNumbers));
  }

  /** A report whose every total adds up its row's five costs has a total
      column that adds up to the sum of the five cost columns. */
  lemma {:induction false} ReportTotalsAdd(report: seq<ReportRow>)
    requires forall i :: 0 <= i < |report| ==>
               && report[i].costForEmployees.Finite? && report[i].costForDepartments.Finite?
               && report[i].costForSubscription.Finite? && report[i].costForCalls.Finite?
    requires forall i :: 0 <= i < |report| ==>
               && report[i].total.Finite?
               && report[i].total.value == report[i].costForEmployees.value + report[i].costForDepartments.value
                                           + report[i].costForSubscription.value + report[i].costForCalls.value
                                           + report[i].costForNumbers
    ensures Sum(Values(TotalCells(report)))
            == Sum(Values(EmployeeCells(report))) + Sum(Values(DepartmentCells(report)))
               + Sum(Values(SubscriptionCells(report))) + Sum(Values(ReportCallCells(report)))
               + Sum(NumberValues(report))
  {
    SumColumns(Values(EmployeeCells(report)), Values(DepartmentCells(report)), Values(SubscriptionCells(report)),
               Values(ReportCallCells(report)), NumberValues(report), Values(TotalCells(report)));
  }

  /**
   * Under the same conditions, each column of the report adds up to its
   * pool: the three rounded pool columns and the call column within half a
   * hundredth per division, the line column exactly to the line charges.
   */
  lemma {:induction false} FullReportPools(rows: seq<Division>, employeesCost: real, departmentsCost: real,
                                           subscriptionFee: real, phones: seq<Phone>, calls: seq<CallRecord>,
                                           numberCost: real, start: int, end: int, conversationCost: real,
                                           report: seq<ReportRow>)
    requires report == FullReport(rows, employeesCost, departmentsCost, subscriptionFee, phones, calls,
                                  numberCost, start, end, conversationCost)
    requires DistinctRoster(rows)
    requires forall id :: id in RosterIds(rows) <==> HasKey(Matching(phones, calls, start, end), id)
    requires forall i :: 0 <= i < |phones| ==> Matched(phones, OutgoingInPeriod(calls, start, end), phones[i].divisionId)
    requires SumNat(EmployeeCounts(rows)) != 0 && SumNat(DepartmentCounts(rows)) != 0
    requires Weights(Matching(phones, calls, start, end)) != 0
    ensures |report| == |rows|
    ensures forall i :: 0 <= i < |report| ==>
              && report[i].costForEmployees.Finite? && report[i].costForDepartments.Finite?
              && report[i].costForSubscription.Finite? && report[i].costForCalls.Finite?
    ensures var n := |rows| as real;
            && -n / 200.0 <= Sum(Values(EmployeeCells(report))) - employeesCost <= n / 200.0
            && -n / 200.0 <= Sum(Values(DepartmentCells(report))) - departmentsCost <= n / 200.0
            && -n / 200.0 <= Sum(Values(SubscriptionCells(report))) - subscriptionFee <= n / 200.0
            && -n / 200.0 <= Sum(Values(ReportCallCells(report))) - conversationCost <= n / 200.0
            && Sum(NumberValues(report)) == |phones| as real * numberCost
  {
    var byNumbers := ExpensesByNumbers(phones, calls, numberCost, start, end, conversationCost);
    FullReportColumns(rows, employeesCost, departmentsCost, subscriptionFee, phones, calls, numberCost, start, end,
                      conversationCost, report);
    assert -(|byNumbers| as real) / 200.0 <= Sum(Values(CallCostCells(byNumbers))) - conversationCost
           <= |byNumbers| as real / 200.0 by {
      ExpensesByNumbersCalls(phones, calls, numberCost, start, end, conversationCost, byNumbers);
    }
    assert Sum(CallCostCharges(byNumbers)) == |phones| as real * numberCost by {
      NumbersAllCharged(phones, calls, numberCost, start, end, conversationCost);
    }
    ReportColumnsBounded(report, rows, employeesCost, departmentsCost, subscriptionFee);
    forall i | 0 <= i < |report| ensures report[i].costForCalls.Finite? {
      assert ReportCallCells(report)[i] == report[i].costForCalls;
    }
  }

  /** A report whose pool columns are the division engine's columns, over a
      roster with employees and departments, has each pool column add up to
      its pool within half a hundredth per division. */
  lemma {:induction false} ReportColumnsBounded(report: seq<ReportRow>, rows: seq<Division>, employeesCost: real,
                                                departmentsCost: real, subscriptionFee: real)
    requires |report| == |rows|
    requires SumNat(EmployeeCounts(rows)) != 0 && SumNat(DepartmentCounts(rows)) != 0
    requires EmployeeCells(report) == PoolColumn(EmployeeCounts(rows), employeesCost)
    requires DepartmentCells(report) == PoolColumn(DepartmentCounts(rows), departmentsCost)
    requires SubscriptionCells(report) == BroadcastColumn(|rows|, SubscriptionCost(rows, subscriptionFee))
    ensures forall i :: 0 <= i < |report| ==>
              && report[i].costForEmployees.Finite? && report[i].costForDepartments.Finite?
              && report[i].costForSubscription.Finite?
    ensures var n := |rows| as real;
            && -n / 200.0 <= Sum(Values(EmployeeCells(report))) - employeesCost <= n / 200.0
            && -n / 200.0 <= Sum(Values(DepartmentCells(report))) - departmentsCost <= n / 200.0
            && -n / 200.0 <= Sum(Values(SubscriptionCells(report))) - subscriptionFee <= n / 200.0
  {
    assert |rows| != 0 by {
      SumNatZero(EmployeeCounts(rows));
    }
    PoolColumnReconciles(EmployeeCounts(rows), employeesCost);
    PoolColumnReconciles(DepartmentCounts(rows), departmentsCost);
    SubscriptionEqualSplit(rows, subscriptionFee);
    assert forall i :: 0 <= i < |report| ==> report[i].costForEmployees == EmployeeCells(report)[i];
    assert forall i :: 0 <= i < |report| ==> report[i].costForDepartments == DepartmentCells(report)[i];
    assert forall i :: 0 <= i < |report| ==> report[i].costForSubscription == SubscriptionCells(report)[i];
  }

  /**
   * The reconciliation the engine is built for: when the roster's ids are
   * distinct and are exactly the divisions that made matched calls, in any
   * order, every line belongs to such a division and every pool has
   * something to split over, the report has one finite row per division and
   * its totals add up to the five pools (the line charges counted per line)
   * within half a hundredth per division for each of the four rounded
   * columns.
   */
  lemma {:induction false} FullReportReconciles(rows: seq<Division>, employeesCost: real, departmentsCost: real, subscriptionFee: real,
                             phones: seq<Phone>, calls: seq<CallRecord>, numberCost: real, start: int, end: int,
                             conversationCost: real, report: seq<ReportRow>)
    requires report == FullReport(rows, employeesCost, departmentsCost, subscriptionFee, phones, calls,
                                  numberCost, start, end, conversationCost)
    requires DistinctRoster(rows)
    requires forall id :: id in RosterIds(rows) <==> HasKey(Matching(phones, calls, start, end), id)
    requires forall i :: 0 <= i < |phones| ==> Matched(phones, OutgoingInPeriod(calls, start, end), phones[i].divisionId)
    requires SumNat(EmployeeCounts(rows)) != 0 && SumNat(DepartmentCounts(rows)) != 0
    requires Weights(Matching(phones, calls, start, end)) != 0
    ensures |report| == |rows|
    ensures forall i :: 0 <= i < |report| ==> report[i].total.Finite?
    ensures -4.0 * (|rows| as real) / 200.0
            <= Sum(Values(TotalCells(report)))
               - (employeesCost + departmentsCost + subscriptionFee + conversationCost + |phones| as real * numberCost)
            <= 4.0 * (|rows| as real) / 200.0
  {
    FullReportPools(rows, employeesCost, departmentsCost, subscriptionFee, phones, calls, numberCost, start, end,
                    conversationCost, report);
    ReportTotalsWithin(report, |rows|, employeesCost, departmentsCost, subscriptionFee, conversationCost,
                       |phones| as real * numberCost);
  }

  /** A report whose four rounded columns are finite and each within n/200 of
      its pool, whose line column adds up to the line charges, and whose every
      total adds up its row, has finite totals that add up to the five pools
      within 4n/200. */
  lemma {:induction false} ReportTotalsWithin(report: seq<ReportRow>, n: nat, employeesCost: real,
                                              departmentsCost: real, subscriptionFee: real, conversationCost: real,
                                              lines: real)
    requires |report| == n
    requires forall i :: 0 <= i < |report| ==>
               && report[i].costForEmployees.Finite? && report[i].costForDepartments.Finite?
               && report[i].costForSubscription.Finite? && report[i].costForCalls.Finite?
    requires forall i :: 0 <= i < |report| ==>
               (report[i].total.Finite? <==> report[i].costForEmployees.Finite? && report[i].costForDepartments.Finite?
                                             && report[i].costForSubscription.Finite? && report[i].costForCalls.Finite?)
    requires forall i :: 0 <= i < |report| ==> report[i].total.Finite? ==>
               report[i].total.value == report[i].costForEmployees.value + report[i].costForDepartments.value
                                        + report[i].costForSubscription.value + report[i].costForCalls.value
                                        + report[i].costForNumbers
    requires -(n as real) / 200.0 <= Sum(Values(EmployeeCells(report))) - employeesCost <= n as real / 200.0
    requires -(n as real) / 200.0 <= Sum(Values(DepartmentCells(report))) - departmentsCost <= n as real / 200.0
    requires -(n as real) / 200.0 <= Sum(Values(SubscriptionCells(report))) - subscriptionFee <= n as real / 200.0
    requires -(n as real) / 200.0 <= Sum(Values(ReportCallCells(report))) - conversationCost <= n as real / 200.0
    requires Sum(NumberValues(report)) == lines
    ensures forall i :: 0 <= i < |report| ==> report[i].total.Finite?
    ensures -4.0 * (n as real) / 200.0
            <= Sum(Values(TotalCells(report))) - (employeesCost + departmentsCost + subscriptionFee + conversationCost + lines)
            <= 4.0 * (n as real) / 200.0
  {
    ReportTotalsAdd(report);
    var employees, departments := Sum(Values(EmployeeCells(report))), Sum(Values(DepartmentCells(report)));
    var subscription, calls := Sum(Values(SubscriptionCells(report))), Sum(Values(ReportCallCells(report)));
    var bound := n as real / 200.0;
    assert Sum(Values(TotalCells(report))) - (employeesCost + departmentsCost + subscriptionFee + conversationCost + lines)
           == (employees - employeesCost) + (departments - departmentsCost) + (subscription - subscriptionFee)
              + (calls - conversationCost);
    assert -4.0 * bound <= (employees - employeesCost) + (departments - departmentsCost)
                           + (subscription - subscriptionFee) + (calls - conversationCost) <= 4.0 * bound;
  }

  /**
   * The main window: the line edits the engines read (modelled as the numbers
   * they hold), the two date pickers (as the midnight starting each chosen
   * day, in seconds), and the report last shown. `divisions` and `phones`
   * are not the window's own `self.divisions` and `self.phones`
   * (gui.py:436-437), which `calculate` never passes on: they stand for the
   * import-time default arguments of the two engines, `load_divisions()` at
   * main.py:127 and `get_phones()` at main.py:138.
   */
  class MainWindow {
    var personal: real
    var divisionsCost: real
    var subscription: real
    var minutes: real
    var costForNumber: real
    var startDate: int
    var endDate: int
    var toModel: Option<Table>
    const divisions: DivisionTable
    const phones: seq<Phone>

    ghost predicate Valid()
      reads this, divisions
    {
      divisions.Valid()
    }

    /** `init_ui`: the line edits start out holding the usual monthly
        prices; the engines' default divisions table and directory are given. */
    constructor (divisions: DivisionTable, phones: seq<Phone>, startDate: int, endDate: int)
      requires divisions.Valid()
      ensures Valid()
      ensures this.divisions == divisions && this.phones == phones
      ensures this.startDate == startDate && this.endDate == endDate
      ensures subscription == 4200.0 && personal == 10000.0 && divisionsCost == 900.0
      ensures minutes == 24000.0 && costForNumber == 160.0
      ensures toModel == None
    {
      this.divisions := divisions;
      this.phones := phones;
      this.startDate := startDate;
      this.endDate := endDate;
      subscription, personal, divisionsCost, minutes, costForNumber := 4200.0, 10000.0, 900.0, 24000.0, 160.0;
      toModel := None;
    }

    /** `from_invoice`: with an invoice chosen (`None` when the dialog is
        cancelled), the four pools are summed and each line edit receives its
        pool rounded to two places; when a billed line's amount cannot be
        read the conversion raises and no line edit changes. */
    method FromInvoice(table: Option<seq<InvoiceRow>>) returns (outcome: Option<Result<Pools, string>>)
      modifies this
      ensures outcome == if table.None? then None else Some(Totals(table.value))
      ensures outcome.Some? && outcome.value.Success? ==>
                && divisionsCost == Round2(outcome.value.value.divisions)
                && personal == Round2(outcome.value.value.personal)
                && subscription == Round2(outcome.value.value.subscription)
                && minutes == Round2(outcome.value.value.minutes)
      ensures !(outcome.Some? && outcome.value.Success?) ==>
                divisionsCost == old(divisionsCost) && personal == old(personal)
                && subscription == old(subscription) && minutes == old(minutes)
      ensures costForNumber == old(costForNumber) && startDate == old(startDate) && endDate == old(endDate)
      ensures toModel == old(toModel)
    {
      if table.None? {
        return None;
      }
      var r := SumInvoice(table.value);
      if r.Success? {
        divisionsCost := Round2(r.value.divisions);
        personal := Round2(r.value.personal);
        subscription := Round2(r.value.subscription);
        minutes := Round2(r.value.minutes);
      }
      return Some(r);
    }

    /** `calculate`: the division engine writes its three columns into the
        shared divisions table, the per-number engine costs the call history
        over the chosen days, and the joined report becomes `to_model`. */
    method Calculate(calls: seq<CallRecord>)
      requires Valid()
      modifies this, divisions
      ensures Valid() && divisions.Costed()
      ensures divisions.rows == old(divisions.rows)
      ensures divisions.costForEmployees == Some(PoolColumn(EmployeeCounts(divisions.rows), old(personal)))
      ensures divisions.costForDepartments == Some(PoolColumn(DepartmentCounts(divisions.rows), old(divisionsCost)))
      ensures divisions.costForSubscription
              == Some(BroadcastColumn(|divisions.rows|, SubscriptionCost(divisions.rows, old(subscription))))
      ensures toModel == Some(ShownTable(FullReport(divisions.rows, old(personal), old(divisionsCost), old(subscription),
                                                    phones, calls, old(costForNumber), old(startDate), old(endDate),
                                                    old(minutes))))
      ensures personal == old(personal) && divisionsCost == old(divisionsCost) && subscription == old(subscription)
      ensures minutes == old(minutes) && costForNumber == old(costForNumber)
      ensures startDate == old(startDate) && endDate == old(endDate)
    {
      var table := CalculateExpensesByDivisions(personal, divisionsCost, subscription, divisions);
      var byNumbers := ExpensesByNumbers(phones, calls, costForNumber, startDate, endDate, minutes);
      var costed := CostedRows(table.rows, table.costForEmployees.value, table.costForDepartments.value,
                               table.costForSubscription.value);
      assert costed == CostedRoster(table.rows, personal, divisionsCost, subscription);
      toModel := Some(ShownTable(ReportRows(MergeOnId(costed, byNumbers))));
    }
  }
}
