/**
 * The per-number side of main.py: the charge for every line a division owns,
 * and the call-time pool split by each division's outgoing seconds inside the
 * billing window, joined into one table keyed by division id.
 */
module Numbers {
  import opened Money
  import opened Tables
  import opened Text
  import opened Ledger
  import opened PoolSplit

  /** One row of the phone directory: a line and the division it belongs to. */
  datatype Phone = Phone(number: string, divisionId: int)

  /** One row of the per-number charge table. */
  datatype NumberCost = NumberCost(divisionId: int, costForNumber: real)

  /** One row of `division_duration` once its cost column is written. */
  datatype CallShare = CallShare(divisionId: int, duration: nat, costForCalls: Amount)

  /** One row of the table `calculate_expenses_by_numbers` returns. */
  datatype CallCost = CallCost(id: int, duration: nat, costForCalls: Amount, costForNumbers: real)

  /** The directory as a table counting one line per row. */
  function Lines(phones: seq<Phone>): (r: seq<Keyed>)
    ensures |r| == |phones|
    ensures forall i :: 0 <= i < |phones| ==> r[i] == Keyed(phones[i].divisionId, 1)
  {
    seq(|phones|, i requires 0 <= i < |phones| => Keyed(phones[i].divisionId, 1))
  }

  predicate OwnsLine(phones: seq<Phone>, id: int)
  {
    exists i :: 0 <= i < |phones| && phones[i].divisionId == id
  }

  /** The number of lines division `id` owns. */
  function LineCount(phones: seq<Phone>, id: int): nat
  {
    GroupSum(Lines(phones), id)
  }

  lemma LinesKeys(phones: seq<Phone>)
    ensures forall id :: HasKey(Lines(phones), id) <==> OwnsLine(phones, id)
  {
    forall id | HasKey(Lines(phones), id) ensures OwnsLine(phones, id) {
      var i :| 0 <= i < |phones| && Lines(phones)[i].key == id;
      assert phones[i].divisionId == id;
    }
    forall id | OwnsLine(phones, id) ensures HasKey(Lines(phones), id) {
      var i :| 0 <= i < |phones| && phones[i].divisionId == id;
      assert Lines(phones)[i].key == id;
    }
  }

  /** The rows of the charge table: each division with its count times the
      charge per line. */
  function Charges(ids: seq<int>, counts: seq<nat>, costPerNumber: real): (r: seq<NumberCost>)
    requires |counts| == |ids|
    ensures NumberCostIds(r) == ids
    ensures forall i :: 0 <= i < |ids| ==> r[i].costForNumber == Scale(counts[i], costPerNumber)
  {
    var r := seq(|ids|, i requires 0 <= i < |ids| => NumberCost(ids[i], Scale(counts[i], costPerNumber)));
    assert NumberCostIds(r) == ids;
    r
  }

  /** `calc_phones_cost_to_division`: one row per division that owns a line,
      holding its line count times the charge per line, by ascending id. */
  function PhonesCostToDivision(phones: seq<Phone>, costPerNumber: real): (r: seq<NumberCost>)
    ensures StrictlyIncreasing(NumberCostIds(r))
    ensures forall id :: id in NumberCostIds(r) <==> OwnsLine(phones, id)
    ensures forall i :: 0 <= i < |r| ==> r[i].costForNumber == Scale(LineCount(phones, r[i].divisionId), costPerNumber)
  {
    var ids := SortedKeys(Lines(phones));
    LinesKeys(phones);
    Charges(ids, GroupTotals(ids, Lines(phones)), costPerNumber)
  }

  function NumberCostIds(rows: seq<NumberCost>): (r: seq<int>)
    ensures |r| == |rows|
    ensures forall i :: 0 <= i < |rows| ==> r[i] == rows[i].divisionId
  {
    seq(|rows|, i requires 0 <= i < |rows| => rows[i].divisionId)
  }

  function NumberCostValues(rows: seq<NumberCost>): (r: seq<real>)
    ensures |r| == |rows|
    ensures forall i :: 0 <= i < |rows| ==> r[i] == rows[i].costForNumber
  {
    seq(|rows|, i requires 0 <= i < |rows| => rows[i].costForNumber)
  }

  /** Every line is charged exactly once: the per-division charges add up to
      the number of directory rows times the charge per line. */
  lemma {:induction false} PhonesCostTotal(phones: seq<Phone>, costPerNumber: real)
    ensures Sum(NumberCostValues(PhonesCostToDivision(phones, costPerNumber))) == |phones| as real * costPerNumber
  {
    PhonesCostScaled(phones, costPerNumber);
    ScaleIsProduct(|phones|, costPerNumber);
  }

  lemma {:induction false} PhonesCostScaled(phones: seq<Phone>, costPerNumber: real)
    ensures Sum(NumberCostValues(PhonesCostToDivision(phones, costPerNumber))) == Scale(|phones|, costPerNumber)
  {
    var ids := SortedKeys(Lines(phones));
    PhonesCostAreCharges(phones, costPerNumber);
    LinesCounted(phones);
    ChargesTotal(ids, GroupTotals(ids, Lines(phones)), costPerNumber, |phones|);
  }

  lemma {:induction false} PhonesCostAreCharges(phones: seq<Phone>, costPerNumber: real)
    ensures var ids := SortedKeys(Lines(phones));
            PhonesCostToDivision(phones, costPerNumber) == Charges(ids, GroupTotals(ids, Lines(phones)), costPerNumber)
  {
  }

  /** Charges over `total` lines in all add up to `total` charges per line. */
  lemma {:induction false} ChargesTotal(ids: seq<int>, counts: seq<nat>, costPerNumber: real, total: nat)
    requires |counts| == |ids| && SumNat(counts) == total
    ensures Sum(NumberCostValues(Charges(ids, counts, costPerNumber))) == Scale(total, costPerNumber)
  {
    ChargesAreShares(ids, counts, costPerNumber);
    SharesSum(counts, costPerNumber);
  }

  lemma ChargesAreShares(ids: seq<int>, counts: seq<nat>, costPerNumber: real)
    requires |counts| == |ids|
    ensures NumberCostValues(Charges(ids, counts, costPerNumber)) == Shares(counts, costPerNumber)
  {
  }

  /** Counting lines by division loses none of them. */
  lemma LinesCounted(phones: seq<Phone>)
    ensures SumNat(GroupTotals(SortedKeys(Lines(phones)), Lines(phones))) == |phones|
  {
    var lines := Lines(phones);
    var ids := SortedKeys(lines);
    forall i | 0 <= i < |lines| ensures lines[i].key in ids {
      assert HasKey(lines, lines[i].key);
    }
    GroupTotalsReconcile(ids, lines);
    LinesWeigh(phones);
  }

  lemma {:induction false} LinesWeigh(phones: seq<Phone>)
    ensures Weights(Lines(phones)) == |phones|
  {
    if phones != [] {
      assert Lines(phones)[1..] == Lines(phones[1..]);
      LinesWeigh(phones[1..]);
    }
  }

  /** The in-window outgoing calls the call-time pool is split over. */
  function OutgoingInPeriod(calls: seq<CallRecord>, start: int, end: int): (r: seq<CallRecord>)
    ensures forall c :: c in r <==> c in calls && start <= c.date <= end + EndOfDay && Contains(c.kind, OutgoingMarker)
  {
    FilterOutcomeCalls(FilterByDate(calls, start, end))
  }

  /** `number` has at least one call in `calls`, so `groupby('number')` gives it a row. */
  predicate HasCalls(calls: seq<CallRecord>, number: string)
  {
    exists i :: 0 <= i < |calls| && calls[i].number == number
  }

  /** `groupby('number').duration.sum()` for one number. */
  function NumberSeconds(calls: seq<CallRecord>, number: string): (r: nat)
    ensures r > 0 ==> HasCalls(calls, number)
  {
    if calls == [] then 0
    else
      var tail := NumberSeconds(calls[1..], number);
      assert HasCalls(calls[1..], number) ==> HasCalls(calls, number) by {
        if HasCalls(calls[1..], number) {
          var i :| 0 <= i < |calls[1..]| && calls[1..][i].number == number;
          assert calls[i + 1].number == number;
        }
      }
      (if calls[0].number == number then calls[0].duration else 0) + tail
  }

  /** Division `id` owns a line that has calls. */
  predicate Matched(phones: seq<Phone>, calls: seq<CallRecord>, id: int)
  {
    exists i :: 0 <= i < |phones| && phones[i].divisionId == id && HasCalls(calls, phones[i].number)
  }

  /** `phones.merge(number_seconds, on='number')`: every directory row, in
      directory order, whose line has calls, carrying its division and the
      line's summed seconds. */
  function PhoneDivision(phones: seq<Phone>, calls: seq<CallRecord>): (r: seq<Keyed>)
    ensures |r| <= |phones|
  {
    if phones == [] then []
    else if HasCalls(calls, phones[0].number)
    then [Keyed(phones[0].divisionId, NumberSeconds(calls, phones[0].number))] + PhoneDivision(phones[1..], calls)
    else PhoneDivision(phones[1..], calls)
  }

  /** How many directory rows list `number`; the merge on `number` joins a
      line's seconds once to each of them. */
  function Listings(phones: seq<Phone>, number: string): nat
  {
    if phones == [] then 0
    else (if phones[0].number == number then 1 else 0) + Listings(phones[1..], number)
  }

  /** The seconds of the calls made on directory numbers: each call's
      duration, counted once per directory row listing its number. */
  function ListedSeconds(phones: seq<Phone>, calls: seq<CallRecord>): nat
  {
    if calls == [] then 0
    else Listings(phones, calls[0].number) * calls[0].duration + ListedSeconds(phones, calls[1..])
  }

  /** Each directory row's line seconds, added up over the directory. */
  function LineSeconds(phones: seq<Phone>, calls: seq<CallRecord>): nat
  {
    if phones == [] then 0 else NumberSeconds(calls, phones[0].number) + LineSeconds(phones[1..], calls)
  }

  /** The merged rows carry, between them, every directory row's line seconds. */
  lemma {:induction false} PhoneDivisionWeighs(phones: seq<Phone>, calls: seq<CallRecord>)
    ensures Weights(PhoneDivision(phones, calls)) == LineSeconds(phones, calls)
  {
    if phones != [] {
      PhoneDivisionWeighs(phones[1..], calls);
      var n := phones[0].number;
      if HasCalls(calls, n) {
        var head := Keyed(phones[0].divisionId, NumberSeconds(calls, n));
        assert ([head] + PhoneDivision(phones[1..], calls))[1..] == PhoneDivision(phones[1..], calls);
      }
    }
  }

  lemma {:induction false} LineSecondsAppend(phones: seq<Phone>, a: seq<CallRecord>, b: seq<CallRecord>)
    ensures LineSeconds(phones, a + b) == LineSeconds(phones, a) + LineSeconds(phones, b)
  {
    if phones != [] {
      NumberSecondsAppend(a, b, phones[0].number);
      LineSecondsAppend(phones[1..], a, b);
    }
  }

  /** One call lands on every directory row that lists its number. */
  lemma {:induction false} LineSecondsOne(phones: seq<Phone>, c: CallRecord)
    ensures LineSeconds(phones, [c]) == Listings(phones, c.number) * c.duration
  {
    if phones != [] {
      LineSecondsOne(phones[1..], c);
      assert [c][1..] == [];
      var rest := Listings(phones[1..], c.number);
      if phones[0].number == c.number {
        assert NumberSeconds([c], phones[0].number) == c.duration;
        assert (1 + rest) * c.duration == c.duration + rest * c.duration;
      } else {
        assert NumberSeconds([c], phones[0].number) == 0;
      }
    }
  }

  /** The merge `phones.merge(number_seconds, on='number')` keeps exactly the
      seconds of calls on directory numbers, each once per directory row that
      lists the number (twice for a number listed twice). */
  lemma {:induction false} MatchedSeconds(phones: seq<Phone>, calls: seq<CallRecord>)
    ensures Weights(PhoneDivision(phones, calls)) == ListedSeconds(phones, calls)
    decreases |calls|
  {
    PhoneDivisionWeighs(phones, calls);
    if calls == [] {
      LineSecondsAppend(phones, [], []);
    } else {
      assert calls == [calls[0]] + calls[1..];
      LineSecondsAppend(phones, [calls[0]], calls[1..]);
      LineSecondsOne(phones, calls[0]);
      MatchedSeconds(phones, calls[1..]);
      PhoneDivisionWeighs(phones, calls[1..]);
    }
  }

  /** A number listed on some directory row. */
  predicate Listed(phones: seq<Phone>, number: string)
  {
    exists i :: 0 <= i < |phones| && phones[i].number == number
  }

  /** With every number listed once, a call counts exactly when its number
      is in the directory. */
  lemma {:induction false} ListingsDistinct(phones: seq<Phone>, number: string)
    requires forall i, j :: 0 <= i < j < |phones| ==> phones[i].number != phones[j].number
    ensures Listings(phones, number) == if Listed(phones, number) then 1 else 0
  {
    if phones != [] {
      ListingsDistinct(phones[1..], number);
      if Listed(phones[1..], number) {
        var i :| 0 <= i < |phones[1..]| && phones[1..][i].number == number;
        assert phones[i + 1].number == number;
      }
      if Listed(phones, number) && phones[0].number != number {
        var i :| 0 <= i < |phones| && phones[i].number == number;
        assert phones[1..][i - 1].number == number;
      }
    }
  }

  /** The join keeps a division exactly when it owns a line with calls. */
  lemma {:induction false} PhoneDivisionKeys(phones: seq<Phone>, calls: seq<CallRecord>)
    ensures forall id :: HasKey(PhoneDivision(phones, calls), id) <==> Matched(phones, calls, id)
  {
    if phones != [] {
      PhoneDivisionKeys(phones[1..], calls);
      var head := if HasCalls(calls, phones[0].number)
                  then [Keyed(phones[0].divisionId, NumberSeconds(calls, phones[0].number))] else [];
      assert PhoneDivision(phones, calls) == head + PhoneDivision(phones[1..], calls);
      HasKeyAppend(head, PhoneDivision(phones[1..], calls));
      forall id | Matched(phones, calls, id)
        ensures (phones[0].divisionId == id && HasCalls(calls, phones[0].number)) || Matched(phones[1..], calls, id)
      {
        var i :| 0 <= i < |phones| && phones[i].divisionId == id && HasCalls(calls, phones[i].number);
        if i > 0 {
          assert phones[1..][i - 1] == phones[i];
        }
      }
      forall id | Matched(phones[1..], calls, id) ensures Matched(phones, calls, id) {
        var i :| 0 <= i < |phones[1..]| && phones[1..][i].divisionId == id && HasCalls(calls, phones[1..][i].number);
        assert phones[i + 1] == phones[1..][i];
      }
      forall id | phones[0].divisionId == id && HasCalls(calls, phones[0].number)
        ensures Matched(phones, calls, id)
      {
        assert phones[0].divisionId == id;
      }
    }
  }

  lemma HasKeyAppend(a: seq<Keyed>, b: seq<Keyed>)
    ensures forall id :: HasKey(a + b, id) <==> HasKey(a, id) || HasKey(b, id)
  {
    forall id | HasKey(a + b, id) ensures HasKey(a, id) || HasKey(b, id) {
      var i :| 0 <= i < |a + b| && (a + b)[i].key == id;
      if i >= |a| {
        assert b[i - |a|].key == id;
      }
    }
    forall id | HasKey(b, id) ensures HasKey(a + b, id) {
      var i :| 0 <= i < |b| && b[i].key == id;
      assert (a + b)[i + |a|].key == id;
    }
    forall id | HasKey(a, id) ensures HasKey(a + b, id) {
      var i :| 0 <= i < |a| && a[i].key == id;
      assert (a + b)[i].key == id;
    }
  }

  /** `calc_price_sec`: the price of one second of talk, infinite or NaN when
      no second was matched. */
  function PriceSec(durations: seq<nat>, totalCost: real): (r: Amount)
    ensures r.Finite? <==> SumNat(durations) != 0
    ensures r.Finite? ==> r.value * SumNat(durations) as real == totalCost
  {
    Quotient(totalCost, SumNat(durations))
  }

  /** `division_duration` with its `cost_for_calls` column: one row per
      division by ascending id, its summed seconds, and those seconds priced
      at `PriceSec` and rounded. */
  function DivisionDuration(phoneDivision: seq<Keyed>, conversationCost: real): (r: seq<CallShare>)
    ensures |r| == |SortedKeys(phoneDivision)|
    ensures forall i :: 0 <= i < |r| ==>
              r[i].divisionId == SortedKeys(phoneDivision)[i]
              && r[i].duration == GroupSum(phoneDivision, r[i].divisionId)
  {
    var ids := SortedKeys(phoneDivision);
    var durations := GroupTotals(ids, phoneDivision);
    var secCost := PriceSec(durations, conversationCost);
    var costs := WeightedColumn(durations, secCost);
    seq(|ids|, i requires 0 <= i < |ids| => CallShare(ids[i], durations[i], costs[i]))
  }

  /** The rows of `right` whose division is `left`'s, each joined to `left`. */
  function Matches(left: CallShare, right: seq<NumberCost>): (r: seq<CallCost>)
    ensures forall j :: 0 <= j < |r| ==>
              r[j].id == left.divisionId && r[j].duration == left.duration && r[j].costForCalls == left.costForCalls
  {
    if right == [] then []
    else
      (if right[0].divisionId == left.divisionId
       then [CallCost(left.divisionId, left.duration, left.costForCalls, right[0].costForNumber)] else [])
      + Matches(left, right[1..])
  }

  /** `division_duration.merge(phones_cost, on='division_id')`: an inner join
      in the order of the left table. */
  function MergeOnDivision(left: seq<CallShare>, right: seq<NumberCost>): (r: seq<CallCost>)
    ensures forall j :: 0 <= j < |r| ==>
              exists i :: 0 <= i < |left| && r[j].id == left[i].divisionId
                          && r[j].duration == left[i].duration && r[j].costForCalls == left[i].costForCalls
  {
    if left == [] then []
    else
      var head := Matches(left[0], right);
      var tail := MergeOnDivision(left[1..], right);
      assert forall i :: 0 <= i < |left| - 1 ==> left[1..][i] == left[i + 1];
      assert forall j :: 0 <= j < |head| + |tail| ==> (head + tail)[j] == if j < |head| then head[j] else tail[j - |head|];
      head + tail
  }

  /** `calculate_expenses_by_numbers`, with the directory, the call history
      and the window passed in. */
  function ExpensesByNumbers(phones: seq<Phone>, calls: seq<CallRecord>, numberCost: real,
                             start: int, end: int, conversationCost: real): (r: seq<CallCost>)
    ensures forall j :: 0 <= j < |r| ==>
              r[j].duration == GroupSum(PhoneDivision(phones, OutgoingInPeriod(calls, start, end)), r[j].id)
  {
    var phonesCost := PhonesCostToDivision(phones, numberCost);
    var outgoing := OutgoingInPeriod(calls, start, end);
    var phoneDivision := PhoneDivision(phones, outgoing);
    MergeOnDivision(DivisionDuration(phoneDivision, conversationCost), phonesCost)
  }

  /** The first charge row of division `id`, or nothing when it has none. */
  function ChargeOf(right: seq<NumberCost>, id: int): real
  {
    if right == [] then 0.0
    else if right[0].divisionId == id then right[0].costForNumber
    else ChargeOf(right[1..], id)
  }

  /** Against a charge table with one row per division, a division that has a
      charge row meets exactly that row. */
  lemma {:induction false} MatchesOne(left: CallShare, right: seq<NumberCost>)
    requires StrictlyIncreasing(NumberCostIds(right))
    requires left.divisionId in NumberCostIds(right)
    ensures Matches(left, right)
            == [CallCost(left.divisionId, left.duration, left.costForCalls, ChargeOf(right, left.divisionId))]
  {
    assert right != [];
    assert NumberCostIds(right[1..]) == NumberCostIds(right)[1..];
    if right[0].divisionId == left.divisionId {
      MatchesNone(left, right[1..]);
    } else {
      MatchesOne(left, right[1..]);
    }
  }

  lemma {:induction false} MatchesNone(left: CallShare, right: seq<NumberCost>)
    requires left.divisionId !in NumberCostIds(right)
    ensures Matches(left, right) == []
  {
    if right != [] {
      assert NumberCostIds(right[1..]) == NumberCostIds(right)[1..];
      assert right[0].divisionId == NumberCostIds(right)[0];
      MatchesNone(left, right[1..]);
    }
  }

  /** When every left division has one charge row, the inner join drops no
      left row, keeps the left order and attaches each division's charge. */
  lemma {:induction false} MergeKeepsLeft(left: seq<CallShare>, right: seq<NumberCost>)
    requires StrictlyIncreasing(NumberCostIds(right))
    requires forall i :: 0 <= i < |left| ==> left[i].divisionId in NumberCostIds(right)
    ensures |MergeOnDivision(left, right)| == |left|
    ensures forall i :: 0 <= i < |left| ==>
              MergeOnDivision(left, right)[i]
              == CallCost(left[i].divisionId, left[i].duration, left[i].costForCalls, ChargeOf(right, left[i].divisionId))
  {
    if left != [] {
      MatchesOne(left[0], right);
      MergeKeepsLeft(left[1..], right);
    }
  }

  /** A division that has a row in the charge table is charged for its lines. */
  lemma {:induction false} ChargeOfRow(right: seq<NumberCost>, j: int)
    requires StrictlyIncreasing(NumberCostIds(right))
    requires 0 <= j < |right|
    ensures ChargeOf(right, right[j].divisionId) == right[j].costForNumber
  {
    if j > 0 {
      assert NumberCostIds(right)[0] < NumberCostIds(right)[j];
      assert NumberCostIds(right[1..]) == NumberCostIds(right)[1..];
      ChargeOfRow(right[1..], j - 1);
    }
  }

  lemma ChargeOfPhones(phones: seq<Phone>, costPerNumber: real, id: int)
    requires OwnsLine(phones, id)
    ensures ChargeOf(PhonesCostToDivision(phones, costPerNumber), id) == Scale(LineCount(phones, id), costPerNumber)
  {
    var right := PhonesCostToDivision(phones, costPerNumber);
    var ids := NumberCostIds(right);
    assert id in ids;
    var j :| 0 <= j < |ids| && ids[j] == id;
    assert right[j].divisionId == id;
    ChargeOfRow(right, j);
    assert right[j].costForNumber == Scale(LineCount(phones, id), costPerNumber);
  }

  function CallCostIds(rows: seq<CallCost>): (r: seq<int>)
    ensures |r| == |rows|
    ensures forall i :: 0 <= i < |rows| ==> r[i] == rows[i].id
  {
    seq(|rows|, i requires 0 <= i < |rows| => rows[i].id)
  }

  function CallCostDurations(rows: seq<CallCost>): (r: seq<nat>)
    ensures |r| == |rows|
    ensures forall i :: 0 <= i < |rows| ==> r[i] == rows[i].duration
  {
    seq(|rows|, i requires 0 <= i < |rows| => rows[i].duration)
  }

  function CallCostCharges(rows: seq<CallCost>): (r: seq<real>)
    ensures |r| == |rows|
    ensures forall i :: 0 <= i < |rows| ==> r[i] == rows[i].costForNumbers
  {
    seq(|rows|, i requires 0 <= i < |rows| => rows[i].costForNumbers)
  }

  function CallCostCells(rows: seq<CallCost>): (r: seq<Amount>)
    ensures |r| == |rows|
    ensures forall i :: 0 <= i < |rows| ==> r[i] == rows[i].costForCalls
  {
    seq(|rows|, i requires 0 <= i < |rows| => rows[i].costForCalls)
  }

  /** The matched call records of the window: the directory rows whose line
      made outgoing calls, with those calls' summed seconds. */
  function Matching(phones: seq<Phone>, calls: seq<CallRecord>, start: int, end: int): seq<Keyed>
  {
    PhoneDivision(phones, OutgoingInPeriod(calls, start, end))
  }

  /** The shape of the result: `calculate_expenses_by_numbers` is
      `division_duration` (one row per division by ascending id, with its
      seconds and call cost) with each division's line charge attached. */
  lemma ExpensesByNumbersShape(phones: seq<Phone>, calls: seq<CallRecord>, numberCost: real,
                               start: int, end: int, conversationCost: real)
    ensures var pd := Matching(phones, calls, start, end);
            var out := ExpensesByNumbers(phones, calls, numberCost, start, end, conversationCost);
            && CallCostIds(out) == SortedKeys(pd)
            && CallCostDurations(out) == GroupTotals(SortedKeys(pd), pd)
            && CallCostCells(out) == PoolColumn(GroupTotals(SortedKeys(pd), pd), conversationCost)
            && forall i :: 0 <= i < |out| ==> out[i].costForNumbers == Scale(LineCount(phones, out[i].id), numberCost)
  {
    var outgoing := OutgoingInPeriod(calls, start, end);
    var pd := PhoneDivision(phones, outgoing);
    var left := DivisionDuration(pd, conversationCost);
    var right := PhonesCostToDivision(phones, numberCost);
    PhoneDivisionKeys(phones, outgoing);
    forall i | 0 <= i < |left| ensures left[i].divisionId in NumberCostIds(right) && OwnsLine(phones, left[i].divisionId) {
      assert HasKey(pd, SortedKeys(pd)[i]);
      var k :| 0 <= k < |phones| && phones[k].divisionId == left[i].divisionId && HasCalls(outgoing, phones[k].number);
    }
    MergeKeepsLeft(left, right);
    var out := MergeOnDivision(left, right);
    forall i | 0 <= i < |out| ensures out[i].costForNumbers == Scale(LineCount(phones, out[i].id), numberCost) {
      ChargeOfPhones(phones, numberCost, left[i].divisionId);
    }
  }

  /** Every matched second lands in exactly one division: the durations add
      up to the seconds of the kept calls on directory numbers, each counted
      once per directory row listing its number. */
  lemma ExpensesByNumbersSeconds(phones: seq<Phone>, calls: seq<CallRecord>, numberCost: real,
                                 start: int, end: int, conversationCost: real)
    ensures SumNat(CallCostDurations(ExpensesByNumbers(phones, calls, numberCost, start, end, conversationCost)))
            == Weights(Matching(phones, calls, start, end))
            == ListedSeconds(phones, OutgoingInPeriod(calls, start, end))
  {
    MatchedSeconds(phones, OutgoingInPeriod(calls, start, end));
    var pd := Matching(phones, calls, start, end);
    ExpensesByNumbersShape(phones, calls, numberCost, start, end, conversationCost);
    forall i | 0 <= i < |pd| ensures pd[i].key in SortedKeys(pd) {
      assert HasKey(pd, pd[i].key);
    }
    GroupTotalsReconcile(SortedKeys(pd), pd);
  }

  /** With some matched seconds, every division's call cost is finite and
      within half a hundredth of its exact share of the pool, the exact shares
      add up to the pool, and the rounded ones to the pool within half a
      hundredth per division. */
  lemma ExpensesByNumbersCalls(phones: seq<Phone>, calls: seq<CallRecord>, numberCost: real,
                               start: int, end: int, conversationCost: real, out: seq<CallCost>)
    requires out == ExpensesByNumbers(phones, calls, numberCost, start, end, conversationCost)
    requires Weights(Matching(phones, calls, start, end)) != 0
    ensures forall i :: 0 <= i < |out| ==> out[i].costForCalls.Finite?
    ensures forall i :: 0 <= i < |out| ==>
              -1.0 / 200.0 <= out[i].costForCalls.value
                             - Scale(out[i].duration, conversationCost / Weights(Matching(phones, calls, start, end)) as real)
                           <= 1.0 / 200.0
    ensures Sum(Shares(CallCostDurations(out), conversationCost / Weights(Matching(phones, calls, start, end)) as real))
            == conversationCost
    ensures -(|out| as real) / 200.0 <= Sum(Values(CallCostCells(out))) - conversationCost <= |out| as real / 200.0
  {
    var pd := Matching(phones, calls, start, end);
    ExpensesByNumbersShape(phones, calls, numberCost, start, end, conversationCost);
    ExpensesByNumbersSeconds(phones, calls, numberCost, start, end, conversationCost);
    var durations := CallCostDurations(out);
    PoolColumnReconciles(durations, conversationCost);
    SharesReconcile(durations, conversationCost);
    assert Values(CallCostCells(out)) == Values(PoolColumn(durations, conversationCost));
  }

  /** With no matched second, every call cost is infinite or NaN. */
  lemma ExpensesByNumbersNoSeconds(phones: seq<Phone>, calls: seq<CallRecord>, numberCost: real,
                                   start: int, end: int, conversationCost: real, out: seq<CallCost>)
    requires out == ExpensesByNumbers(phones, calls, numberCost, start, end, conversationCost)
    requires Weights(Matching(phones, calls, start, end)) == 0
    ensures forall i :: 0 <= i < |out| ==> out[i].costForCalls == NonFinite
  {
    ExpensesByNumbersShape(phones, calls, numberCost, start, end, conversationCost);
    ExpensesByNumbersSeconds(phones, calls, numberCost, start, end, conversationCost);
    PoolColumnDegenerate(CallCostDurations(out), conversationCost);
  }

  /** A division appears in the result exactly when it owns a line that made
      an outgoing call inside the window. */
  lemma ExpensesByNumbersDivisions(phones: seq<Phone>, calls: seq<CallRecord>, numberCost: real,
                                   start: int, end: int, conversationCost: real, out: seq<CallCost>)
    requires out == ExpensesByNumbers(phones, calls, numberCost, start, end, conversationCost)
    ensures StrictlyIncreasing(CallCostIds(out))
    ensures forall id :: id in CallCostIds(out) <==> Matched(phones, OutgoingInPeriod(calls, start, end), id)
  {
    ExpensesByNumbersShape(phones, calls, numberCost, start, end, conversationCost);
    PhoneDivisionKeys(phones, OutgoingInPeriod(calls, start, end));
  }

  lemma {:induction false} NumberSecondsAppend(a: seq<CallRecord>, b: seq<CallRecord>, number: string)
    ensures NumberSeconds(a + b, number) == NumberSeconds(a, number) + NumberSeconds(b, number)
  {
    if a == [] {
      assert a + b == b;
    } else {
      assert (a + b)[1..] == a[1..] + b;
      NumberSecondsAppend(a[1..], b, number);
    }
  }

  /** Appending calls made on lines outside the directory changes no
      directory row of the join. */
  lemma {:induction false} PhoneDivisionIgnores(phones: seq<Phone>, a: seq<CallRecord>, b: seq<CallRecord>)
    requires forall k, p :: 0 <= k < |b| && p in phones ==> b[k].number != p.number
    ensures PhoneDivision(phones, a + b) == PhoneDivision(phones, a)
  {
    if phones != [] {
      var n := phones[0].number;
      assert !HasCalls(b, n) by {
        assert phones[0] in phones;
      }
      assert HasCalls(a + b, n) <==> HasCalls(a, n) by {
        if HasCalls(a + b, n) {
          var i :| 0 <= i < |a + b| && (a + b)[i].number == n;
          assert i < |a|;
          assert a[i].number == n;
        }
        if HasCalls(a, n) {
          var i :| 0 <= i < |a| && a[i].number == n;
          assert (a + b)[i].number == n;
        }
      }
      assert NumberSeconds(a + b, n) == NumberSeconds(a, n) by {
        NumberSecondsAppend(a, b, n);
      }
      PhoneDivisionIgnores(phones[1..], a, b);
    }
  }

  /** Calls made on numbers absent from the directory contribute nothing:
      appending them to the call history leaves the result unchanged. */
  lemma UnknownNumbersIgnored(phones: seq<Phone>, calls: seq<CallRecord>, extra: seq<CallRecord>,
                              numberCost: real, start: int, end: int, conversationCost: real)
    requires forall c, p :: c in extra && p in phones ==> c.number != p.number
    ensures ExpensesByNumbers(phones, calls + extra, numberCost, start, end, conversationCost)
            == ExpensesByNumbers(phones, calls, numberCost, start, end, conversationCost)
  {
    FiltersAppend(calls, extra, start, end);
    var more := OutgoingInPeriod(extra, start, end);
    forall k, p | 0 <= k < |more| && p in phones ensures more[k].number != p.number {
      assert more[k] in extra;
    }
    PhoneDivisionIgnores(phones, OutgoingInPeriod(calls, start, end), more);
  }
}
