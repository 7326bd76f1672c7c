/**
 * The invoice classifier of the desktop front end: the provider's invoice,
 * already split into (service, printed amount) lines, is folded into
 * the four pools the allocation engine splits: the department pool, the
 * employee pool, the subscription fee and the call-time pool.
 */
module Invoice {
  import opened Wrappers
  import opened Money
  import opened Text

  /** One invoice line: the service and its amount as printed. */
  datatype InvoiceRow = InvoiceRow(service: string, value: string)

  /** The four accumulators of the classifier. */
  datatype Pools = Pools(divisions: real, personal: real, subscription: real, minutes: real)

  /** The pool each accumulator stands for. */
  datatype Pool = DivisionsPool | PersonalPool | SubscriptionPool | MinutesPool

  const AdditionalUserGroup: string := "Дополнительная группа пользователей"
  const AdditionalExtensions: string := "Дополнительные внутренние номера"
  const UnlimitedRecording: string := "Безлимитная запись"
  const PbxPro: string := "ОАТС Про"
  const CrmIntegration: string := "Интеграция с CRM"
  const CallDistribution: string := "Алгоритм распред"
  const Minutes: string := "Минут"
  const DataConnections: string := "Соединения по сети передачи данных"

  /** Every accumulator starts at zero. */
  const NoPools: Pools := Pools(0.0, 0.0, 0.0, 0.0)

  predicate Subscribed(service: string)
  {
    Contains(service, UnlimitedRecording) || Contains(service, PbxPro)
    || Contains(service, CrmIntegration) || Contains(service, CallDistribution)
  }

  predicate Metered(service: string)
  {
    Contains(service, Minutes) || Contains(service, DataConnections)
  }

  /** Whether a line with this service is added to `pool`. */
  predicate Feeds(service: string, pool: Pool)
  {
    match pool
    case DivisionsPool => Contains(service, AdditionalUserGroup)
    case PersonalPool => Contains(service, AdditionalExtensions)
    case SubscriptionPool => Subscribed(service)
    case MinutesPool => Metered(service)
  }

  /** The line feeds at least one pool, so its amount is converted. */
  predicate Billed(service: string)
  {
    Feeds(service, DivisionsPool) || Feeds(service, PersonalPool) || Feeds(service, SubscriptionPool) || Feeds(service, MinutesPool)
  }

  function Get(p: Pools, pool: Pool): real
  {
    match pool
    case DivisionsPool => p.divisions
    case PersonalPool => p.personal
    case SubscriptionPool => p.subscription
    case MinutesPool => p.minutes
  }

  /** `float(value)` after the commas became points and the spaces were deleted. */
  function Amount(row: InvoiceRow): (r: Option<real>)
    ensures r.Some? ==> exists i :: 0 <= i < |row.value| && IsDigit(row.value[i])
  {
    NormalizedDigits(row.value);
    ParseDecimal(NormalizeValue(row.value))
  }

  /** One pass of the loop body: a billed line whose amount cannot be read
      raises, naming the amount as normalised; otherwise every pool the
      service feeds grows by the amount, each test on its own. */
  function Classify(p: Pools, row: InvoiceRow): (r: Result<Pools, string>)
    ensures r.Failure? <==> Billed(row.service) && Amount(row).None?
    ensures r.Failure? ==> r.error == NormalizeValue(row.value)
    ensures r.Success? ==> forall pool :: Get(r.value, pool)
                                          == Get(p, pool) + if Feeds(row.service, pool) then Amount(row).value else 0.0
  {
    if !Billed(row.service) then Success(p)
    else
      match Amount(row)
      case None => Failure(NormalizeValue(row.value))
      case Some(v) => CreditGet(p, row.service, v); Success(Credit(p, row.service, v))
  }

  /** Every pool the service feeds grows by `v`. */
  function Credit(p: Pools, service: string, v: real): Pools
  {
    Pools(p.divisions + (if Feeds(service, DivisionsPool) then v else 0.0),
          p.personal + (if Feeds(service, PersonalPool) then v else 0.0),
          p.subscription + (if Feeds(service, SubscriptionPool) then v else 0.0),
          p.minutes + (if Feeds(service, MinutesPool) then v else 0.0))
  }

  lemma CreditGet(p: Pools, service: string, v: real)
    ensures forall pool :: Get(Credit(p, service, v), pool) == Get(p, pool) + if Feeds(service, pool) then v else 0.0
  {
  }

  lemma ClassifyCredit(p: Pools, row: InvoiceRow, v: real)
    requires Billed(row.service) ==> Amount(row) == Some(v)
    ensures Classify(p, row) == Success(Credit(p, row.service, v))
  {
  }

  /** The accumulators after the lines, in order; the first billed line with an
      unreadable amount stops the fold with that amount. */
  function Totals(rows: seq<InvoiceRow>): (r: Result<Pools, string>)
    ensures r.Failure? ==> exists i :: 0 <= i < |rows| && Billed(rows[i].service) && Amount(rows[i]).None?
                                       && r.error == NormalizeValue(rows[i].value)
  {
    if rows == [] then Success(NoPools)
    else
      match Totals(rows[..|rows| - 1])
      case Failure(e) =>
        assert forall i :: 0 <= i < |rows| - 1 ==> rows[..|rows| - 1][i] == rows[i];
        Failure(e)
      case Success(p) => Classify(p, rows[|rows| - 1])
  }

  /** Every billed line has a readable amount. */
  predicate Readable(rows: seq<InvoiceRow>)
  {
    forall i :: 0 <= i < |rows| && Billed(rows[i].service) ==> Amount(rows[i]).Some?
  }

  /** The reference definition of one pool: the sum of the amounts of the lines
      that feed it, independent of every other pool. */
  function PoolSum(rows: seq<InvoiceRow>, pool: Pool): real
    requires Readable(rows)
  {
    if rows == [] then 0.0
    else
      var last := rows[|rows| - 1];
      PoolSum(rows[..|rows| - 1], pool) + if Feeds(last.service, pool) then Amount(last).value else 0.0
  }

  /** The classifier succeeds exactly when every billed line is readable, and
      then each pool is the sum of the amounts of the lines that feed it. */
  lemma {:induction false} TotalsAsSums(rows: seq<InvoiceRow>)
    ensures Totals(rows).Success? <==> Readable(rows)
    ensures Totals(rows).Success? ==> forall pool :: Get(Totals(rows).value, pool) == PoolSum(rows, pool)
  {
    if rows != [] {
      var init := rows[..|rows| - 1];
      TotalsAsSums(init);
      assert forall i :: 0 <= i < |init| ==> init[i] == rows[i];
      if Readable(rows) {
        assert Readable(init);
      } else if Readable(init) {
        var i :| 0 <= i < |rows| && Billed(rows[i].service) && Amount(rows[i]).None?;
        assert i == |rows| - 1;
      }
    }
  }

  lemma {:induction false} PoolSumAppend(a: seq<InvoiceRow>, b: seq<InvoiceRow>, pool: Pool)
    requires Readable(a) && Readable(b)
    ensures Readable(a + b)
    ensures PoolSum(a + b, pool) == PoolSum(a, pool) + PoolSum(b, pool)
  {
    assert Readable(a + b) by {
      forall i | 0 <= i < |a + b| && Billed((a + b)[i].service) ensures Amount((a + b)[i]).Some? {
        if i < |a| {
          assert (a + b)[i] == a[i];
        } else {
          assert (a + b)[i] == b[i - |a|];
        }
      }
    }
    if b != [] {
      var init := b[..|b| - 1];
      assert Readable(init) by {
        forall i | 0 <= i < |init| && Billed(init[i].service) ensures Amount(init[i]).Some? {
          assert init[i] == b[i];
        }
      }
      assert (a + b)[..|a + b| - 1] == a + init;
      assert (a + b)[|a + b| - 1] == b[|b| - 1];
      PoolSumAppend(a, init, pool);
    } else {
      assert a + b == a;
    }
  }

  /** The order of the invoice does not matter: two halves read in either order
      give the same verdict and the same pools. */
  lemma TotalsSwap(a: seq<InvoiceRow>, b: seq<InvoiceRow>)
    ensures Totals(a + b).Success? <==> Totals(b + a).Success?
    ensures Totals(a + b).Success? ==> Totals(a + b).value == Totals(b + a).value
  {
    TotalsAsSums(a + b);
    TotalsAsSums(b + a);
    assert forall i :: 0 <= i < |a + b| ==> (a + b)[i] == if i < |a| then a[i] else b[i - |a|];
    assert forall i :: 0 <= i < |b + a| ==> (b + a)[i] == if i < |b| then b[i] else a[i - |b|];
    if Readable(a + b) {
      assert Readable(a) && Readable(b) by {
        forall i | 0 <= i < |a| ensures (a + b)[i] == a[i] { }
        forall i | 0 <= i < |b| ensures (a + b)[|a| + i] == b[i] { }
      }
      var p := Totals(a + b).value;
      var q := Totals(b + a).value;
      forall pool ensures Get(p, pool) == Get(q, pool) {
        PoolSumAppend(a, b, pool);
        PoolSumAppend(b, a, pool);
      }
      assert Get(p, DivisionsPool) == Get(q, DivisionsPool) && Get(p, PersonalPool) == Get(q, PersonalPool);
      assert Get(p, SubscriptionPool) == Get(q, SubscriptionPool) && Get(p, MinutesPool) == Get(q, MinutesPool);
    } else {
      assert !Readable(b + a) by {
        var i :| 0 <= i < |a + b| && Billed((a + b)[i].service) && Amount((a + b)[i]).None?;
        if i < |a| {
          assert (b + a)[|b| + i] == (a + b)[i];
        } else {
          assert (b + a)[i - |a|] == (a + b)[i];
        }
      }
    }
  }

  /** A line that feeds no pool leaves every pool unchanged, whatever its amount. */
  lemma UnbilledLine(rows: seq<InvoiceRow>, row: InvoiceRow)
    requires !Billed(row.service)
    ensures Totals(rows + [row]) == Totals(rows)
  {
    assert (rows + [row])[..|rows + [row]| - 1] == rows;
  }

  /** A line naming several subscription services is still added to the
      subscription pool only once. */
  lemma SubscriptionAddedOnce(p: Pools, row: InvoiceRow, v: real)
    requires Contains(row.service, PbxPro) && Contains(row.service, UnlimitedRecording)
    requires Amount(row) == Some(v)
    ensures Classify(p, row).Success?
    ensures Classify(p, row).value.subscription == p.subscription + v
  {
    assert Feeds(row.service, SubscriptionPool);
  }

  /** The group tests are independent: a line whose service names both a
      user group and minutes feeds both pools with its whole amount. */
  lemma IndependentGroups(p: Pools, row: InvoiceRow, v: real)
    requires Contains(row.service, AdditionalUserGroup) && Contains(row.service, Minutes)
    requires Amount(row) == Some(v)
    ensures Classify(p, row).Success?
    ensures Classify(p, row).value.divisions == p.divisions + v
    ensures Classify(p, row).value.minutes == p.minutes + v
  {
    assert Feeds(row.service, DivisionsPool) && Feeds(row.service, MinutesPool);
  }

  lemma NormalizeGrouped()
    ensures NormalizeValue("1 234,56") == "1234.56"
  {
    ReplaceGrouped();
    DeleteGrouped();
  }

  lemma ReplaceGrouped()
    ensures Replace("1 234,56", ',', '.') == "1 234.56"
  {
  }

  lemma {:induction false} DeleteGrouped()
    ensures Delete("1 234.56", ' ') == "1234.56"
  {
    var a, b := "1 ", "234.56";
    assert Delete(b, ' ') == b by {
      assert ',' !in b && ' ' !in b by {
        forall i | 0 <= i < |b| ensures b[i] != ',' && b[i] != ' ' {
        }
      }
      NoChangeWithout(b);
    }
    assert Delete(a, ' ') == "1" by {
      DeleteHead();
    }
    assert Delete(a + b, ' ') == Delete(a, ' ') + Delete(b, ' ') by {
      DeleteAppend(a, b, ' ');
    }
    assert a + b == "1 234.56";
    assert "1" + b == "1234.56";
  }

  lemma DeleteHead()
    ensures Delete("1 ", ' ') == "1"
  {
  }

  lemma ParseGrouped()
    ensures ParseDecimal("1234.56") == Some(1234.56)
  {
    assert NatDigits(1) == "1";
    assert NatDigits(12) == "12";
    assert NatDigits(123) == "123";
    assert NatDigits(1234) == "1234";
    assert ShowAmount(1234, 56) == "1234.56";
    ParseShowAmount(1234, 56);
  }

  /** An amount printed with a digit-group space and a decimal comma,
      "1 234,56", is read as 1234.56. */
  lemma GroupedAmount(service: string)
    ensures Amount(InvoiceRow(service, "1 234,56")) == Some(1234.56)
  {
    NormalizeGrouped();
    ParseGrouped();
  }

  /** The loop of the classifier: four accumulators start at zero and every
      line goes through the body in turn; the first line that raises ends it. */
  method SumInvoice(table: seq<InvoiceRow>) returns (r: Result<Pools, string>)
    ensures r == Totals(table)
  {
    var pools := NoPools;
    var i := 0;
    while i < |table|
      invariant 0 <= i <= |table|
      invariant Totals(table[..i]) == Success(pools)
    {
      assert table[..i + 1][..i] == table[..i];
      var next := ClassifyRow(pools, table[i]);
      if next.Failure? {
        TotalsStop(table, i + 1);
        return next;
      }
      pools := next.value;
      i := i + 1;
    }
    assert table[..|table|] == table;
    return Success(pools);
  }

  /** The loop body: the line is matched against each group in turn, and its
      amount is converted at each test it passes. */
  method ClassifyRow(p: Pools, row: InvoiceRow) returns (r: Result<Pools, string>)
    ensures r == Classify(p, row)
  {
    var divisionsCost, personalCost, subscriptionCost, minutesCost := p.divisions, p.personal, p.subscription, p.minutes;
    ghost var v := if Amount(row).Some? then Amount(row).value else 0.0;
    var value := NormalizeValue(row.value);
    if Contains(row.service, AdditionalUserGroup) {
      var parsed := ParseDecimal(value);
      if parsed.None? {
        ClassifyUnreadable(p, row);
        return Failure(value);
      }
      divisionsCost := divisionsCost + parsed.value;
    }
    assert divisionsCost == p.divisions + if Feeds(row.service, DivisionsPool) then v else 0.0;
    if Contains(row.service, AdditionalExtensions) {
      var parsed := ParseDecimal(value);
      if parsed.None? {
        ClassifyUnreadable(p, row);
        return Failure(value);
      }
      personalCost := personalCost + parsed.value;
    }
    assert personalCost == p.personal + if Feeds(row.service, PersonalPool) then v else 0.0;
    if Contains(row.service, UnlimitedRecording) || Contains(row.service, PbxPro)
       || Contains(row.service, CrmIntegration) || Contains(row.service, CallDistribution) {
      var parsed := ParseDecimal(value);
      if parsed.None? {
        ClassifyUnreadable(p, row);
        return Failure(value);
      }
      subscriptionCost := subscriptionCost + parsed.value;
    }
    assert subscriptionCost == p.subscription + if Feeds(row.service, SubscriptionPool) then v else 0.0;
    if Contains(row.service, Minutes) || Contains(row.service, DataConnections) {
      var parsed := ParseDecimal(value);
      if parsed.None? {
        ClassifyUnreadable(p, row);
        return Failure(value);
      }
      minutesCost := minutesCost + parsed.value;
    }
    assert minutesCost == p.minutes + if Feeds(row.service, MinutesPool) then v else 0.0;
    CreditParts(p, row.service, v, divisionsCost, personalCost, subscriptionCost, minutesCost);
    assert Classify(p, row) == Success(Credit(p, row.service, v)) by {
      ClassifyCredit(p, row, v);
    }
    return Success(Pools(divisionsCost, personalCost, subscriptionCost, minutesCost));
  }

  /** Four accumulators that each grew by `v` exactly when the service feeds
      their pool are the credited pools. */
  lemma CreditParts(p: Pools, service: string, v: real, divisions: real, personal: real, subscription: real, minutes: real)
    requires divisions == p.divisions + if Feeds(service, DivisionsPool) then v else 0.0
    requires personal == p.personal + if Feeds(service, PersonalPool) then v else 0.0
    requires subscription == p.subscription + if Feeds(service, SubscriptionPool) then v else 0.0
    requires minutes == p.minutes + if Feeds(service, MinutesPool) then v else 0.0
    ensures Pools(divisions, personal, subscription, minutes) == Credit(p, service, v)
  {
  }

  lemma {:induction false} ClassifyUnreadable(p: Pools, row: InvoiceRow)
    requires Billed(row.service) && Amount(row).None?
    ensures Classify(p, row) == Failure(NormalizeValue(row.value))
  {
  }

  /** A failed fold stays failed over one more line. */
  lemma TotalsFailed(rows: seq<InvoiceRow>)
    requires rows != [] && Totals(rows[..|rows| - 1]).Failure?
    ensures Totals(rows) == Totals(rows[..|rows| - 1])
  {
  }

  /** Once a prefix has stopped the fold, the rest of the invoice is not read. */
  lemma {:induction false} TotalsStop(rows: seq<InvoiceRow>, k: nat)
    requires k <= |rows| && Totals(rows[..k]).Failure?
    ensures Totals(rows) == Totals(rows[..k])
    decreases |rows|
  {
    if k < |rows| {
      var init := rows[..|rows| - 1];
      assert init[..k] == rows[..k];
      TotalsStop(init, k);
      TotalsFailed(rows);
    } else {
      assert rows[..k] == rows;
    }
  }
}
