/**
 * The call ledger of main.py: one record per call, the date window filter and
 * the outgoing-call filter applied before call time is costed.
 */
module Ledger {
  import opened Text
  import opened Tables

  /** One row of the call-history table after column renaming: `date` is the
      call's timestamp in seconds, `kind` the traffic type, `number` the
      organisation's line, `duration` the length in seconds, `caller` the other
      side and `region` that side's region. */
  datatype CallRecord = CallRecord(date: int, kind: string, number: string, duration: nat,
                                   caller: string, region: string)

  /** 23:59:59 in seconds: the end bound of the window covers its whole last day. */
  const EndOfDay: int := 23 * 3600 + 59 * 60 + 59

  const SecondsPerDay: int := 24 * 3600

  /** The marker every outgoing traffic type contains. */
  const OutgoingMarker: string := "Исходящие"

  /** The traffic types the call-history export uses. */
  const IncomingCalls: string := "Входящие телефонные звонки"
  const OutgoingLocalCalls: string := "Исходящие местные телефонные звонки"
  const OutgoingCalls: string := "Исходящие телефонные звонки"

  /** The window closes the second before the midnight after its last day. */
  predicate InPeriod(c: CallRecord, start: int, end: int)
    ensures InPeriod(c, start, end) <==> start <= c.date < end + SecondsPerDay
  {
    start <= c.date <= end + EndOfDay
  }

  predicate IsOutgoing(c: CallRecord)
  {
    Contains(c.kind, OutgoingMarker)
  }

  /** `filter_by_date`: the records dated from `start` up to the last second of
      the day that begins at `end`. */
  function FilterByDate(calls: seq<CallRecord>, start: int, end: int): (r: seq<CallRecord>)
    ensures forall c :: c in r <==> c in calls && start <= c.date <= end + EndOfDay
  {
    Filter(calls, c => InPeriod(c, start, end))
  }

  /** `filter_outcome_calls`: the records whose traffic type contains the
      outgoing marker. */
  function FilterOutcomeCalls(calls: seq<CallRecord>): (r: seq<CallRecord>)
    ensures forall c :: c in r <==> c in calls && Contains(c.kind, OutgoingMarker)
  {
    Filter(calls, IsOutgoing)
  }

  /** The date filter keeps exactly the in-window records, each as often as it
      occurs, in the ledger's order. */
  lemma FilterByDateExact(calls: seq<CallRecord>, start: int, end: int)
    ensures IsSubsequence(FilterByDate(calls, start, end), calls)
    ensures forall c :: multiset(FilterByDate(calls, start, end))[c]
                        == if start <= c.date <= end + EndOfDay then multiset(calls)[c] else 0
  {
    FilterIsSubsequence(calls, c => InPeriod(c, start, end));
    FilterCounts(calls, c => InPeriod(c, start, end));
  }

  /** The outgoing filter keeps exactly the outgoing records, each as often as
      it occurs, in the ledger's order. */
  lemma FilterOutcomeCallsExact(calls: seq<CallRecord>)
    ensures IsSubsequence(FilterOutcomeCalls(calls), calls)
    ensures forall c :: multiset(FilterOutcomeCalls(calls))[c]
                        == if Contains(c.kind, OutgoingMarker) then multiset(calls)[c] else 0
  {
    FilterIsSubsequence(calls, IsOutgoing);
    FilterCounts(calls, IsOutgoing);
  }

  /** With `end` the midnight that starts the last day, a call at 23:59:59 of
      that day is kept and a call at 00:00:00 of the next day is dropped. */
  lemma LastDayBoundary(start: int, end: int, last: CallRecord, next: CallRecord)
    requires start <= end
    requires last.date == end + EndOfDay && next.date == end + SecondsPerDay
    ensures FilterByDate([last, next], start, end) == [last]
  {
    var keep := c => InPeriod(c, start, end);
    assert [last, next][1..] == [next];
    assert [next][1..] == [];
    assert !keep(next) && Filter([next], keep) == [];
    assert keep(last) && Filter([last, next], keep) == [last] + Filter([next], keep);
  }

  /** Both outgoing traffic types pass the outgoing filter; incoming calls do not. */
  lemma TrafficTypes()
    ensures Contains(OutgoingLocalCalls, OutgoingMarker)
    ensures Contains(OutgoingCalls, OutgoingMarker)
    ensures !Contains(IncomingCalls, OutgoingMarker)
  {
    assert StartsWith(OutgoingLocalCalls, OutgoingMarker);
    assert StartsWith(OutgoingCalls, OutgoingMarker);
    MissingFirstChar(IncomingCalls, OutgoingMarker);
  }

  /** Both filters distribute over concatenated ledgers. */
  lemma FiltersAppend(a: seq<CallRecord>, b: seq<CallRecord>, start: int, end: int)
    ensures FilterOutcomeCalls(FilterByDate(a + b, start, end))
         == FilterOutcomeCalls(FilterByDate(a, start, end)) + FilterOutcomeCalls(FilterByDate(b, start, end))
  {
    FilterAppend(a, b, c => InPeriod(c, start, end));
    FilterAppend(FilterByDate(a, start, end), FilterByDate(b, start, end), IsOutgoing);
  }
}
