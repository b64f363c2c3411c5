/** The dashboard's two averages over the delay analysis. Neither guards its division, so
    each is NaN when it averages nothing; NaN is `None` here. */
module Dashboard {
  import opened Wrappers
  import opened Seqs
  import opened MockData

  function QuoteDays(d: DelayEntry): int { d.daysToQuote }

  /** `item.daysToDeliver` is truthy: present and not 0. */
  predicate HasDeliveryTime(d: DelayEntry)
  {
    d.daysToDeliver.Some? && d.daysToDeliver.value != 0
  }

  function DeliveryDays(d: DelayEntry): int { d.daysToDeliver.GetOr(0) }

  /** `avgQuoteTime`: the mean quote time over every entry. */
  function AvgQuoteTime(delays: seq<DelayEntry>): (avg: Option<real>)
    ensures avg.None? <==> delays == []
    ensures avg.Some? ==> avg.value * |delays| as real == Sum(delays, QuoteDays) as real
  {
    if delays == [] then None
    else Some(Sum(delays, QuoteDays) as real / |delays| as real)
  }

  /** `avgDeliveryTime`: the mean over the entries with a truthy delivery time only, so a
      missing time and a 0-day time are left out of both the sum and the count. */
  function AvgDeliveryTime(delays: seq<DelayEntry>): (avg: Option<real>)
    ensures var timed := Filter(delays, HasDeliveryTime);
      && (avg.None? <==> timed == [])
      && (avg.Some? ==> avg.value * |timed| as real == Sum(timed, DeliveryDays) as real)
  {
    var timed := Filter(delays, HasDeliveryTime);
    if timed == [] then None
    else Some(Sum(timed, DeliveryDays) as real / |timed| as real)
  }

  /** Entries without a truthy delivery time do not change the delivery average. */
  lemma UntimedEntriesIgnored(delays: seq<DelayEntry>, d: DelayEntry)
    requires !HasDeliveryTime(d)
    ensures AvgDeliveryTime([d] + delays) == AvgDeliveryTime(delays)
  {
    FilterCons(d, delays, HasDeliveryTime);
  }

  const Entry001 := DelayEntry("RFP001", "ABC Corp", 2, Some(6), Fulfilled)
  const Entry003 := DelayEntry("RFP003", "Tech Solutions", 2, None, InProduction)
  const Entry004 := DelayEntry("RFP004", "Global Manufacturing", 2, Some(7), Delivered)
  const Entry005 := DelayEntry("RFP005", "Innovation Labs", 2, None, OrderPending)
  const Entry006 := DelayEntry("RFP006", "MegaCorp Industries", 2, Some(7), Fulfilled)
  const Entry008 := DelayEntry("RFP008", "Precision Parts Co", 2, None, InProduction)

  /** The sample's delay entries, as the delay analysis gives them. */
  lemma SampleEntries()
    ensures GetDelayAnalysis(MockRfps) == SampleEntryList
  {
    SampleDelays();
  }

  const SampleEntryList := [Entry001, Entry003, Entry004, Entry005, Entry006, Entry008]

  /** The sample's entries take 2 days each to quote. */
  lemma SampleQuoteDays()
    ensures Sum(SampleEntryList, QuoteDays) == 12
  {
    SumCons(Entry008, [], QuoteDays);
    SumCons(Entry006, [Entry008], QuoteDays);
    SumCons(Entry005, [Entry006, Entry008], QuoteDays);
    SumCons(Entry004, [Entry005, Entry006, Entry008], QuoteDays);
    SumCons(Entry003, [Entry004, Entry005, Entry006, Entry008], QuoteDays);
    SumCons(Entry001, [Entry003, Entry004, Entry005, Entry006, Entry008], QuoteDays);
  }

  /** On the sample the dashboard shows a 2-day average quote time. */
  lemma SampleAvgQuoteTime()
    ensures AvgQuoteTime(GetDelayAnalysis(MockRfps)) == Some(2.0)
  {
    SampleEntries();
    SampleQuoteDays();
    assert AvgQuoteTime(SampleEntryList) == Some(2.0);
  }

  /** The sample's entries with a delivery time are those of RFP001, RFP004 and RFP006,
      which took 6, 7 and 7 days. */
  lemma SampleTimedEntries()
    ensures Filter(SampleEntryList, HasDeliveryTime) == [Entry001, Entry004, Entry006]
    ensures Sum([Entry001, Entry004, Entry006], DeliveryDays) == 20
  {
    FilterCons(Entry008, [], HasDeliveryTime);
    FilterCons(Entry006, [Entry008], HasDeliveryTime);
    FilterCons(Entry005, [Entry006, Entry008], HasDeliveryTime);
    FilterCons(Entry004, [Entry005, Entry006, Entry008], HasDeliveryTime);
    FilterCons(Entry003, [Entry004, Entry005, Entry006, Entry008], HasDeliveryTime);
    FilterCons(Entry001, [Entry003, Entry004, Entry005, Entry006, Entry008], HasDeliveryTime);
    SumCons(Entry006, [], DeliveryDays);
    SumCons(Entry004, [Entry006], DeliveryDays);
    SumCons(Entry001, [Entry004, Entry006], DeliveryDays);
  }

  /** On the sample the dashboard shows a 20/3-day average delivery time (6.7 when printed
      to one decimal). */
  lemma SampleAvgDeliveryTime()
    ensures AvgDeliveryTime(GetDelayAnalysis(MockRfps)) == Some(20.0 / 3.0)
  {
    SampleEntries();
    SampleTimedEntries();
    assert AvgDeliveryTime(SampleEntryList) == Some(20.0 / 3.0);
  }
}
