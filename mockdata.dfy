/** The RFP record, the eight-record sample collection, and the aggregations every page
    derives from it: headline metrics, the four-stage funnel, the per-team rollup and the
    quote/delivery delay analysis. Each aggregation is a function of the collection. */
module MockData {
  import opened Wrappers
  import opened Calendar
  import opened Seqs
  import Numeric

  datatype Status = QuotationPending | OrderPending | InProduction | Delivered | Fulfilled | Cancelled

  /** The status text the records carry. */
  function StatusName(s: Status): string
  {
    match s
    case QuotationPending => "Quotation Pending"
    case OrderPending => "Order Pending"
    case InProduction => "In Production"
    case Delivered => "Delivered"
    case Fulfilled => "Fulfilled"
    case Cancelled => "Cancelled"
  }

  /** Distinct statuses have distinct names, so a status filter selects one status. */
  lemma StatusNameInjective(s: Status, t: Status)
    requires StatusName(s) == StatusName(t)
    ensures s == t
  {
  }

  datatype RFP = RFP(
    id: string,
    clientName: string,
    productType: string,
    submissionDate: CalendarDate,
    quotationDate: Option<CalendarDate>,
    orderDate: Option<CalendarDate>,
    deliveryDate: Option<CalendarDate>,
    status: Status,
    value: Option<int>,
    assignedTo: string)

  /** `rfp.value || 0`. */
  function ValueOrZero(r: RFP): int
  {
    r.value.GetOr(0)
  }

  predicate HasQuotation(r: RFP) { r.quotationDate.Some? }
  predicate HasOrder(r: RFP) { r.orderDate.Some? }
  predicate IsDeliveredOrFulfilled(r: RFP) { r.status == Delivered || r.status == Fulfilled }

  const Rfp001 := RFP("RFP001", "ABC Corp", "Gears", Date(2024, 10, 1), Some(Date(2024, 10, 3)),
    Some(Date(2024, 10, 6)), Some(Date(2024, 10, 12)), Fulfilled, Some(15000), "Sales_A")
  const Rfp002 := RFP("RFP002", "Delta Inc", "Bearings", Date(2024, 10, 2), None, None, None,
    QuotationPending, None, "Sales_B")
  const Rfp003 := RFP("RFP003", "Tech Solutions", "Motors", Date(2024, 9, 28), Some(Date(2024, 9, 30)),
    Some(Date(2024, 10, 4)), None, InProduction, Some(25000), "Sales_A")
  const Rfp004 := RFP("RFP004", "Global Manufacturing", "Pumps", Date(2024, 9, 25), Some(Date(2024, 9, 27)),
    Some(Date(2024, 10, 1)), Some(Date(2024, 10, 8)), Delivered, Some(35000), "Sales_C")
  const Rfp005 := RFP("RFP005", "Innovation Labs", "Sensors", Date(2024, 10, 5), Some(Date(2024, 10, 7)), None, None,
    OrderPending, Some(8000), "Sales_B")
  const Rfp006 := RFP("RFP006", "MegaCorp Industries", "Valves", Date(2024, 9, 20), Some(Date(2024, 9, 22)),
    Some(Date(2024, 9, 26)), Some(Date(2024, 10, 3)), Fulfilled, Some(42000), "Sales_A")
  const Rfp007 := RFP("RFP007", "Smart Systems", "Controllers", Date(2024, 10, 8), None, None, None,
    QuotationPending, None, "Sales_C")
  const Rfp008 := RFP("RFP008", "Precision Parts Co", "Gears", Date(2024, 9, 30), Some(Date(2024, 10, 2)),
    Some(Date(2024, 10, 5)), None, InProduction, Some(18000), "Sales_B")

  /** The sample collection every page reads. */
  const MockRfps: seq<RFP> := [Rfp001, Rfp002, Rfp003, Rfp004, Rfp005, Rfp006, Rfp007, Rfp008]

  /** The rate every view shows: 0 for no records, else `Math.round(part / whole * 100)`. */
  function ConversionRate(part: nat, whole: nat): (rate: int)
    requires part <= whole
    ensures 0 <= rate <= 100
    ensures whole == 0 ==> rate == 0
    ensures part == 0 ==> rate == 0
    ensures 0 < part == whole ==> rate == 100
  {
    if whole > 0 then
      Numeric.RoundPercentBounds(part, whole);
      Numeric.RoundPercent(part, whole)
    else 0
  }

  /** A non-zero rate is `part / whole * 100` rounded to the nearest integer, halves up. */
  lemma ConversionRateIsRounded(part: nat, whole: nat)
    requires part <= whole && whole > 0
    ensures var rate := ConversionRate(part, whole);
      2 * whole * rate <= 200 * part + whole < 2 * whole * (rate + 1)
  {
    Numeric.RoundDivSpec(100 * part, whole);
  }

  datatype Metrics = Metrics(
    totalRfps: nat,
    quotationsPending: nat,
    ordersReceived: nat,
    delivered: nat,
    totalValue: int,
    conversionRate: int)

  /** `getMetrics`. */
  function GetMetrics(rfps: seq<RFP>): (m: Metrics)
    ensures m.totalRfps == |rfps|
    ensures m.quotationsPending == |Filter(rfps, (r: RFP) => r.status == QuotationPending)|
    ensures m.ordersReceived == |Filter(rfps, HasOrder)|
    ensures m.delivered == |Filter(rfps, IsDeliveredOrFulfilled)|
    ensures m.totalValue == Sum(rfps, ValueOrZero)
    ensures m.quotationsPending <= m.totalRfps && m.ordersReceived <= m.totalRfps && m.delivered <= m.totalRfps
    ensures 0 <= m.conversionRate <= 100
    ensures |rfps| == 0 ==> m.conversionRate == 0
    ensures |rfps| > 0 ==> m.conversionRate == Numeric.RoundPercent(m.ordersReceived, |rfps|)
  {
    var orders := |Filter(rfps, HasOrder)|;
    Metrics(
      |rfps|,
      |Filter(rfps, (r: RFP) => r.status == QuotationPending)|,
      orders,
      |Filter(rfps, IsDeliveredOrFulfilled)|,
      Sum(rfps, ValueOrZero),
      ConversionRate(orders, |rfps|))
  }

  datatype Stage = Stage(name: string, count: nat)

  /** `getStageData`: the funnel, one stage per milestone. */
  function GetStageData(rfps: seq<RFP>): (stages: seq<Stage>)
    ensures |stages| == 4
    ensures stages[0].name == "RFP Submitted" && stages[1].name == "Quotation Sent"
    ensures stages[2].name == "Order Received" && stages[3].name == "Delivered"
    ensures stages[0].count == |rfps|
    ensures stages[1].count == |Filter(rfps, HasQuotation)|
    ensures stages[2].count == |Filter(rfps, HasOrder)|
    ensures stages[3].count == |Filter(rfps, IsDeliveredOrFulfilled)|
  {
    [
      Stage("RFP Submitted", |rfps|),
      Stage("Quotation Sent", |Filter(rfps, HasQuotation)|),
      Stage("Order Received", |Filter(rfps, HasOrder)|),
      Stage("Delivered", |Filter(rfps, IsDeliveredOrFulfilled)|)
    ]
  }

  /** The funnel and the headline metrics count the same records. */
  lemma StagesAgreeWithMetrics(rfps: seq<RFP>)
    ensures GetStageData(rfps)[0].count == GetMetrics(rfps).totalRfps
    ensures GetStageData(rfps)[2].count == GetMetrics(rfps).ordersReceived
    ensures GetStageData(rfps)[3].count == GetMetrics(rfps).delivered
  {
  }

  const Teams: seq<string> := ["Sales_A", "Sales_B", "Sales_C"]

  datatype TeamStats = TeamStats(name: string, totalRfps: nat, converted: nat, conversionRate: int, totalValue: int)

  function AssignedTo(team: string): RFP -> bool
  {
    (r: RFP) => r.assignedTo == team
  }

  /** One element of `getTeamPerformance`: the records assigned to `team`. */
  function TeamRollup(rfps: seq<RFP>, team: string): (t: TeamStats)
    ensures t.name == team
    ensures t.totalRfps == |Filter(rfps, AssignedTo(team))|
    ensures t.converted == |Filter(Filter(rfps, AssignedTo(team)), HasOrder)|
    ensures t.converted <= t.totalRfps
    ensures t.totalValue == Sum(Filter(rfps, AssignedTo(team)), ValueOrZero)
    ensures 0 <= t.conversionRate <= 100
    ensures t.totalRfps == 0 ==> t.conversionRate == 0
    ensures t.totalRfps > 0 ==> t.conversionRate == Numeric.RoundPercent(t.converted, t.totalRfps)
  {
    var mine := Filter(rfps, AssignedTo(team));
    var converted := |Filter(mine, HasOrder)|;
    TeamStats(team, |mine|, converted, ConversionRate(converted, |mine|), Sum(mine, ValueOrZero))
  }

  /** `getTeamPerformance`: one rollup per known team, in the fixed team order. */
  function GetTeamPerformance(rfps: seq<RFP>): (ts: seq<TeamStats>)
    ensures |ts| == |Teams|
    ensures forall i :: 0 <= i < |Teams| ==> ts[i] == TeamRollup(rfps, Teams[i])
  {
    seq(|Teams|, i requires 0 <= i < |Teams| => TeamRollup(rfps, Teams[i]))
  }

  predicate OnKnownTeam(r: RFP)
  {
    r.assignedTo in Teams
  }

  /** Records assigned to a name outside the team list do not change the rollup. */
  lemma UnknownTeamsIgnored(rfps: seq<RFP>)
    ensures GetTeamPerformance(Filter(rfps, OnKnownTeam)) == GetTeamPerformance(rfps)
  {
    forall i | 0 <= i < |Teams|
      ensures TeamRollup(Filter(rfps, OnKnownTeam), Teams[i]) == TeamRollup(rfps, Teams[i])
    {
      FilterFilter(rfps, OnKnownTeam, AssignedTo(Teams[i]));
    }
  }

  /** How one more record at the front changes one team's rollup. */
  lemma RollupCons(x: RFP, rest: seq<RFP>, team: string)
    ensures var before, after := TeamRollup(rest, team), TeamRollup([x] + rest, team);
      var mine := if x.assignedTo == team then 1 else 0;
      && after.totalRfps == mine + before.totalRfps
      && after.converted == (if HasOrder(x) then mine else 0) + before.converted
      && after.totalValue == (if x.assignedTo == team then ValueOrZero(x) else 0) + before.totalValue
  {
    FilterCons(x, rest, AssignedTo(team));
    if x.assignedTo == team {
      FilterCons(x, Filter(rest, AssignedTo(team)), HasOrder);
      SumCons(x, Filter(rest, AssignedTo(team)), ValueOrZero);
    }
  }

  /** When every record belongs to one of the three teams, the rollups split the collection:
      their counts, orders and values add up to the collection's. */
  lemma {:induction false} RollupsPartition(rfps: seq<RFP>)
    requires forall i :: 0 <= i < |rfps| ==> OnKnownTeam(rfps[i])
    ensures var a, b, c := TeamRollup(rfps, "Sales_A"), TeamRollup(rfps, "Sales_B"), TeamRollup(rfps, "Sales_C");
      && a.totalRfps + b.totalRfps + c.totalRfps == |rfps|
      && a.converted + b.converted + c.converted == |Filter(rfps, HasOrder)|
      && a.totalValue + b.totalValue + c.totalValue == Sum(rfps, ValueOrZero)
    decreases |rfps|
  {
    if rfps != [] {
      var x, rest := rfps[0], rfps[1..];
      assert rfps == [x] + rest;
      assert forall i :: 0 <= i < |rest| ==> rest[i] == rfps[i + 1];
      RollupsPartition(rest);
      RollupCons(x, rest, "Sales_A");
      RollupCons(x, rest, "Sales_B");
      RollupCons(x, rest, "Sales_C");
      FilterCons(x, rest, HasOrder);
      SumCons(x, rest, ValueOrZero);
      assert OnKnownTeam(x);
    }
  }

  /** When every record belongs to a known team, the three rollups add up to the headline metrics. */
  lemma TeamsPartitionMetrics(rfps: seq<RFP>)
    requires forall i :: 0 <= i < |rfps| ==> OnKnownTeam(rfps[i])
    ensures var ts := GetTeamPerformance(rfps);
      && ts[0].totalRfps + ts[1].totalRfps + ts[2].totalRfps == GetMetrics(rfps).totalRfps
      && ts[0].converted + ts[1].converted + ts[2].converted == GetMetrics(rfps).ordersReceived
      && ts[0].totalValue + ts[1].totalValue + ts[2].totalValue == GetMetrics(rfps).totalValue
  {
    RollupsPartition(rfps);
  }

  datatype DelayEntry = DelayEntry(id: string, clientName: string, daysToQuote: int, daysToDeliver: Option<int>, status: Status)

  /** One element of `getDelayAnalysis`, for a record that has a quotation date. */
  function DelayOf(r: RFP): (e: DelayEntry)
    requires HasQuotation(r)
    ensures e.id == r.id && e.clientName == r.clientName && e.status == r.status
    ensures e.daysToQuote == DayNumber(r.quotationDate.value) - DayNumber(r.submissionDate)
    ensures e.daysToDeliver.Some? <==> r.orderDate.Some? && r.deliveryDate.Some?
    ensures e.daysToDeliver.Some? ==>
      e.daysToDeliver.value == DayNumber(r.deliveryDate.value) - DayNumber(r.orderDate.value)
  {
    DaysDeltaExact(r.submissionDate, r.quotationDate.value);
    var toDeliver :=
      if r.deliveryDate.Some? && r.orderDate.Some? then
        DaysDeltaExact(r.orderDate.value, r.deliveryDate.value);
        Some(DaysDelta(r.orderDate.value, r.deliveryDate.value))
      else None;
    DelayEntry(r.id, r.clientName, DaysDelta(r.submissionDate, r.quotationDate.value), toDeliver, r.status)
  }

  /** `getDelayAnalysis`: one entry per quoted record, in the collection's order. */
  function GetDelayAnalysis(rfps: seq<RFP>): (ds: seq<DelayEntry>)
    ensures |ds| == |Filter(rfps, HasQuotation)|
    ensures forall i :: 0 <= i < |ds| ==> ds[i] == DelayOf(Filter(rfps, HasQuotation)[i])
  {
    var quoted := Filter(rfps, HasQuotation);
    FilterMembers(rfps, HasQuotation);
    seq(|quoted|, i requires 0 <= i < |quoted| => DelayOf(quoted[i]))
  }

  /** The delay analysis has exactly one entry per "Quotation Sent" record of the funnel. */
  lemma DelaysMatchQuotationStage(rfps: seq<RFP>)
    ensures |GetDelayAnalysis(rfps)| == GetStageData(rfps)[1].count
  {
  }

  /** The delay entries name the quoted records, in order, and nothing else. */
  lemma {:induction false} DelayIdsAreQuotedIds(rfps: seq<RFP>)
    ensures SubsequenceOf(Filter(rfps, HasQuotation), rfps)
    ensures forall i :: 0 <= i < |GetDelayAnalysis(rfps)| ==>
      GetDelayAnalysis(rfps)[i].id == Filter(rfps, HasQuotation)[i].id
  {
    FilterIsSubsequence(rfps, HasQuotation);
  }

  /** The sample in two halves, so that facts about it are proved four records at a time. */
  const EarlyRfps: seq<RFP> := [Rfp001, Rfp002, Rfp003, Rfp004]
  const LateRfps: seq<RFP> := [Rfp005, Rfp006, Rfp007, Rfp008]

  lemma FilterSample(p: RFP -> bool)
    ensures Filter(MockRfps, p) == Filter(EarlyRfps, p) + Filter(LateRfps, p)
  {
    assert MockRfps == EarlyRfps + LateRfps;
    FilterAppend(EarlyRfps, LateRfps, p);
  }

  lemma SumSample(f: RFP -> int)
    ensures Sum(MockRfps, f) == Sum(EarlyRfps, f) + Sum(LateRfps, f)
  {
    assert MockRfps == EarlyRfps + LateRfps;
    SumAppend(EarlyRfps, LateRfps, f);
  }

  lemma SampleQuotedEarly()
    ensures Filter(EarlyRfps, HasQuotation) == [Rfp001, Rfp003, Rfp004]
  {
    FilterCons(Rfp004, [], HasQuotation);
    FilterCons(Rfp003, [Rfp004], HasQuotation);
    FilterCons(Rfp002, [Rfp003, Rfp004], HasQuotation);
    FilterCons(Rfp001, [Rfp002, Rfp003, Rfp004], HasQuotation);
  }

  lemma SampleQuotedLate()
    ensures Filter(LateRfps, HasQuotation) == [Rfp005, Rfp006, Rfp008]
  {
    FilterCons(Rfp008, [], HasQuotation);
    FilterCons(Rfp007, [Rfp008], HasQuotation);
    FilterCons(Rfp006, [Rfp007, Rfp008], HasQuotation);
    FilterCons(Rfp005, [Rfp006, Rfp007, Rfp008], HasQuotation);
  }

  /** The quoted records of the sample, in order. */
  lemma SampleQuoted()
    ensures Filter(MockRfps, HasQuotation) == [Rfp001, Rfp003, Rfp004, Rfp005, Rfp006, Rfp008]
  {
    FilterSample(HasQuotation);
    SampleQuotedEarly();
    SampleQuotedLate();
  }

  /** The sample has two records awaiting a quotation. */
  lemma SamplePending()
    ensures |Filter(MockRfps, (r: RFP) => r.status == QuotationPending)| == 2
  {
    var pending := (r: RFP) => r.status == QuotationPending;
    FilterSample(pending);
    FilterCons(Rfp004, [], pending);
    FilterCons(Rfp003, [Rfp004], pending);
    FilterCons(Rfp002, [Rfp003, Rfp004], pending);
    FilterCons(Rfp001, [Rfp002, Rfp003, Rfp004], pending);
    FilterCons(Rfp008, [], pending);
    FilterCons(Rfp007, [Rfp008], pending);
    FilterCons(Rfp006, [Rfp007, Rfp008], pending);
    FilterCons(Rfp005, [Rfp006, Rfp007, Rfp008], pending);
  }

  /** Five records of the sample have an order date. */
  lemma SampleOrders()
    ensures |Filter(MockRfps, HasOrder)| == 5
  {
    FilterSample(HasOrder);
    FilterCons(Rfp004, [], HasOrder);
    FilterCons(Rfp003, [Rfp004], HasOrder);
    FilterCons(Rfp002, [Rfp003, Rfp004], HasOrder);
    FilterCons(Rfp001, [Rfp002, Rfp003, Rfp004], HasOrder);
    FilterCons(Rfp008, [], HasOrder);
    FilterCons(Rfp007, [Rfp008], HasOrder);
    FilterCons(Rfp006, [Rfp007, Rfp008], HasOrder);
    FilterCons(Rfp005, [Rfp006, Rfp007, Rfp008], HasOrder);
  }

  /** Three records of the sample are delivered or fulfilled. */
  lemma SampleDelivered()
    ensures |Filter(MockRfps, IsDeliveredOrFulfilled)| == 3
  {
    FilterSample(IsDeliveredOrFulfilled);
    FilterCons(Rfp004, [], IsDeliveredOrFulfilled);
    FilterCons(Rfp003, [Rfp004], IsDeliveredOrFulfilled);
    FilterCons(Rfp002, [Rfp003, Rfp004], IsDeliveredOrFulfilled);
    FilterCons(Rfp001, [Rfp002, Rfp003, Rfp004], IsDeliveredOrFulfilled);
    FilterCons(Rfp008, [], IsDeliveredOrFulfilled);
    FilterCons(Rfp007, [Rfp008], IsDeliveredOrFulfilled);
    FilterCons(Rfp006, [Rfp007, Rfp008], IsDeliveredOrFulfilled);
    FilterCons(Rfp005, [Rfp006, Rfp007, Rfp008], IsDeliveredOrFulfilled);
  }

  /** The sample's values add up to 143000; the two unquoted records count as 0. */
  lemma SampleValue()
    ensures Sum(MockRfps, ValueOrZero) == 143000
  {
    SumSample(ValueOrZero);
    SumCons(Rfp004, [], ValueOrZero);
    SumCons(Rfp003, [Rfp004], ValueOrZero);
    SumCons(Rfp002, [Rfp003, Rfp004], ValueOrZero);
    SumCons(Rfp001, [Rfp002, Rfp003, Rfp004], ValueOrZero);
    SumCons(Rfp008, [], ValueOrZero);
    SumCons(Rfp007, [Rfp008], ValueOrZero);
    SumCons(Rfp006, [Rfp007, Rfp008], ValueOrZero);
    SumCons(Rfp005, [Rfp006, Rfp007, Rfp008], ValueOrZero);
  }

  /** The headline numbers of the sample: 8 records, 2 awaiting a quotation, 5 orders,
      3 delivered or fulfilled, 143000 in value and a 63% conversion rate (5 / 8 rounded). */
  lemma SampleMetrics()
    ensures GetMetrics(MockRfps) == Metrics(8, 2, 5, 3, 143000, 63)
  {
    SamplePending();
    SampleOrders();
    SampleDelivered();
    SampleValue();
  }

  /** The delay entries of the quoted sample records, one by one. */
  lemma SampleDelay001()
    ensures DelayOf(Rfp001) == DelayEntry("RFP001", "ABC Corp", 2, Some(6), Fulfilled)
  {
  }

  lemma SampleDelay003()
    ensures DelayOf(Rfp003) == DelayEntry("RFP003", "Tech Solutions", 2, None, InProduction)
  {
  }

  lemma SampleDelay004()
    ensures DelayOf(Rfp004) == DelayEntry("RFP004", "Global Manufacturing", 2, Some(7), Delivered)
  {
  }

  lemma SampleDelay005()
    ensures DelayOf(Rfp005) == DelayEntry("RFP005", "Innovation Labs", 2, None, OrderPending)
  {
  }

  lemma SampleDelay006()
    ensures DelayOf(Rfp006) == DelayEntry("RFP006", "MegaCorp Industries", 2, Some(7), Fulfilled)
  {
  }

  lemma SampleDelay008()
    ensures DelayOf(Rfp008) == DelayEntry("RFP008", "Precision Parts Co", 2, None, InProduction)
  {
  }

  /** The delay analysis of the sample is the entries of its quoted records, in order. */
  lemma SampleDelaysOfQuoted()
    ensures GetDelayAnalysis(MockRfps)
      == [DelayOf(Rfp001), DelayOf(Rfp003), DelayOf(Rfp004), DelayOf(Rfp005), DelayOf(Rfp006), DelayOf(Rfp008)]
  {
    SampleQuoted();
  }

  /** The sample's delay analysis: six quoted records, each quoted two days after submission;
      the three with both an order and a delivery took 6, 7 and 7 days to deliver. */
  lemma SampleDelays()
    ensures GetDelayAnalysis(MockRfps) == [
      DelayEntry("RFP001", "ABC Corp", 2, Some(6), Fulfilled),
      DelayEntry("RFP003", "Tech Solutions", 2, None, InProduction),
      DelayEntry("RFP004", "Global Manufacturing", 2, Some(7), Delivered),
      DelayEntry("RFP005", "Innovation Labs", 2, None, OrderPending),
      DelayEntry("RFP006", "MegaCorp Industries", 2, Some(7), Fulfilled),
      DelayEntry("RFP008", "Precision Parts Co", 2, None, InProduction)]
  {
    SampleDelaysOfQuoted();
    SampleDelay001();
    SampleDelay003();
    SampleDelay004();
    SampleDelay005();
    SampleDelay006();
    SampleDelay008();
  }

  /** The three team names differ. */
  lemma TeamNamesDistinct()
    ensures "Sales_A" != "Sales_B" && "Sales_A" != "Sales_C" && "Sales_B" != "Sales_C"
  {
    assert "Sales_A"[6] != "Sales_B"[6] && "Sales_A"[6] != "Sales_C"[6] && "Sales_B"[6] != "Sales_C"[6];
  }

  lemma AssignedEarlySalesA()
    ensures Filter(EarlyRfps, AssignedTo("Sales_A")) == [Rfp001, Rfp003]
  {
    TeamNamesDistinct();
    var p := AssignedTo("Sales_A");
    FilterCons(Rfp004, [], p);
    FilterCons(Rfp003, [Rfp004], p);
    FilterCons(Rfp002, [Rfp003, Rfp004], p);
    FilterCons(Rfp001, [Rfp002, Rfp003, Rfp004], p);
  }

  lemma AssignedLateSalesA()
    ensures Filter(LateRfps, AssignedTo("Sales_A")) == [Rfp006]
  {
    TeamNamesDistinct();
    var p := AssignedTo("Sales_A");
    FilterCons(Rfp008, [], p);
    FilterCons(Rfp007, [Rfp008], p);
    FilterCons(Rfp006, [Rfp007, Rfp008], p);
    FilterCons(Rfp005, [Rfp006, Rfp007, Rfp008], p);
  }

  /** The sample's records assigned to Sales_A, in order. */
  lemma SampleAssignedSalesA()
    ensures Filter(MockRfps, AssignedTo("Sales_A")) == [Rfp001, Rfp003, Rfp006]
  {
    FilterSample(AssignedTo("Sales_A"));
    AssignedEarlySalesA();
    AssignedLateSalesA();
  }

  lemma AssignedEarlySalesB()
    ensures Filter(EarlyRfps, AssignedTo("Sales_B")) == [Rfp002]
  {
    TeamNamesDistinct();
    var p := AssignedTo("Sales_B");
    FilterCons(Rfp004, [], p);
    FilterCons(Rfp003, [Rfp004], p);
    FilterCons(Rfp002, [Rfp003, Rfp004], p);
    FilterCons(Rfp001, [Rfp002, Rfp003, Rfp004], p);
  }

  lemma AssignedLateSalesB()
    ensures Filter(LateRfps, AssignedTo("Sales_B")) == [Rfp005, Rfp008]
  {
    TeamNamesDistinct();
    var p := AssignedTo("Sales_B");
    FilterCons(Rfp008, [], p);
    FilterCons(Rfp007, [Rfp008], p);
    FilterCons(Rfp006, [Rfp007, Rfp008], p);
    FilterCons(Rfp005, [Rfp006, Rfp007, Rfp008], p);
  }

  /** The sample's records assigned to Sales_B, in order. */
  lemma SampleAssignedSalesB()
    ensures Filter(MockRfps, AssignedTo("Sales_B")) == [Rfp002, Rfp005, Rfp008]
  {
    FilterSample(AssignedTo("Sales_B"));
    AssignedEarlySalesB();
    AssignedLateSalesB();
  }

  lemma AssignedEarlySalesC()
    ensures Filter(EarlyRfps, AssignedTo("Sales_C")) == [Rfp004]
  {
    TeamNamesDistinct();
    var p := AssignedTo("Sales_C");
    FilterCons(Rfp004, [], p);
    FilterCons(Rfp003, [Rfp004], p);
    FilterCons(Rfp002, [Rfp003, Rfp004], p);
    FilterCons(Rfp001, [Rfp002, Rfp003, Rfp004], p);
  }

  lemma AssignedLateSalesC()
    ensures Filter(LateRfps, AssignedTo("Sales_C")) == [Rfp007]
  {
    TeamNamesDistinct();
    var p := AssignedTo("Sales_C");
    FilterCons(Rfp008, [], p);
    FilterCons(Rfp007, [Rfp008], p);
    FilterCons(Rfp006, [Rfp007, Rfp008], p);
    FilterCons(Rfp005, [Rfp006, Rfp007, Rfp008], p);
  }

  /** The sample's records assigned to Sales_C, in order. */
  lemma SampleAssignedSalesC()
    ensures Filter(MockRfps, AssignedTo("Sales_C")) == [Rfp004, Rfp007]
  {
    FilterSample(AssignedTo("Sales_C"));
    AssignedEarlySalesC();
    AssignedLateSalesC();
  }

  lemma SampleRollupSalesA()
    ensures TeamRollup(MockRfps, "Sales_A") == TeamStats("Sales_A", 3, 3, 100, 82000)
  {
    SampleAssignedSalesA();
    FilterCons(Rfp001, [Rfp003, Rfp006], HasOrder);
    FilterCons(Rfp003, [Rfp006], HasOrder);
    FilterCons(Rfp006, [], HasOrder);
    SumCons(Rfp001, [Rfp003, Rfp006], ValueOrZero);
    SumCons(Rfp003, [Rfp006], ValueOrZero);
    SumCons(Rfp006, [], ValueOrZero);
  }

  lemma SampleRollupSalesB()
    ensures TeamRollup(MockRfps, "Sales_B") == TeamStats("Sales_B", 3, 1, 33, 26000)
  {
    SampleAssignedSalesB();
    FilterCons(Rfp002, [Rfp005, Rfp008], HasOrder);
    FilterCons(Rfp005, [Rfp008], HasOrder);
    FilterCons(Rfp008, [], HasOrder);
    SumCons(Rfp002, [Rfp005, Rfp008], ValueOrZero);
    SumCons(Rfp005, [Rfp008], ValueOrZero);
    SumCons(Rfp008, [], ValueOrZero);
  }

  lemma SampleRollupSalesC()
    ensures TeamRollup(MockRfps, "Sales_C") == TeamStats("Sales_C", 2, 1, 50, 35000)
  {
    SampleAssignedSalesC();
    FilterCons(Rfp004, [Rfp007], HasOrder);
    FilterCons(Rfp007, [], HasOrder);
    SumCons(Rfp004, [Rfp007], ValueOrZero);
    SumCons(Rfp007, [], ValueOrZero);
  }

  /** The sample's team rollups: Sales_A converted all 3 of its records (82000), Sales_B 1
      of 3 (33%, 26000) and Sales_C 1 of 2 (50%, 35000). */
  lemma SampleTeams()
    ensures GetTeamPerformance(MockRfps) == [
      TeamStats("Sales_A", 3, 3, 100, 82000),
      TeamStats("Sales_B", 3, 1, 33, 26000),
      TeamStats("Sales_C", 2, 1, 50, 35000)]
  {
    SampleRollupSalesA();
    SampleRollupSalesB();
    SampleRollupSalesC();
  }
}
