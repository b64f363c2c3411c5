/** The metrics export: each record flattened into a 31-key row, the CSV text of the rows,
    and the summary block of the JSON export.

    Date arithmetic follows `new Date` on date-only strings (UTC midnight). The three
    fields that read the local calendar (`quarter`, `month`, `week_of_year`) are modelled
    with the local time zone taken to be UTC; the clock reading `export_date` is a parameter. */
module MetricsExport {
  import opened Wrappers
  import opened Text
  import opened Calendar
  import opened Seqs
  import opened MockData
  import Csv
  import Numeric

  /** A row value: the export mixes strings, numbers and booleans. */
  datatype Cell = Str(s: string) | Num(n: int) | Bool(b: bool)

  /** `date || 'N/A'` for a stored date string. */
  function DateOrNA(d: Option<CalendarDate>): (s: string)
    ensures d.None? ==> s == "N/A"
    ensures d.Some? ==> ParseIso(s) == d
  {
    match d
    case None => "N/A"
    case Some(day) => ParsePrinted(day); ToIso(day)
  }

  /** `b && a ? Math.ceil((b - a) / day) : null`: a day count, only when both ends exist. */
  function DaysBetween(a: Option<CalendarDate>, b: Option<CalendarDate>): (r: Option<int>)
    ensures r.Some? <==> a.Some? && b.Some?
    ensures r.Some? ==> r.value == DayNumber(b.value) - DayNumber(a.value)
  {
    if a.Some? && b.Some? then
      DaysDeltaExact(a.value, b.value);
      Some(DaysDelta(a.value, b.value))
    else None
  }

  /** `n || 'N/A'`: a null count and a count of 0 are both falsy, so both export as 'N/A'. */
  function NonZero(days: Option<int>): Option<int>
  {
    if days.Some? && days.value != 0 then days else None
  }

  /** The response-time category of a day count: 'N/A' when it is null or 0. */
  function SpeedCategory(days: Option<int>, fast: int, average: int): (c: string)
    requires 0 <= fast < average
    ensures c == "N/A" <==> days.None? || days.value == 0
    ensures c == "Fast" <==> days.Some? && days.value != 0 && days.value <= fast
    ensures c == "Average" <==> days.Some? && fast < days.value <= average
    ensures c == "Slow" <==> days.Some? && average < days.value
  {
    if days.None? || days.value == 0 then "N/A"
    else if days.value <= fast then "Fast"
    else if days.value <= average then "Average"
    else "Slow"
  }

  predicate IsLost(r: RFP) { r.status == Cancelled }
  predicate IsPending(r: RFP) { r.status == QuotationPending || r.status == OrderPending || r.status == InProduction }

  /** Every status is exactly one of won, lost and pending. */
  lemma OutcomeExclusive(r: RFP)
    ensures (if IsDeliveredOrFulfilled(r) then 1 else 0) + (if IsLost(r) then 1 else 0) + (if IsPending(r) then 1 else 0) == 1
  {
  }

  function WinProbability(r: RFP): (p: int)
    ensures IsDeliveredOrFulfilled(r) ==> p == 100
    ensures IsLost(r) ==> p == 0
    ensures IsPending(r) ==> p == 50
  {
    if IsDeliveredOrFulfilled(r) then 100 else if IsLost(r) then 0 else 50
  }

  /** `Math.ceil(month / 3)`: the quarter a month falls in. */
  function QuarterOf(month: int): (q: int)
    requires 1 <= month <= 12
    ensures 1 <= q <= 4 && 3 * (q - 1) < month <= 3 * q
  {
    Numeric.CeilDivSpec(month, 3);
    Numeric.CeilDiv(month, 3)
  }

  /** No printed number holds a space. */
  lemma NumberHasNoSpace(n: nat)
    ensures ' ' !in NatToString(n)
  {
  }

  /** Two words joined by a space split back into those words. */
  lemma SplitTwoWords(a: string, b: string)
    requires ' ' !in a && ' ' !in b
    ensures Split(a + " " + b, ' ') == [a, b]
  {
    SplitAround(a, ' ', b);
    SplitNoSeparator(a, ' ');
    SplitNoSeparator(b, ' ');
  }

  /** `Q<quarter> <year>`: the quarter's label and the year, separated by a space. */
  function Quarter(d: CalendarDate): (s: string)
    ensures Split(s, ' ') == ["Q" + NatToString(QuarterOf(d.month)), NatToString(d.year)]
  {
    var q := NatToString(QuarterOf(d.month));
    NumberHasNoSpace(QuarterOf(d.month));
    NumberHasNoSpace(d.year);
    assert ' ' !in "Q" + q;
    SplitTwoWords("Q" + q, NatToString(d.year));
    "Q" + q + " " + NatToString(d.year)
  }

  /** Two submission dates get the same quarter label exactly when they fall in the same
      quarter of the same year. */
  lemma QuarterIdentifies(d1: CalendarDate, d2: CalendarDate)
    ensures Quarter(d1) == Quarter(d2) <==> QuarterOf(d1.month) == QuarterOf(d2.month) && d1.year == d2.year
  {
    if Quarter(d1) == Quarter(d2) {
      var q1, q2 := "Q" + NatToString(QuarterOf(d1.month)), "Q" + NatToString(QuarterOf(d2.month));
      assert q1 == q2 && NatToString(d1.year) == NatToString(d2.year);
      assert q1[1..] == NatToString(QuarterOf(d1.month)) && q2[1..] == NatToString(QuarterOf(d2.month));
      NatToStringInjective(QuarterOf(d1.month), QuarterOf(d2.month));
      NatToStringInjective(d1.year, d2.year);
    }
  }

  /** The English name of a month, a single word. */
  function MonthName(m: int): (s: string)
    requires 1 <= m <= 12
    ensures |s| > 0 && ' ' !in s
  {
    ["January", "February", "March", "April", "May", "June", "July",
     "August", "September", "October", "November", "December"][m - 1]
  }

  /** Distinct months have distinct names. */
  lemma MonthNamesDistinct(m: int, n: int)
    requires 1 <= m <= 12 && 1 <= n <= 12
    ensures MonthName(m) == MonthName(n) <==> m == n
  {
  }

  /** `toLocaleDateString('en-US', { month: 'long', year: 'numeric' })`: the month's name and
      the year, separated by a space. */
  function MonthLabel(d: CalendarDate): (s: string)
    ensures Split(s, ' ') == [MonthName(d.month), NatToString(d.year)]
  {
    NumberHasNoSpace(d.year);
    SplitTwoWords(MonthName(d.month), NatToString(d.year));
    MonthName(d.month) + " " + NatToString(d.year)
  }

  /** Two submission dates get the same month label exactly when they fall in the same month
      of the same year. */
  lemma MonthLabelIdentifies(d1: CalendarDate, d2: CalendarDate)
    ensures MonthLabel(d1) == MonthLabel(d2) <==> d1.month == d2.month && d1.year == d2.year
  {
    if MonthLabel(d1) == MonthLabel(d2) {
      assert MonthName(d1.month) == MonthName(d2.month) && NatToString(d1.year) == NatToString(d2.year);
      MonthNamesDistinct(d1.month, d2.month);
      NatToStringInjective(d1.year, d2.year);
    }
  }

  /** `new Date(y, 0, 1)` reads a year below 100 as 1900 + y. */
  function LocalYear(y: int): int
  {
    if 0 <= y <= 99 then 1900 + y else y
  }

  /** A whole number of days, measured in weeks of milliseconds and rounded up. */
  lemma WeeksOfDays(days: int)
    ensures var w := Numeric.CeilDiv(days * MsPerDay, 7 * MsPerDay);
      7 * (w - 1) < days <= 7 * w
  {
    var w := Numeric.CeilDiv(days * MsPerDay, 7 * MsPerDay);
    Numeric.CeilDivSpec(days * MsPerDay, 7 * MsPerDay);
    assert (w - 1) * (7 * MsPerDay) == (7 * (w - 1)) * MsPerDay;
    assert w * (7 * MsPerDay) == (7 * w) * MsPerDay;
    if days <= 7 * (w - 1) {
      Numeric.MulMonotone(days, 7 * (w - 1), MsPerDay);
    }
    if days > 7 * w {
      Numeric.MulMonotone(7 * w + 1, days, MsPerDay);
    }
  }

  /** `Math.ceil((date - new Date(year, 0, 1)) / week)`: the days since 1 January of the
      year `new Date` reads, divided by 7 and rounded up. */
  function WeekOfYear(d: CalendarDate): (w: int)
    ensures var days := DayNumber(d) - DayNumber(Date(LocalYear(d.year), 1, 1));
      7 * (w - 1) < days <= 7 * w
  {
    var day, start := DayNumber(d), DayNumber(Date(LocalYear(d.year), 1, 1));
    MsBetween(day, start);
    WeeksOfDays(day - start);
    Numeric.CeilDiv(EpochMs(d) - start * MsPerDay, 7 * MsPerDay)
  }

  /** The milliseconds between two day numbers are their difference in days, in milliseconds. */
  lemma MsBetween(a: int, b: int)
    ensures a * MsPerDay - b * MsPerDay == (a - b) * MsPerDay
  {
  }

  /** For a four-digit year, the week is the day of the year (0 for 1 January) divided by 7,
      rounded up: 1 January is week 0 and 2 January starts week 1. */
  lemma WeekOfYearDays(d: CalendarDate)
    requires d.year >= 100
    ensures var days := DayNumber(d) - DayNumber(Date(d.year, 1, 1));
      7 * (WeekOfYear(d) - 1) < days <= 7 * WeekOfYear(d)
  {
    assert LocalYear(d.year) == d.year;
  }

  /** One row of the dataset. Field names follow the export keys in `Keys`. */
  datatype ExportRow = ExportRow(
    rfpId: string, clientName: string, productType: string, assignedTo: string, currentStatus: string,
    submissionDate: string, quotationDate: string, orderDate: string, deliveryDate: string,
    estimatedValue: int, actualValue: int,
    daysToQuote: Option<int>, daysToOrder: Option<int>, daysToDeliver: Option<int>, totalCycleTime: Option<int>,
    isWon: bool, isLost: bool, isPending: bool, winProbability: int,
    quoteSubmitted: bool, orderReceived: bool, deliveryCompleted: bool,
    quoteResponseTimeCategory: string, deliveryTimeCategory: string,
    quarter: string, month: string, weekOfYear: int,
    teamWorkload: nat, teamSuccessRate: Option<int>,
    exportDate: string, dataVersion: string)

  /** Records of the collection on `r`'s team that are delivered or fulfilled. */
  function WonBy(team: string): RFP -> bool
  {
    (x: RFP) => x.assignedTo == team && IsDeliveredOrFulfilled(x)
  }

  /** A team's won records are among its records. */
  lemma WonWithinWorkload(rfps: seq<RFP>, team: string)
    ensures |Filter(rfps, WonBy(team))| <= |Filter(rfps, AssignedTo(team))|
  {
    FilterFilter(rfps, AssignedTo(team), WonBy(team));
  }

  /** The share of a team's records it has won; `None` stands for the NaN of 0 / 0. */
  function TeamSuccessRate(rfps: seq<RFP>, team: string): (rate: Option<int>)
    ensures rate.None? <==> |Filter(rfps, AssignedTo(team))| == 0
    ensures rate.Some? ==> 0 <= rate.value <= 100
    ensures rate.Some? ==>
      rate.value == Numeric.RoundPercent(|Filter(rfps, WonBy(team))|, |Filter(rfps, AssignedTo(team))|)
  {
    var workload := |Filter(rfps, AssignedTo(team))|;
    if workload == 0 then None
    else
      WonWithinWorkload(rfps, team);
      Some(ConversionRate(|Filter(rfps, WonBy(team))|, workload))
  }

  /** One element of `generateRFPDataset`: record `r` of the collection `rfps`. */
  function BuildRow(r: RFP, rfps: seq<RFP>, exportDate: string): (row: ExportRow)
    ensures row.rfpId == r.id && row.clientName == r.clientName && row.assignedTo == r.assignedTo
    ensures row.productType == r.productType
    ensures row.currentStatus == StatusName(r.status)
    ensures row.submissionDate == ToIso(r.submissionDate)
    ensures row.quotationDate == "N/A" <==> r.quotationDate.None?
    ensures row.orderDate == "N/A" <==> r.orderDate.None?
    ensures row.deliveryDate == "N/A" <==> r.deliveryDate.None?
    ensures r.quotationDate.Some? ==> row.quotationDate == ToIso(r.quotationDate.value)
    ensures r.orderDate.Some? ==> row.orderDate == ToIso(r.orderDate.value)
    ensures r.deliveryDate.Some? ==> row.deliveryDate == ToIso(r.deliveryDate.value)
    ensures row.estimatedValue == ValueOrZero(r)
    ensures row.actualValue == (if IsDeliveredOrFulfilled(r) then ValueOrZero(r) else 0)
    ensures row.isWon == IsDeliveredOrFulfilled(r) && row.isLost == IsLost(r) && row.isPending == IsPending(r)
    ensures row.quoteSubmitted == HasQuotation(r) && row.orderReceived == HasOrder(r)
    ensures row.deliveryCompleted == r.deliveryDate.Some?
    ensures row.totalCycleTime.Some? <==>
      r.deliveryDate.Some? && DayNumber(r.deliveryDate.value) != DayNumber(r.submissionDate)
    ensures row.quarter == Quarter(r.submissionDate) && row.month == MonthLabel(r.submissionDate)
    ensures row.weekOfYear == WeekOfYear(r.submissionDate)
    ensures row.teamWorkload == |Filter(rfps, AssignedTo(r.assignedTo))|
    ensures row.teamSuccessRate == TeamSuccessRate(rfps, r.assignedTo)
    ensures row.dataVersion == "1.0" && row.exportDate == exportDate
  {
    var submitted := Some(r.submissionDate);
    var toQuote := DaysBetween(submitted, r.quotationDate);
    var toOrder := DaysBetween(r.quotationDate, r.orderDate);
    var toDeliver := DaysBetween(r.orderDate, r.deliveryDate);
    var cycle := DaysBetween(submitted, r.deliveryDate);
    ExportRow(
      r.id, r.clientName, r.productType, r.assignedTo, StatusName(r.status),
      ToIso(r.submissionDate), DateOrNA(r.quotationDate), DateOrNA(r.orderDate), DateOrNA(r.deliveryDate),
      ValueOrZero(r), if IsDeliveredOrFulfilled(r) then ValueOrZero(r) else 0,
      NonZero(toQuote), NonZero(toOrder), NonZero(toDeliver), NonZero(cycle),
      IsDeliveredOrFulfilled(r), IsLost(r), IsPending(r), WinProbability(r),
      HasQuotation(r), HasOrder(r), r.deliveryDate.Some?,
      SpeedCategory(toQuote, 2, 5), SpeedCategory(toDeliver, 7, 14),
      Quarter(r.submissionDate), MonthLabel(r.submissionDate), WeekOfYear(r.submissionDate),
      |Filter(rfps, AssignedTo(r.assignedTo))|, TeamSuccessRate(rfps, r.assignedTo),
      exportDate, "1.0")
  }

  /** The exported day counts: each is computed only when its two dates exist, and a count
      of 0 exports as 'N/A' like a missing one. */
  lemma RowDays(r: RFP, rfps: seq<RFP>, exportDate: string)
    ensures var row := BuildRow(r, rfps, exportDate);
      && (row.daysToQuote.Some? <==> HasQuotation(r) && DayNumber(r.quotationDate.value) != DayNumber(r.submissionDate))
      && (row.daysToQuote.Some? ==> row.daysToQuote.value == DayNumber(r.quotationDate.value) - DayNumber(r.submissionDate))
      && (row.daysToOrder.Some? <==> HasQuotation(r) && HasOrder(r) && DayNumber(r.orderDate.value) != DayNumber(r.quotationDate.value))
      && (row.daysToOrder.Some? ==> row.daysToOrder.value == DayNumber(r.orderDate.value) - DayNumber(r.quotationDate.value))
      && (row.daysToDeliver.Some? <==> HasOrder(r) && r.deliveryDate.Some? && DayNumber(r.deliveryDate.value) != DayNumber(r.orderDate.value))
      && (row.daysToDeliver.Some? ==> row.daysToDeliver.value == DayNumber(r.deliveryDate.value) - DayNumber(r.orderDate.value))
      && (row.totalCycleTime.Some? ==> row.totalCycleTime.value == DayNumber(r.deliveryDate.value) - DayNumber(r.submissionDate))
  {
    var row := BuildRow(r, rfps, exportDate);
    var submitted := Some(r.submissionDate);
    assert row.daysToQuote == NonZero(DaysBetween(submitted, r.quotationDate));
    assert row.daysToOrder == NonZero(DaysBetween(r.quotationDate, r.orderDate));
    assert row.daysToDeliver == NonZero(DaysBetween(r.orderDate, r.deliveryDate));
    assert row.totalCycleTime == NonZero(DaysBetween(submitted, r.deliveryDate));
  }

  /** The speed categories of a row read the same day counts. */
  lemma RowCategories(r: RFP, rfps: seq<RFP>, exportDate: string)
    ensures var row := BuildRow(r, rfps, exportDate);
      && row.quoteResponseTimeCategory == SpeedCategory(row.daysToQuote, 2, 5)
      && row.deliveryTimeCategory == SpeedCategory(row.daysToDeliver, 7, 14)
  {
  }

  /** Exactly one outcome flag is set, and the win probability follows it. */
  lemma RowOutcome(r: RFP, rfps: seq<RFP>, exportDate: string)
    ensures var row := BuildRow(r, rfps, exportDate);
      && (if row.isWon then 1 else 0) + (if row.isLost then 1 else 0) + (if row.isPending then 1 else 0) == 1
      && row.winProbability == (if row.isWon then 100 else if row.isLost then 0 else 50)
      && row.actualValue == (if row.isWon then row.estimatedValue else 0)
  {
    OutcomeExclusive(r);
  }

  /** A record of the collection counts towards its own team, so its team's workload is at
      least 1 and the success rate is a defined percentage. */
  lemma RowTeamFields(r: RFP, rfps: seq<RFP>, exportDate: string)
    requires r in rfps
    ensures var row := BuildRow(r, rfps, exportDate);
      && row.teamWorkload >= 1
      && row.teamSuccessRate.Some? && 0 <= row.teamSuccessRate.value <= 100
  {
    FilterMembers(rfps, AssignedTo(r.assignedTo));
    var i :| 0 <= i < |rfps| && rfps[i] == r;
    assert r in Filter(rfps, AssignedTo(r.assignedTo));
  }

  /** `generateRFPDataset`: one row per record, in order. */
  function GenerateDataset(rfps: seq<RFP>, exportDate: string): (rows: seq<ExportRow>)
    ensures |rows| == |rfps|
    ensures forall i :: 0 <= i < |rfps| ==> rows[i] == BuildRow(rfps[i], rfps, exportDate)
  {
    Map(rfps, (r: RFP) => BuildRow(r, rfps, exportDate))
  }

  /** Every row of the dataset has a team workload of at least 1 and a rate in [0, 100]. */
  lemma DatasetTeamFields(rfps: seq<RFP>, exportDate: string)
    ensures forall i :: 0 <= i < |rfps| ==>
      GenerateDataset(rfps, exportDate)[i].teamWorkload >= 1
      && GenerateDataset(rfps, exportDate)[i].teamSuccessRate.Some?
      && 0 <= GenerateDataset(rfps, exportDate)[i].teamSuccessRate.value <= 100
  {
    forall i | 0 <= i < |rfps|
      ensures GenerateDataset(rfps, exportDate)[i].teamWorkload >= 1
      ensures GenerateDataset(rfps, exportDate)[i].teamSuccessRate.Some?
      ensures 0 <= GenerateDataset(rfps, exportDate)[i].teamSuccessRate.value <= 100
    {
      RowTeamFields(rfps[i], rfps, exportDate);
    }
  }

  /** The object keys of a row, in the order the row lists them, by group. */
  const RecordKeys: seq<string> := ["rfp_id", "client_name", "product_type", "assigned_to", "current_status"]  // basic record information
  const DateKeys: seq<string> := ["submission_date", "quotation_date", "order_date", "delivery_date"]  // date information
  const MeasureKeys: seq<string> := ["estimated_value", "actual_value", "days_to_quote", "days_to_order", "days_to_deliver", "total_cycle_time"]  // financial and time metrics
  const OutcomeKeys: seq<string> := ["is_won", "is_lost", "is_pending", "win_probability", "quote_submitted", "order_received", "delivery_completed"]  // outcome and stage flags
  const CategoryKeys: seq<string> := ["quote_response_time_category", "delivery_time_category"]  // quality categories
  const AnalyticsKeys: seq<string> := ["quarter", "month", "week_of_year", "team_workload", "team_success_rate", "export_date", "data_version"]  // analytics, team and export fields

  const Keys: seq<string> := RecordKeys + DateKeys + MeasureKeys + OutcomeKeys + CategoryKeys + AnalyticsKeys

  predicate AllPlain(ks: seq<string>)
  {
    forall i :: 0 <= i < |ks| ==> KeyIsPlain(ks[i])
  }

  lemma AllPlainAppend(a: seq<string>, b: seq<string>)
    requires AllPlain(a) && AllPlain(b)
    ensures AllPlain(a + b)
  {
    forall i | 0 <= i < |a + b| ensures KeyIsPlain((a + b)[i]) {
      if i >= |a| {
        assert (a + b)[i] == b[i - |a|];
      }
    }
  }

  function DayCell(days: Option<int>): Cell
  {
    match days
    case None => Str("N/A")
    case Some(n) => Num(n)
  }

  /** The row's values under `Keys`. A NaN success rate, which no row of a dataset holds, is
      written as the string "NaN", the text `String(NaN)` gives. */
  function Cells(row: ExportRow): (cs: seq<Cell>)
    ensures |cs| == |Keys|
  {
    [Str(row.rfpId), Str(row.clientName), Str(row.productType), Str(row.assignedTo), Str(row.currentStatus),
     Str(row.submissionDate), Str(row.quotationDate), Str(row.orderDate), Str(row.deliveryDate),
     Num(row.estimatedValue), Num(row.actualValue),
     DayCell(row.daysToQuote), DayCell(row.daysToOrder), DayCell(row.daysToDeliver), DayCell(row.totalCycleTime),
     Bool(row.isWon), Bool(row.isLost), Bool(row.isPending), Num(row.winProbability),
     Bool(row.quoteSubmitted), Bool(row.orderReceived), Bool(row.deliveryCompleted),
     Str(row.quoteResponseTimeCategory), Str(row.deliveryTimeCategory),
     Str(row.quarter), Str(row.month), Num(row.weekOfYear),
     Num(row.teamWorkload), match row.teamSuccessRate case None => Str("NaN") case Some(p) => Num(p),
     Str(row.exportDate), Str(row.dataVersion)]
  }

  /** The text a value converts to when joined. */
  function CellText(c: Cell): string
  {
    match c
    case Str(s) => s
    case Num(n) => IntToString(n)
    case Bool(b) => if b then "true" else "false"
  }

  /** The CSV field of a value: only strings are escaped. */
  function CellField(c: Cell): string
  {
    match c
    case Str(s) => if Csv.NeedsQuoting(s) then "\"" + Csv.DoubleQuotes(s) + "\"" else s
    case _ => CellText(c)
  }

  /** Numbers and booleans print without ',' or '"', so escaping only strings is escaping every text. */
  lemma CellFieldEscapes(c: Cell)
    ensures CellField(c) == Csv.EscapeField(CellText(c))
  {
    if c.Num? {
      var s := IntToString(c.n);
      assert !Csv.NeedsQuoting(s);
    }
  }

  lemma {:induction false} FieldsAreEscapedTexts(cs: seq<Cell>)
    ensures Map(cs, CellField) == Csv.EscapeAll(Map(cs, CellText))
    decreases |cs|
  {
    if cs != [] {
      FieldsAreEscapedTexts(cs[1..]);
      CellFieldEscapes(cs[0]);
      assert Map(cs, CellField)[1..] == Map(cs[1..], CellField);
      assert Map(cs, CellText)[1..] == Map(cs[1..], CellText);
    }
  }

  function RowLine(row: ExportRow): string
  {
    Join(Map(Cells(row), CellField), ',')
  }

  function RowTexts(row: ExportRow): seq<string>
  {
    Map(Cells(row), CellText)
  }

  /** The CSV text: the header line, then one line per row, joined with '\n'.
      An empty dataset produces no file. */
  function CsvContent(rows: seq<ExportRow>): (content: Option<string>)
    ensures content.None? <==> rows == []
  {
    if rows == [] then None
    else Some(Join([Join(Keys, ',')] + Map(rows, RowLine), '\n'))
  }

  /** The CSV text is the document of the rows' texts under the keys. */
  lemma {:induction false} CsvIsDocument(rows: seq<ExportRow>)
    requires rows != []
    ensures CsvContent(rows) == Some(Csv.Document(Keys, Map(rows, RowTexts)))
  {
    assert Map(rows, RowLine) == Csv.EncodeLines(Map(rows, RowTexts)) by {
      forall i | 0 <= i < |rows| ensures Map(rows, RowLine)[i] == Csv.EncodeLines(Map(rows, RowTexts))[i] {
        FieldsAreEscapedTexts(Cells(rows[i]));
      }
    }
  }

  predicate KeyIsPlain(k: string)
  {
    '\n' !in k && !Csv.NeedsQuoting(k)
  }

  /** Keys are spelt with lower-case letters and '_'. */
  predicate KeyChars(k: string)
  {
    forall j :: 0 <= j < |k| ==> 'a' <= k[j] <= 'z' || k[j] == '_'
  }

  lemma PlainKey(k: string)
    requires KeyChars(k)
    ensures KeyIsPlain(k)
  {
  }

  lemma RecordKeysArePlain()
    ensures AllPlain(RecordKeys)
  {
    forall i | 0 <= i < |RecordKeys| ensures KeyIsPlain(RecordKeys[i]) {
      PlainKey(RecordKeys[i]);
    }
  }

  lemma DateKeysArePlain()
    ensures AllPlain(DateKeys)
  {
    forall i | 0 <= i < |DateKeys| ensures KeyIsPlain(DateKeys[i]) {
      PlainKey(DateKeys[i]);
    }
  }

  lemma MeasureKeysArePlain()
    ensures AllPlain(MeasureKeys)
  {
    forall i | 0 <= i < |MeasureKeys| ensures KeyIsPlain(MeasureKeys[i]) {
      PlainKey(MeasureKeys[i]);
    }
  }

  lemma OutcomeKeysArePlain()
    ensures AllPlain(OutcomeKeys)
  {
    forall i | 0 <= i < |OutcomeKeys| ensures KeyIsPlain(OutcomeKeys[i]) {
      PlainKey(OutcomeKeys[i]);
    }
  }

  lemma CategoryKeysArePlain()
    ensures AllPlain(CategoryKeys)
  {
    forall i | 0 <= i < |CategoryKeys| ensures KeyIsPlain(CategoryKeys[i]) {
      PlainKey(CategoryKeys[i]);
    }
  }

  lemma AnalyticsKeysArePlain()
    ensures AllPlain(AnalyticsKeys)
  {
    forall i | 0 <= i < |AnalyticsKeys| ensures KeyIsPlain(AnalyticsKeys[i]) {
      PlainKey(AnalyticsKeys[i]);
    }
  }

  lemma KeysArePlain()
    ensures forall i :: 0 <= i < |Keys| ==> KeyIsPlain(Keys[i])
  {
    RecordKeysArePlain();
    DateKeysArePlain();
    MeasureKeysArePlain();
    OutcomeKeysArePlain();
    CategoryKeysArePlain();
    AnalyticsKeysArePlain();
    AllPlainAppend(RecordKeys, DateKeys);
    AllPlainAppend(RecordKeys + DateKeys, MeasureKeys);
    AllPlainAppend(RecordKeys + DateKeys + MeasureKeys, OutcomeKeys);
    AllPlainAppend(RecordKeys + DateKeys + MeasureKeys + OutcomeKeys, CategoryKeys);
    AllPlainAppend(RecordKeys + DateKeys + MeasureKeys + OutcomeKeys + CategoryKeys, AnalyticsKeys);
  }

  /** No text of the row holds a line break. */
  predicate RowHasNoNewline(row: ExportRow)
  {
    Csv.NoNewline(RowTexts(row))
  }

  /** The keys make a valid header line: nonempty, and no key needs quoting or holds a break. */
  lemma KeysMakeHeader()
    ensures |Keys| > 0 && Csv.NoNewline(Keys)
    ensures forall i :: 0 <= i < |Keys| ==> !Csv.NeedsQuoting(Keys[i])
  {
    KeysArePlain();
  }

  lemma RowTextsMakeRecords(rows: seq<ExportRow>)
    requires forall i :: 0 <= i < |rows| ==> RowHasNoNewline(rows[i])
    ensures forall i :: 0 <= i < |rows| ==> |Map(rows, RowTexts)[i]| > 0 && Csv.NoNewline(Map(rows, RowTexts)[i])
  {
  }

  /** When no value holds a line break, reading back the document that `CsvIsDocument`
      shows the CSV text to be gives the keys followed by each row's values, in order. */
  lemma CsvRoundTrip(rows: seq<ExportRow>)
    requires forall i :: 0 <= i < |rows| ==> RowHasNoNewline(rows[i])
    ensures Csv.ParseDocument(Csv.Document(Keys, Map(rows, RowTexts))) == Some([Keys] + Map(rows, RowTexts))
  {
    KeysMakeHeader();
    RowTextsMakeRecords(rows);
    Csv.DocumentRoundTrip(Keys, Map(rows, RowTexts));
  }

  datatype SummaryMetrics = SummaryMetrics(
    totalRfps: nat, wonRfps: nat, lostRfps: nat, pendingRfps: nat,
    totalValue: int, wonValue: int, averageCycleTime: int)

  datatype Metadata = Metadata(exportDate: string, totalRecords: nat, dataVersion: string, description: string)

  /** The JSON export before it is printed. */
  datatype ExportData = ExportData(metadata: Metadata, summaryMetrics: SummaryMetrics, rfpData: seq<ExportRow>)

  predicate RowWon(row: ExportRow) { row.isWon }
  predicate RowLost(row: ExportRow) { row.isLost }
  predicate RowPending(row: ExportRow) { row.isPending }
  predicate HasCycleTime(row: ExportRow) { row.totalCycleTime.Some? }
  function Estimated(row: ExportRow): int { row.estimatedValue }
  function Actual(row: ExportRow): int { row.actualValue }
  function CycleTime(row: ExportRow): int { row.totalCycleTime.GetOr(0) }

  /** `Math.round(sum / count) || 0` over the rows with a numeric cycle time. */
  function AverageCycleTime(rows: seq<ExportRow>): int
  {
    var timed := Filter(rows, HasCycleTime);
    if |timed| == 0 then 0 else Numeric.RoundDiv(Sum(timed, CycleTime), |timed|)
  }

  /** The average is 0 without a numeric cycle time, else the nearest integer to the mean. */
  lemma AverageCycleTimeSpec(rows: seq<ExportRow>)
    ensures var timed := Filter(rows, HasCycleTime);
      var avg := AverageCycleTime(rows);
      && (|timed| == 0 ==> avg == 0)
      && (|timed| > 0 ==> 2 * |timed| * avg <= 2 * Sum(timed, CycleTime) + |timed| < 2 * |timed| * (avg + 1))
  {
    var timed := Filter(rows, HasCycleTime);
    if |timed| > 0 {
      Numeric.RoundDivSpec(Sum(timed, CycleTime), |timed|);
    }
  }

  function Summarise(rows: seq<ExportRow>): SummaryMetrics
  {
    SummaryMetrics(
      |rows|, |Filter(rows, RowWon)|, |Filter(rows, RowLost)|, |Filter(rows, RowPending)|,
      Sum(rows, Estimated), Sum(rows, Actual), AverageCycleTime(rows))
  }

  /** `exportToJSON`'s document, before printing. */
  function ExportJson(rfps: seq<RFP>, exportDate: string): ExportData
  {
    var rows := GenerateDataset(rfps, exportDate);
    ExportData(
      Metadata(exportDate, |rows|, "1.0", "RFP Analytics Dataset - Comprehensive metrics for pipeline analysis"),
      Summarise(rows),
      rows)
  }

  /** The summary counts every row once: the totals agree, and won, lost and pending partition it. */
  lemma SummaryCounts(rfps: seq<RFP>, exportDate: string)
    ensures var e := ExportJson(rfps, exportDate);
      && e.metadata.totalRecords == e.summaryMetrics.totalRfps == |e.rfpData| == |rfps|
      && e.summaryMetrics.wonRfps + e.summaryMetrics.lostRfps + e.summaryMetrics.pendingRfps == |rfps|
  {
    var rows := GenerateDataset(rfps, exportDate);
    forall i | 0 <= i < |rows|
      ensures (if RowWon(rows[i]) then 1 else 0) + (if RowLost(rows[i]) then 1 else 0) + (if RowPending(rows[i]) then 1 else 0) == 1
    {
      RowOutcome(rfps[i], rfps, exportDate);
    }
    FilterPartition3(rows, RowWon, RowLost, RowPending);
  }

  /** The summary agrees with the headline metrics: won rows are the delivered records, and
      the total value is the collection's. */
  lemma SummaryAgreesWithMetrics(rfps: seq<RFP>, exportDate: string)
    ensures var s := ExportJson(rfps, exportDate).summaryMetrics;
      && s.wonRfps == GetMetrics(rfps).delivered
      && s.totalValue == GetMetrics(rfps).totalValue
  {
    var f := (r: RFP) => BuildRow(r, rfps, exportDate);
    FilterMapLength(rfps, f, RowWon, IsDeliveredOrFulfilled);
    SumMap(rfps, f, Estimated, ValueOrZero);
  }

  /** With non-negative values, the won value never exceeds the total value. */
  lemma WonValueWithinTotal(rfps: seq<RFP>, exportDate: string)
    requires forall i :: 0 <= i < |rfps| ==> ValueOrZero(rfps[i]) >= 0
    ensures ExportJson(rfps, exportDate).summaryMetrics.wonValue <= ExportJson(rfps, exportDate).summaryMetrics.totalValue
  {
    var rows := GenerateDataset(rfps, exportDate);
    forall x | x in rows ensures Actual(x) <= Estimated(x) {
      var i :| 0 <= i < |rows| && rows[i] == x;
      assert x == BuildRow(rfps[i], rfps, exportDate) && ValueOrZero(rfps[i]) >= 0;
    }
    SumMonotone(rows, Actual, Estimated);
  }
}
