/** The pipeline page: the search/status/team filter over the records, the summary of the
    filtered records, and the '-' placeholders of the table cells. */
module Pipeline {
  import opened Wrappers
  import opened Text
  import opened Calendar
  import opened Seqs
  import opened MockData

  /** The three filter inputs; "all" is the option that imposes no constraint. */
  datatype Filters = Filters(searchTerm: string, statusFilter: string, teamFilter: string)

  /** The page's initial filters. */
  const NoFilters: Filters := Filters("", "all", "all")

  /** `x.toLowerCase().includes(term.toLowerCase())`. */
  predicate MatchesText(x: string, term: string)
  {
    Contains(ToLower(x), ToLower(term))
  }

  predicate MatchesSearch(r: RFP, term: string)
  {
    MatchesText(r.clientName, term) || MatchesText(r.id, term) || MatchesText(r.productType, term)
  }

  predicate MatchesStatus(r: RFP, statusFilter: string)
  {
    statusFilter == "all" || StatusName(r.status) == statusFilter
  }

  predicate MatchesTeam(r: RFP, teamFilter: string)
  {
    teamFilter == "all" || r.assignedTo == teamFilter
  }

  predicate Keep(f: Filters, r: RFP)
  {
    MatchesSearch(r, f.searchTerm) && MatchesStatus(r, f.statusFilter) && MatchesTeam(r, f.teamFilter)
  }

  /** `filteredRFPs`. */
  function FilteredRfps(rfps: seq<RFP>, f: Filters): (shown: seq<RFP>)
    ensures |shown| <= |rfps|
  {
    Filter(rfps, (r: RFP) => Keep(f, r))
  }

  /** The filtered list keeps the records' order, keeps a record exactly when all three
      filters accept it, and keeps every copy of an accepted record. */
  lemma FilteredExactly(rfps: seq<RFP>, f: Filters)
    ensures SubsequenceOf(FilteredRfps(rfps, f), rfps)
    ensures forall i :: 0 <= i < |FilteredRfps(rfps, f)| ==> Keep(f, FilteredRfps(rfps, f)[i])
    ensures forall i :: 0 <= i < |rfps| ==> (rfps[i] in FilteredRfps(rfps, f) <==> Keep(f, rfps[i]))
    ensures forall x :: multiset(FilteredRfps(rfps, f))[x] == if Keep(f, x) then multiset(rfps)[x] else 0
  {
    var p := (r: RFP) => Keep(f, r);
    FilterIsSubsequence(rfps, p);
    FilterMembers(rfps, p);
    forall x ensures multiset(FilteredRfps(rfps, f))[x] == if Keep(f, x) then multiset(rfps)[x] else 0 {
      FilterCount(rfps, p, x);
    }
  }

  /** The empty search term matches every record. */
  lemma EmptySearchMatchesAll(r: RFP)
    ensures MatchesSearch(r, "")
  {
    ContainsEmpty(ToLower(r.clientName));
  }

  /** With the initial filters every record is shown, in order. */
  lemma NoFiltersShowsAll(rfps: seq<RFP>)
    ensures FilteredRfps(rfps, NoFilters) == rfps
  {
    forall r | r in rfps ensures Keep(NoFilters, r) {
      EmptySearchMatchesAll(r);
    }
    FilterAll(rfps, (r: RFP) => Keep(NoFilters, r));
  }

  /** Search ignores case: a term and its lower-cased form select the same records. */
  lemma SearchIgnoresCase(r: RFP, term: string)
    ensures MatchesSearch(r, ToLower(term)) == MatchesSearch(r, term)
  {
    ToLowerIdempotent(term);
  }

  /** A term matches when it occurs, ignoring case, in the client name, the id or the product. */
  lemma SearchIsSubstring(r: RFP, term: string)
    ensures MatchesSearch(r, term) <==>
      (exists i :: OccursAt(ToLower(r.clientName), ToLower(term), i))
      || (exists i :: OccursAt(ToLower(r.id), ToLower(term), i))
      || (exists i :: OccursAt(ToLower(r.productType), ToLower(term), i))
  {
    MatchesTextIff(r.clientName, term);
    MatchesTextIff(r.id, term);
    MatchesTextIff(r.productType, term);
  }

  lemma MatchesTextIff(x: string, term: string)
    ensures MatchesText(x, term) ==> exists i :: OccursAt(ToLower(x), ToLower(term), i)
    ensures (exists i :: OccursAt(ToLower(x), ToLower(term), i)) ==> MatchesText(x, term)
  {
    ContainsIff(ToLower(x), ToLower(term));
  }

  /** A status option selects exactly the records with that status. */
  lemma StatusFilterSelects(r: RFP, s: Status)
    ensures MatchesStatus(r, StatusName(s)) <==> r.status == s
  {
    if StatusName(r.status) == StatusName(s) {
      StatusNameInjective(r.status, s);
    }
  }

  /** The "Total Value" card: `value || 0` summed over the shown records. */
  function FilteredTotalValue(rfps: seq<RFP>, f: Filters): int
  {
    Sum(FilteredRfps(rfps, f), ValueOrZero)
  }

  /** The "Conversion Rate" card: 0 with nothing shown, else the rounded share with an order. */
  function FilteredConversionRate(rfps: seq<RFP>, f: Filters): (rate: int)
    ensures 0 <= rate <= 100
    ensures FilteredRfps(rfps, f) == [] ==> rate == 0
  {
    var shown := FilteredRfps(rfps, f);
    ConversionRate(|Filter(shown, HasOrder)|, |shown|)
  }

  /** The summary cards are the headline metrics of the shown records; with the initial
      filters they are the headline metrics of the whole collection. */
  lemma SummaryIsMetricsOfShown(rfps: seq<RFP>, f: Filters)
    ensures FilteredTotalValue(rfps, f) == GetMetrics(FilteredRfps(rfps, f)).totalValue
    ensures FilteredConversionRate(rfps, f) == GetMetrics(FilteredRfps(rfps, f)).conversionRate
    ensures FilteredTotalValue(rfps, NoFilters) == GetMetrics(rfps).totalValue
    ensures FilteredConversionRate(rfps, NoFilters) == GetMetrics(rfps).conversionRate
  {
    NoFiltersShowsAll(rfps);
  }

  /** A non-empty conversion rate is the share with an order, rounded to the nearest percent. */
  lemma FilteredRateIsRounded(rfps: seq<RFP>, f: Filters)
    requires FilteredRfps(rfps, f) != []
    ensures var shown := FilteredRfps(rfps, f);
      var orders, rate := |Filter(shown, HasOrder)|, FilteredConversionRate(rfps, f);
      2 * |shown| * rate <= 200 * orders + |shown| < 2 * |shown| * (rate + 1)
  {
    var shown := FilteredRfps(rfps, f);
    ConversionRateIsRounded(|Filter(shown, HasOrder)|, |shown|);
  }

  /** A table cell: the '-' placeholder or a value to be formatted for display. */
  datatype Shown<T> = Dash | Shown(value: T)

  /** `formatCurrency`: '-' for a missing value and for 0, which is falsy. */
  function FormatCurrency(value: Option<int>): (s: Shown<int>)
    ensures s.Dash? <==> value.None? || value.value == 0
    ensures s.Shown? ==> value == Some(s.value)
  {
    if value.None? || value.value == 0 then Dash else Shown(value.value)
  }

  /** `formatDate`: '-' for a missing date. */
  function FormatDate(d: Option<CalendarDate>): (s: Shown<CalendarDate>)
    ensures s.Dash? <==> d.None?
    ensures s.Shown? ==> d == Some(s.value)
  {
    if d.None? then Dash else Shown(d.value)
  }
}
