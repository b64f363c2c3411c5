/** The team page: each team's rollup joined with the quote delays of its records, the
    performance rating bands, and the two leaders picked by a strict-`>` reduction. */
module Team {
  import opened Wrappers
  import opened Seqs
  import opened MockData
  import Numeric

  /** `rfps.find(r => r.id === id)`: the first record with that id. */
  function RecordOf(rfps: seq<RFP>, id: string): Option<RFP>
  {
    Find(rfps, (r: RFP) => r.id == id)
  }

  /** `rfp?.assignedTo === team` for the record a delay entry names. */
  predicate OnTeam(rfps: seq<RFP>, team: string, d: DelayEntry)
  {
    var r := RecordOf(rfps, d.id);
    r.Some? && r.value.assignedTo == team
  }

  function TeamDelays(rfps: seq<RFP>, delays: seq<DelayEntry>, team: string): seq<DelayEntry>
  {
    Filter(delays, (d: DelayEntry) => OnTeam(rfps, team, d))
  }

  function DaysToQuote(d: DelayEntry): int { d.daysToQuote }

  /** `Math.round(avgQuoteTime * 10)`: the mean quote time in tenths of a day, 0 for no entries. */
  function AvgQuoteTenths(ds: seq<DelayEntry>): int
  {
    if |ds| == 0 then 0 else Numeric.RoundDiv(10 * Sum(ds, DaysToQuote), |ds|)
  }

  /** The average is 0 without entries, and otherwise the mean rounded to the nearest tenth
      (halves up): `t / 10` is within 1/20 of `sum / n`. */
  lemma AvgQuoteTenthsNearest(ds: seq<DelayEntry>)
    ensures |ds| == 0 ==> AvgQuoteTenths(ds) == 0
    ensures |ds| > 0 ==> var n, t := |ds|, AvgQuoteTenths(ds);
      2 * n * t <= 20 * Sum(ds, DaysToQuote) + n < 2 * n * (t + 1)
  {
    if |ds| > 0 {
      Numeric.RoundDivSpec(10 * Sum(ds, DaysToQuote), |ds|);
    }
  }

  /** A team's rollup, unchanged, with its average quote time added. */
  datatype TeamDelayStats = TeamDelayStats(stats: TeamStats, avgQuoteTime: real)

  function WithQuoteTime(rfps: seq<RFP>, delays: seq<DelayEntry>, t: TeamStats): (m: TeamDelayStats)
    ensures m.stats == t
    ensures m.avgQuoteTime * 10.0 == AvgQuoteTenths(TeamDelays(rfps, delays, t.name)) as real
  {
    TeamDelayStats(t, AvgQuoteTenths(TeamDelays(rfps, delays, t.name)) as real / 10.0)
  }

  /** `teamDelayMetrics`: one entry per team of `getTeamPerformance`, in the same order. */
  function TeamDelayMetrics(rfps: seq<RFP>): (ms: seq<TeamDelayStats>)
    ensures |ms| == |GetTeamPerformance(rfps)|
    ensures forall i :: 0 <= i < |ms| ==> ms[i] == WithQuoteTime(rfps, GetDelayAnalysis(rfps), GetTeamPerformance(rfps)[i])
  {
    var delays := GetDelayAnalysis(rfps);
    Map(GetTeamPerformance(rfps), (t: TeamStats) => WithQuoteTime(rfps, delays, t))
  }

  /** The join keeps every original field and adds the team's rounded mean quote time. */
  lemma TeamDelayMetricsSpec(rfps: seq<RFP>, i: nat)
    requires i < |Teams|
    ensures var m, delays := TeamDelayMetrics(rfps)[i], TeamDelays(rfps, GetDelayAnalysis(rfps), Teams[i]);
      && m.stats == TeamRollup(rfps, Teams[i])
      && m.avgQuoteTime * 10.0 == AvgQuoteTenths(delays) as real
      && (|delays| == 0 ==> m.avgQuoteTime == 0.0)
  {
    AvgQuoteTenthsNearest(TeamDelays(rfps, GetDelayAnalysis(rfps), Teams[i]));
  }

  predicate UniqueIds(rfps: seq<RFP>)
  {
    forall i, j :: 0 <= i < j < |rfps| ==> rfps[i].id != rfps[j].id
  }

  /** With distinct ids, looking up a record's id finds that record. */
  lemma RecordOfFindsOwn(rfps: seq<RFP>, k: nat)
    requires UniqueIds(rfps) && k < |rfps|
    ensures RecordOf(rfps, rfps[k].id) == Some(rfps[k])
  {
    var p := (r: RFP) => r.id == rfps[k].id;
    FindIsFirst(rfps, p, k);
    var j :| 0 <= j <= k && Find(rfps, p) == Some(rfps[j]) && forall m :: 0 <= m < j ==> !p(rfps[m]);
  }

  /** With distinct ids, a delay entry counts for a team exactly when its quoted record is
      assigned to that team. */
  lemma OnTeamIsAssignment(rfps: seq<RFP>, team: string, i: nat)
    requires UniqueIds(rfps)
    requires i < |GetDelayAnalysis(rfps)|
    ensures OnTeam(rfps, team, GetDelayAnalysis(rfps)[i]) <==> Filter(rfps, HasQuotation)[i].assignedTo == team
  {
    var quoted := Filter(rfps, HasQuotation);
    FilterMembers(rfps, HasQuotation);
    var k :| 0 <= k < |rfps| && rfps[k] == quoted[i];
    RecordOfFindsOwn(rfps, k);
  }

  /** The rating bands of the conversion rate. */
  datatype Rating = Excellent | Good | NeedsImprovement
  datatype Colour = Green | Yellow | Red

  function PerformanceRating(rate: int): (g: Rating)
    ensures g == Excellent <==> rate >= 70
    ensures g == Good <==> 50 <= rate < 70
    ensures g == NeedsImprovement <==> rate < 50
  {
    if rate >= 70 then Excellent else if rate >= 50 then Good else NeedsImprovement
  }

  /** `getPerformanceColor`. */
  function PerformanceColour(rate: int): Colour
  {
    if rate >= 70 then Green else if rate >= 50 then Yellow else Red
  }

  function Rank(g: Rating): int
  {
    match g
    case NeedsImprovement => 0
    case Good => 1
    case Excellent => 2
  }

  /** The colour and the label agree, and a higher rate never gets a lower rating. */
  lemma RatingBands(rate: int, higher: int)
    requires rate <= higher
    ensures PerformanceColour(rate) == Green <==> PerformanceRating(rate) == Excellent
    ensures PerformanceColour(rate) == Yellow <==> PerformanceRating(rate) == Good
    ensures PerformanceColour(rate) == Red <==> PerformanceRating(rate) == NeedsImprovement
    ensures Rank(PerformanceRating(rate)) <= Rank(PerformanceRating(higher))
  {
  }

  /** `ts[i]` is the first entry with the largest key among the first `n`. */
  ghost predicate FirstMaximum(ts: seq<TeamStats>, key: TeamStats -> int, i: int, n: int)
    requires 0 <= n <= |ts|
  {
    0 <= i < n
    && (forall j :: 0 <= j < n ==> key(ts[j]) <= key(ts[i]))
    && (forall j :: 0 <= j < i ==> key(ts[j]) < key(ts[i]))
  }

  /** `reduce((top, current) => key(current) > key(top) ? current : top)`, by index, from
      the running best `top` before position `k`. */
  function LeaderFrom(ts: seq<TeamStats>, key: TeamStats -> int, top: nat, k: nat): (i: nat)
    requires top < k <= |ts|
    ensures i < |ts|
    decreases |ts| - k
  {
    if k == |ts| then top
    else LeaderFrom(ts, key, if key(ts[k]) > key(ts[top]) then k else top, k + 1)
  }

  lemma {:induction false} LeaderFromIsFirstMaximum(ts: seq<TeamStats>, key: TeamStats -> int, top: nat, k: nat)
    requires top < k <= |ts|
    requires FirstMaximum(ts, key, top, k)
    ensures FirstMaximum(ts, key, LeaderFrom(ts, key, top, k), |ts|)
    decreases |ts| - k
  {
    if k < |ts| {
      var next := if key(ts[k]) > key(ts[top]) then k else top;
      assert FirstMaximum(ts, key, next, k + 1);
      LeaderFromIsFirstMaximum(ts, key, next, k + 1);
    }
  }

  /** The reduction without an initial value, which needs at least one team. */
  function LeaderIndex(ts: seq<TeamStats>, key: TeamStats -> int): (i: nat)
    requires |ts| > 0
    ensures i < |ts|
  {
    LeaderFrom(ts, key, 0, 1)
  }

  /** The leader has the largest key, and every earlier team has a strictly smaller one:
      ties go to the earliest team. */
  lemma LeaderIsFirstMaximum(ts: seq<TeamStats>, key: TeamStats -> int)
    requires |ts| > 0
    ensures var i := LeaderIndex(ts, key);
      && (forall j :: 0 <= j < |ts| ==> key(ts[j]) <= key(ts[i]))
      && (forall j :: 0 <= j < i ==> key(ts[j]) < key(ts[i]))
  {
    LeaderFromIsFirstMaximum(ts, key, 0, 1);
  }

  function ConversionRateOf(t: TeamStats): int { t.conversionRate }
  function TotalValueOf(t: TeamStats): int { t.totalValue }

  /** "Top Performer": the first team with the highest conversion rate. */
  function TopPerformer(ts: seq<TeamStats>): TeamStats
    requires |ts| > 0
  {
    ts[LeaderIndex(ts, ConversionRateOf)]
  }

  /** "Revenue Leader": the first team with the highest total value. */
  function RevenueLeader(ts: seq<TeamStats>): TeamStats
    requires |ts| > 0
  {
    ts[LeaderIndex(ts, TotalValueOf)]
  }

  /** The top performer's rate is the highest, and no earlier team reaches it. */
  lemma TopPerformerSpec(ts: seq<TeamStats>)
    requires |ts| > 0
    ensures TopPerformer(ts) in ts
    ensures forall j :: 0 <= j < |ts| ==> ts[j].conversionRate <= TopPerformer(ts).conversionRate
    ensures forall j :: 0 <= j < LeaderIndex(ts, ConversionRateOf) ==> ts[j].conversionRate < TopPerformer(ts).conversionRate
  {
    LeaderIsFirstMaximum(ts, ConversionRateOf);
  }

  /** The revenue leader's value is the highest, and no earlier team reaches it. */
  lemma RevenueLeaderSpec(ts: seq<TeamStats>)
    requires |ts| > 0
    ensures RevenueLeader(ts) in ts
    ensures forall j :: 0 <= j < |ts| ==> ts[j].totalValue <= RevenueLeader(ts).totalValue
    ensures forall j :: 0 <= j < LeaderIndex(ts, TotalValueOf) ==> ts[j].totalValue < RevenueLeader(ts).totalValue
  {
    LeaderIsFirstMaximum(ts, TotalValueOf);
  }

  /** On the sample, Sales_A is both the top performer (100%) and the revenue leader (82000). */
  lemma SampleLeaders()
    ensures TopPerformer(GetTeamPerformance(MockRfps)) == TeamStats("Sales_A", 3, 3, 100, 82000)
    ensures RevenueLeader(GetTeamPerformance(MockRfps)) == TeamStats("Sales_A", 3, 3, 100, 82000)
  {
    SampleTeams();
    var ts := GetTeamPerformance(MockRfps);
    assert LeaderFrom(ts, ConversionRateOf, 0, 3) == 0;
    assert LeaderFrom(ts, ConversionRateOf, 0, 2) == 0;
    assert LeaderFrom(ts, TotalValueOf, 0, 3) == 0;
    assert LeaderFrom(ts, TotalValueOf, 0, 2) == 0;
  }
}
