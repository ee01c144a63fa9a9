/** The leaderboards page: rank icons, the signed difference against the
    average in the comparison panel, anonymous names and the coverage
    badge. */
module LeaderboardsPage {
  import opened Wrappers
  import opened Text
  import opened Types

  datatype RankIcon = Crown | Medal | Award | Numbered(text: string)

  /** `getRankIcon(rank)`. */
  function GetRankIcon(rank: int): RankIcon
  {
    if rank == 1 then Crown
    else if rank == 2 then Medal
    else if rank == 3 then Award
    else Numbered("#" + IntToString(rank))
  }

  /** The first three ranks get three different icons; every other rank is
      written out after a '#' and reads back. */
  lemma RankIcons(rank: int)
    ensures GetRankIcon(1) != GetRankIcon(2) && GetRankIcon(2) != GetRankIcon(3) && GetRankIcon(1) != GetRankIcon(3)
    ensures GetRankIcon(rank).Numbered? <==> rank != 1 && rank != 2 && rank != 3
    ensures GetRankIcon(rank).Numbered? ==>
              GetRankIcon(rank).text[0] == '#' && ParseInt(GetRankIcon(rank).text[1..]) == Some(rank)
  {
    if rank != 1 && rank != 2 && rank != 3 {
      ParseIntIntToString(rank);
      assert ("#" + IntToString(rank))[1..] == IntToString(rank);
    }
  }

  datatype Trend = Up | Down | Flat

  datatype Delta = Delta(trend: Trend, text: string)

  /** `getDelta(value, compareValue)`. */
  function GetDelta(value: int, compareValue: int): Delta
  {
    var delta := value - compareValue;
    if delta > 0 then Delta(Up, "+" + IntToString(delta))
    else if delta < 0 then Delta(Down, IntToString(delta))
    else Delta(Flat, "0")
  }

  /** The trend is the sign of the difference, and the text reads back as
      the difference itself; swapping the two values reverses the trend. */
  lemma DeltaMeaning(value: int, compareValue: int)
    ensures GetDelta(value, compareValue).trend == Up <==> value > compareValue
    ensures GetDelta(value, compareValue).trend == Down <==> value < compareValue
    ensures GetDelta(value, compareValue).trend == Flat <==> value == compareValue
    ensures ParseInt(GetDelta(value, compareValue).text) == Some(value - compareValue)
    ensures GetDelta(value, compareValue).trend == Up <==> GetDelta(compareValue, value).trend == Down
  {
    var delta := value - compareValue;
    if delta > 0 {
      ParseIntPlusNatToString(delta);
    } else if delta < 0 {
      ParseIntIntToString(delta);
    } else {
      ParseIntNatToString(0);
      assert NatToString(0) == "0";
    }
  }

  /** The four rows of the comparison panel, in order. */
  const PanelMetrics: seq<Metric> := [WeeklyMinutes, AvgTimePerRevision, Consistency, Coverage]

  /** The "vs Average" column: one delta per metric, you against average. */
  function VsAverage(c: ComparisonData): (r: seq<Delta>)
    ensures |r| == |PanelMetrics|
  {
    seq(|PanelMetrics|, k requires 0 <= k < |PanelMetrics| =>
      GetDelta(MetricOf(c.you, PanelMetrics[k]), MetricOf(c.average, PanelMetrics[k])))
  }

  /** Row `k` of the column states your lead over the average on metric `k`. */
  lemma VsAverageReadsBack(c: ComparisonData, k: nat)
    requires k < |PanelMetrics|
    ensures ParseInt(VsAverage(c)[k].text) == Some(MetricOf(c.you, PanelMetrics[k]) - MetricOf(c.average, PanelMetrics[k]))
    ensures VsAverage(c)[k].trend == Up <==> MetricOf(c.you, PanelMetrics[k]) > MetricOf(c.average, PanelMetrics[k])
  {
    DeltaMeaning(MetricOf(c.you, PanelMetrics[k]), MetricOf(c.average, PanelMetrics[k]));
  }

  /** The name column: `Student <rank>` in anonymous mode. */
  function DisplayName(e: LeaderboardEntry, isAnonymous: bool): string
  {
    if isAnonymous then "Student " + IntToString(e.rank) else e.name
  }

  /** In anonymous mode the name carries the rank and nothing else of the
      entry, so two different ranks never share a name. */
  lemma AnonymousNames(e: LeaderboardEntry, f: LeaderboardEntry)
    ensures DisplayName(e, true)[..8] == "Student "
    ensures ParseInt(DisplayName(e, true)[8..]) == Some(e.rank)
    ensures DisplayName(e, true) == DisplayName(f, true) ==> e.rank == f.rank
    ensures e.rank == f.rank ==> DisplayName(e, true) == DisplayName(f, true)
    ensures DisplayName(e, false) == e.name
  {
    assert DisplayName(e, true)[8..] == IntToString(e.rank);
    assert DisplayName(f, true)[8..] == IntToString(f.rank);
    ParseIntIntToString(e.rank);
    ParseIntIntToString(f.rank);
  }

  datatype Variant = Success | Warning | Destructive

  /** The coverage badge. */
  function CoverageVariant(coverage: int): Variant
  {
    if coverage >= 80 then Success else if coverage >= 60 then Warning else Destructive
  }

  function Level(v: Variant): nat
  {
    match v
    case Destructive => 0
    case Warning => 1
    case Success => 2
  }

  /** The badge improves with coverage: success from 80, warning from 60. */
  lemma CoverageVariantMonotone(c1: int, c2: int)
    requires c1 <= c2
    ensures Level(CoverageVariant(c1)) <= Level(CoverageVariant(c2))
    ensures CoverageVariant(c1) == Success <==> c1 >= 80
    ensures CoverageVariant(c1) == Warning <==> 60 <= c1 < 80
  {
  }
}
