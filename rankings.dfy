/**
 * The Rankings page: the feed (or one position of it) sorted by a chosen season statistic and
 * numbered from 1, each row with a recent-versus-season trend indicator, plus two summary counts
 * taken over the whole feed.
 */
module RankingsPage {
  import opened Seqs
  import opened Players
  import opened Engine

  datatype SortBy = FantasyPoints | Points | Rebounds | Assists

  function MetricOf(sortBy: SortBy): Metric
  {
    match sortBy
    case FantasyPoints => SeasonFantasyPoints
    case Points => SeasonPoints
    case Rebounds => SeasonRebounds
    case Assists => SeasonAssists
  }

  /** `sortedPlayers`. */
  function Sorted(feed: seq<Player>, token: string, sortBy: SortBy): seq<Player>
  {
    SortDesc(PositionView(feed, token), MetricOf(sortBy))
  }

  /** The table rows: rank `index + 1` beside each sorted player. */
  function Rows(feed: seq<Player>, token: string, sortBy: SortBy): seq<(nat, Player)>
  {
    Ranked(Sorted(feed, token, sortBy))
  }

  /**
   * The table lists every player of the chosen position once per occurrence in the feed, ranked
   * 1..n by non-increasing statistic, with equal values in feed order.
   */
  lemma TableIsRankedView(feed: seq<Player>, token: string, sortBy: SortBy, k: real)
    ensures |Rows(feed, token, sortBy)| == |PositionView(feed, token)|
    ensures forall i :: 0 <= i < |Rows(feed, token, sortBy)| ==>
              Rows(feed, token, sortBy)[i].0 == i + 1 && Rows(feed, token, sortBy)[i].1 == Sorted(feed, token, sortBy)[i]
    ensures multiset(Sorted(feed, token, sortBy)) == multiset(PositionView(feed, token))
    ensures forall i, j :: 0 <= i < j < |Rows(feed, token, sortBy)| ==>
              Key(Rows(feed, token, sortBy)[j].1, MetricOf(sortBy)) <= Key(Rows(feed, token, sortBy)[i].1, MetricOf(sortBy))
    ensures Filter(Sorted(feed, token, sortBy), KeyIs(MetricOf(sortBy), k))
         == Filter(PositionView(feed, token), KeyIs(MetricOf(sortBy), k))
  {
    RanksAreOneToN(Sorted(feed, token, sortBy));
    SortIsStable(PositionView(feed, token), MetricOf(sortBy), k);
  }

  datatype Indicator = TrendingHot | TrendingCold | TrendingSteady

  /**
   * `getTrendIndicator`: diff = (recent - season) / season * 100, Hot above 5, Cold below -5.
   * For a zero season average JavaScript divides by zero: a positive recent average gives
   * +Infinity (Hot), a negative one -Infinity (Cold), and 0 gives NaN (Steady).
   */
  function IndicatorOf(seasonAvg: real, recentAvg: real): (r: Indicator)
    ensures seasonAvg == 0.0 ==> (r == TrendingHot <==> recentAvg > 0.0)
    ensures seasonAvg == 0.0 ==> (r == TrendingCold <==> recentAvg < 0.0)
    ensures recentAvg == seasonAvg ==> r == TrendingSteady
  {
    if seasonAvg == 0.0 then
      (if recentAvg > 0.0 then TrendingHot else if recentAvg < 0.0 then TrendingCold else TrendingSteady)
    else
      var diff := (recentAvg - seasonAvg) / seasonAvg * 100.0;
      if diff > 5.0 then TrendingHot else if diff < -5.0 then TrendingCold else TrendingSteady
  }

  function IndicatorFor(p: Player): Indicator
  {
    IndicatorOf(p.stats.fantasyPoints, p.last5Games.fantasyPoints)
  }

  /** For a positive season average: Hot above 105 %, Cold below 95 %, Steady in between. */
  lemma IndicatorThresholds(seasonAvg: real, recentAvg: real)
    requires seasonAvg > 0.0
    ensures IndicatorOf(seasonAvg, recentAvg) == TrendingHot <==> recentAvg > 1.05 * seasonAvg
    ensures IndicatorOf(seasonAvg, recentAvg) == TrendingCold <==> recentAvg < 0.95 * seasonAvg
    ensures IndicatorOf(seasonAvg, recentAvg) == TrendingSteady <==>
              0.95 * seasonAvg <= recentAvg <= 1.05 * seasonAvg
  {
    PercentChangeThresholds(seasonAvg, recentAvg);
  }

  /** The percentage change from the season to the recent average, against the two 5 % thresholds. */
  lemma PercentChangeThresholds(seasonAvg: real, recentAvg: real)
    requires seasonAvg > 0.0
    ensures (recentAvg - seasonAvg) / seasonAvg * 100.0 > 5.0 <==> recentAvg > 1.05 * seasonAvg
    ensures (recentAvg - seasonAvg) / seasonAvg * 100.0 < -5.0 <==> recentAvg < 0.95 * seasonAvg
  {
    var ratio := (recentAvg - seasonAvg) / seasonAvg;
    assert ratio * seasonAvg == recentAvg - seasonAvg;
    SignOfScaled(ratio - 0.05, seasonAvg);
    SignOfScaled(ratio + 0.05, seasonAvg);
    assert (ratio - 0.05) * seasonAvg == recentAvg - 1.05 * seasonAvg;
    assert (ratio + 0.05) * seasonAvg == recentAvg - 0.95 * seasonAvg;
  }

  /** Scaling by a positive factor keeps the sign. */
  lemma SignOfScaled(x: real, c: real)
    requires c > 0.0
    ensures x > 0.0 <==> x * c > 0.0
    ensures x < 0.0 <==> x * c < 0.0
  {
    if x > 0.0 {
      assert x * c > 0.0 * c;
    } else if x < 0.0 {
      assert (-x) * c > 0.0 * c;
    }
  }

  predicate IsTrendingHot(p: Player)
  {
    IndicatorFor(p) == TrendingHot
  }

  datatype Summary = Summary(leader: seq<Player>, trendingUp: nat, injuries: nat)

  /**
   * The summary cards: the leader of the sorted listing (none for an empty listing), and the
   * "Trending Up" and "Injury Report" counts, which the page takes over the whole feed.
   */
  function SummaryOf(feed: seq<Player>, token: string, sortBy: SortBy): Summary
  {
    var sorted := Sorted(feed, token, sortBy);
    Summary(if sorted == [] then [] else [sorted[0]], Count(feed, IsTrendingHot), InjuredCount(feed))
  }

  /**
   * Neither summary count depends on the position or the sort selected, the listing never holds
   * more hot players than the feed, and the leader has the largest statistic of the listing.
   */
  lemma SummaryIgnoresSelection(feed: seq<Player>, token: string, sortBy: SortBy, token2: string, sortBy2: SortBy)
    ensures SummaryOf(feed, token, sortBy).trendingUp == SummaryOf(feed, token2, sortBy2).trendingUp
    ensures SummaryOf(feed, token, sortBy).injuries == SummaryOf(feed, token2, sortBy2).injuries
    ensures SummaryOf(feed, token, sortBy).injuries + Count(feed, IsHealthy) == |feed|
    ensures Count(PositionView(feed, token), IsTrendingHot) <= SummaryOf(feed, token, sortBy).trendingUp
    ensures PositionView(feed, token) != [] ==>
              forall p :: p in PositionView(feed, token) ==>
                Key(p, MetricOf(sortBy)) <= Key(SummaryOf(feed, token, sortBy).leader[0], MetricOf(sortBy))
  {
    PositionViewIsFilter(feed, token);
    InjuredCountComplement(feed);
    CountInFilter(feed, ByPosition(token), IsTrendingHot);
    if PositionView(feed, token) != [] {
      SortedHeadIsMax(PositionView(feed, token), MetricOf(sortBy));
    }
  }
}
