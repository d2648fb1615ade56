/**
 * The Hot Players page: players selected by position and by the games they played in the chosen
 * window (last week or last month), sorted by that window's trend, labelled by five heat levels.
 */
module HotPlayersPage {
  import opened Seqs
  import opened Players
  import opened Engine

  datatype Timeframe = Week | Month

  /** Which games count the minimum-games filter reads. */
  function WindowOf(tf: Timeframe): GamesWindow
  {
    if tf == Week then LastWeek else LastMonth
  }

  /** Which trend the sort and the labels read. */
  function TrendMetric(tf: Timeframe): Metric
  {
    if tf == Week then WeeklyTrend else MonthlyTrend
  }

  /** `filteredPlayers`. */
  function Selected(feed: seq<Player>, tf: Timeframe, token: string, minGames: int): seq<Player>
  {
    Filter(feed, BySelection(token, WindowOf(tf), minGames))
  }

  /** `sortedPlayers`: hottest first. */
  function Sorted(feed: seq<Player>, tf: Timeframe, token: string, minGames: int): seq<Player>
  {
    SortDesc(Selected(feed, tf, token, minGames), TrendMetric(tf))
  }

  /**
   * The listing: exactly the players of the feed matching the position and with at least
   * `minGames` games in the timeframe's window, as a permutation of the selection, by
   * non-increasing trend of that timeframe, equal trends in feed order.
   */
  lemma ListingFollowsTimeframe(feed: seq<Player>, tf: Timeframe, token: string, minGames: int, k: real)
    ensures forall i :: 0 <= i < |feed| ==>
              (feed[i] in Sorted(feed, tf, token, minGames) <==>
               PositionMatches(feed[i], token) && GamesIn(feed[i], WindowOf(tf)) >= minGames)
    ensures multiset(Sorted(feed, tf, token, minGames)) == multiset(Selected(feed, tf, token, minGames))
    ensures NonIncreasing(Sorted(feed, tf, token, minGames), TrendMetric(tf))
    ensures Filter(Sorted(feed, tf, token, minGames), KeyIs(TrendMetric(tf), k))
         == Filter(Selected(feed, tf, token, minGames), KeyIs(TrendMetric(tf), k))
  {
    var sel := Selected(feed, tf, token, minGames);
    forall i | 0 <= i < |feed|
      ensures feed[i] in Sorted(feed, tf, token, minGames) <==> feed[i] in sel
    {
      assert feed[i] in multiset(sel) <==> feed[i] in multiset(Sorted(feed, tf, token, minGames));
    }
    SortIsStable(sel, TrendMetric(tf), k);
  }

  datatype HotLevel = Blazing | Hot | Warm | Steady | Cold

  /** `getHotLevel`: closed lower bounds at 20, 10, 5 and 0. */
  function HotLevelOf(trend: real): (l: HotLevel)
    ensures l == Blazing <==> trend >= 20.0
    ensures Heat(l) >= Heat(Hot) <==> trend >= 10.0
    ensures Heat(l) >= Heat(Warm) <==> trend >= 5.0
    ensures l == Cold <==> trend < 0.0
  {
    if trend >= 20.0 then Blazing
    else if trend >= 10.0 then Hot
    else if trend >= 5.0 then Warm
    else if trend >= 0.0 then Steady
    else Cold
  }

  /** Levels from coldest (0) to hottest (4). */
  function Heat(l: HotLevel): nat
  {
    match l
    case Cold => 0
    case Steady => 1
    case Warm => 2
    case Hot => 3
    case Blazing => 4
  }

  /** A larger trend never gets a colder level. */
  lemma HotLevelIsMonotone(a: real, b: real)
    requires a <= b
    ensures Heat(HotLevelOf(a)) <= Heat(HotLevelOf(b))
  {
  }

  lemma HotLevelBoundaries()
    ensures HotLevelOf(20.0) == Blazing && HotLevelOf(19.999) == Hot && HotLevelOf(10.0) == Hot
    ensures HotLevelOf(9.999) == Warm && HotLevelOf(5.0) == Warm && HotLevelOf(4.999) == Steady
    ensures HotLevelOf(0.0) == Steady && HotLevelOf(-0.001) == Cold
  {
  }

  datatype Arrow = Up | Down

  /** `getTrendIcon`: the arrow points up only for a strictly positive trend. */
  function TrendIcon(trend: real): (a: Arrow)
    ensures a == Up <==> trend > 0.0
    ensures a == Up ==> HotLevelOf(trend) != Cold
  {
    if trend > 0.0 then Up else Down
  }

  /**
   * The arrow and the level agree except at zero: warm and hotter point up, cold points down, and a
   * trend of exactly 0 is labelled steady yet gets the down arrow.
   */
  lemma ArrowAgreesWithLevel(trend: real)
    ensures Heat(HotLevelOf(trend)) >= Heat(Warm) ==> TrendIcon(trend) == Up
    ensures HotLevelOf(trend) == Cold ==> TrendIcon(trend) == Down
    ensures HotLevelOf(0.0) == Steady && TrendIcon(0.0) == Down
  {
  }

  function TrendAbove(tf: Timeframe, threshold: real): Player -> bool
  {
    (p: Player) => Key(p, TrendMetric(tf)) > threshold
  }

  /** The "Players Trending Up" card: trend above 5. */
  function RisingCount(sorted: seq<Player>, tf: Timeframe): nat
  {
    Count(sorted, TrendAbove(tf, 5.0))
  }

  /** The "Breakout Candidates" card: trend above 15. */
  function SurgingCount(sorted: seq<Player>, tf: Timeframe): nat
  {
    Count(sorted, TrendAbove(tf, 15.0))
  }

  /** Every breakout candidate is also trending up. */
  lemma SurgingAtMostRising(sorted: seq<Player>, tf: Timeframe)
    ensures SurgingCount(sorted, tf) <= RisingCount(sorted, tf)
  {
    CountMonotone(sorted, TrendAbove(tf, 15.0), TrendAbove(tf, 5.0));
  }

  /** The "Hottest Player" card: the head of the listing has the largest trend of the selection. */
  lemma HottestIsMax(feed: seq<Player>, tf: Timeframe, token: string, minGames: int)
    requires Selected(feed, tf, token, minGames) != []
    ensures forall p :: p in Selected(feed, tf, token, minGames) ==>
              Key(p, TrendMetric(tf)) <= Key(Sorted(feed, tf, token, minGames)[0], TrendMetric(tf))
  {
    SortedHeadIsMax(Selected(feed, tf, token, minGames), TrendMetric(tf));
  }
}
