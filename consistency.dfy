/**
 * The Consistency page: players selected by position and season games, sorted by consistency
 * score, labelled by five bands, with the premium-only advanced metrics and the summary cards.
 */
module ConsistencyPage {
  import opened Options
  import opened Seqs
  import opened Players
  import opened Engine
  import opened Access
  import opened Rounding

  datatype Level = Elite | Excellent | Good | Average | Volatile

  /** The emoji beside the level: gem, bullseye, check mark, lightning, chart. */
  datatype Icon = Gem | Bullseye | CheckMark | Lightning | Chart

  /** `getConsistencyLevel`: closed lower bounds at 90, 80, 70 and 60. */
  function LevelOf(score: int): (l: Level)
    ensures l == Elite <==> score >= 90
    ensures Grade(l) >= Grade(Excellent) <==> score >= 80
    ensures l == Volatile <==> score < 60
  {
    if score >= 90 then Elite
    else if score >= 80 then Excellent
    else if score >= 70 then Good
    else if score >= 60 then Average
    else Volatile
  }

  /** `getConsistencyIcon`. */
  function IconOf(score: int): (i: Icon)
    ensures i == LevelIcon(LevelOf(score))
  {
    if score >= 90 then Gem
    else if score >= 80 then Bullseye
    else if score >= 70 then CheckMark
    else if score >= 60 then Lightning
    else Chart
  }

  /** The icon that belongs to each level. */
  function LevelIcon(l: Level): Icon
  {
    match l
    case Elite => Gem
    case Excellent => Bullseye
    case Good => CheckMark
    case Average => Lightning
    case Volatile => Chart
  }

  /** Levels from worst (0) to best (4). */
  function Grade(l: Level): nat
  {
    match l
    case Volatile => 0
    case Average => 1
    case Good => 2
    case Excellent => 3
    case Elite => 4
  }

  /** A higher score never gets a lower level. */
  lemma LevelIsMonotone(a: int, b: int)
    requires a <= b
    ensures Grade(LevelOf(a)) <= Grade(LevelOf(b))
  {
  }

  /** The band edges. */
  lemma LevelBoundaries()
    ensures LevelOf(90) == Elite && LevelOf(89) == Excellent && LevelOf(80) == Excellent
    ensures LevelOf(79) == Good && LevelOf(70) == Good && LevelOf(69) == Average
    ensures LevelOf(60) == Average && LevelOf(59) == Volatile
  {
  }

  /** `filteredPlayers`: position token and at least `minGames` season games. */
  function Selected(feed: seq<Player>, token: string, minGames: int): seq<Player>
  {
    Filter(feed, BySelection(token, Season, minGames))
  }

  /** `sortedPlayers`: the selection, most consistent first. */
  function Sorted(feed: seq<Player>, token: string, minGames: int): seq<Player>
  {
    SortDesc(Selected(feed, token, minGames), ConsistencyScore)
  }

  /**
   * The listing holds exactly the selected players (matching position, enough season games), as a
   * permutation of the selection, most consistent first, equal scores in feed order.
   */
  lemma ListingIsSortedSelection(feed: seq<Player>, token: string, minGames: int, k: real)
    ensures forall i :: 0 <= i < |feed| ==>
              (feed[i] in Sorted(feed, token, minGames) <==>
               PositionMatches(feed[i], token) && feed[i].stats.gamesPlayed >= minGames)
    ensures multiset(Sorted(feed, token, minGames)) == multiset(Selected(feed, token, minGames))
    ensures NonIncreasing(Sorted(feed, token, minGames), ConsistencyScore)
    ensures Filter(Sorted(feed, token, minGames), KeyIs(ConsistencyScore, k))
         == Filter(Selected(feed, token, minGames), KeyIs(ConsistencyScore, k))
  {
    var sel := Selected(feed, token, minGames);
    forall i | 0 <= i < |feed|
      ensures feed[i] in Sorted(feed, token, minGames) <==> feed[i] in sel
    {
      assert feed[i] in multiset(sel) <==> feed[i] in multiset(Sorted(feed, token, minGames));
    }
    SortIsStable(sel, ConsistencyScore, k);
  }

  /** `calculateVariance`: a display proxy, the complement of the consistency score. */
  function Variance(p: Player): (v: int)
    ensures p.consistency <= 100 ==> 0 <= v <= 100
    ensures v + p.consistency == 100
  {
    100 - p.consistency
  }

  /** Boom rate: the nearest integer to 3/10 of the consistency score, halves rounded up. */
  function BoomRate(p: Player): (r: nat)
    ensures p.consistency <= 100 ==> r <= 30
    ensures -5 < 10 * r - 3 * p.consistency <= 5
  {
    var r := RoundDiv(3 * p.consistency, 10);
    assert p.consistency <= 100 ==> r <= 30 by {
      if p.consistency <= 100 {
        RoundDivAtMost(3 * p.consistency, 10, 30);
      }
    }
    r
  }

  datatype AdvancedMetrics = AdvancedMetrics(variance: int, floor: real, ceiling: real, boomRate: nat)

  /**
   * The premium panel of a row: variance, floor (0.7 of season fantasy points), ceiling (1.4 of
   * them) and boom rate, shown only to premium and pro users.
   */
  function Advanced(s: Session, p: Player): (r: Option<AdvancedMetrics>)
    ensures r.Some? <==> CanUsePremiumFeatures(s)
    ensures r.Some? ==> r.value.variance == Variance(p) && r.value.boomRate == BoomRate(p)
    ensures r.Some? ==> r.value.floor == 0.7 * p.stats.fantasyPoints && r.value.ceiling == 1.4 * p.stats.fantasyPoints
    ensures r.Some? && p.stats.fantasyPoints >= 0.0 ==>
              r.value.floor <= p.stats.fantasyPoints <= r.value.ceiling && r.value.ceiling == 2.0 * r.value.floor
    ensures r.Some? && p.consistency <= 100 ==> 0 <= r.value.variance <= 100 && r.value.boomRate <= 30
  {
    if CanUsePremiumFeatures(s) then
      Some(AdvancedMetrics(Variance(p), p.stats.fantasyPoints * 0.7, p.stats.fantasyPoints * 1.4, BoomRate(p)))
    else None
  }

  predicate IsReliable(p: Player)
  {
    p.consistency >= 80
  }

  predicate IsEliteOrExcellent(p: Player)
  {
    LevelOf(p.consistency) == Elite || LevelOf(p.consistency) == Excellent
  }

  /** The "Reliable Players" card: sorted players scoring 80 or more. */
  function ReliableCount(sorted: seq<Player>): nat
  {
    Count(sorted, IsReliable)
  }

  /** The reliable count is the number of listed players labelled Elite or Excellent, and the sort does not change it. */
  lemma ReliableMeansTopTwoLevels(feed: seq<Player>, token: string, minGames: int)
    ensures ReliableCount(Sorted(feed, token, minGames)) == Count(Sorted(feed, token, minGames), IsEliteOrExcellent)
    ensures ReliableCount(Sorted(feed, token, minGames)) == Count(Selected(feed, token, minGames), IsReliable)
  {
    var sorted := Sorted(feed, token, minGames);
    FilterAgree(sorted, IsReliable, IsEliteOrExcellent);
    CountPermutation(sorted, Selected(feed, token, minGames), IsReliable);
  }

  function TotalConsistency(s: seq<Player>): nat
  {
    if s == [] then 0 else s[0].consistency + TotalConsistency(s[1..])
  }

  /** The "League Average" card: the rounded mean score, or `None` where the page shows NaN for an empty list. */
  function LeagueAverage(sorted: seq<Player>): (r: Option<nat>)
    ensures r.None? <==> sorted == []
    ensures r.Some? ==>
              (2 * r.value - 1) * |sorted| <= 2 * TotalConsistency(sorted) < (2 * r.value + 1) * |sorted|
  {
    if sorted == [] then None else Some(RoundDiv(TotalConsistency(sorted), |sorted|))
  }

  lemma {:induction false} TotalBounds(s: seq<Player>, lo: nat, hi: nat)
    requires forall i :: 0 <= i < |s| ==> lo <= s[i].consistency <= hi
    ensures |s| * lo <= TotalConsistency(s) <= |s| * hi
  {
    if s != [] {
      TotalBounds(s[1..], lo, hi);
      var n := |s| - 1;
      assert |s[1..]| == n;
      assert |s| * lo == n * lo + lo;
      assert |s| * hi == n * hi + hi;
    }
  }

  /** The average lies between any lower and upper bound of the scores (so within 0..100 for valid scores). */
  lemma AverageWithinBounds(sorted: seq<Player>, lo: nat, hi: nat)
    requires forall i :: 0 <= i < |sorted| ==> lo <= sorted[i].consistency <= hi
    ensures LeagueAverage(sorted).None? <==> sorted == []
    ensures LeagueAverage(sorted).Some? ==> lo <= LeagueAverage(sorted).value <= hi
  {
    if sorted != [] {
      TotalBounds(sorted, lo, hi);
      RoundDivAtMost(TotalConsistency(sorted), |sorted|, hi);
      RoundDivAtLeast(TotalConsistency(sorted), |sorted|, lo);
    }
  }

  /** The "Most Consistent" card: the head of the listing has the highest score of the selection. */
  lemma MostConsistentIsMax(feed: seq<Player>, token: string, minGames: int)
    requires Selected(feed, token, minGames) != []
    ensures forall p :: p in Selected(feed, token, minGames) ==>
              p.consistency <= Sorted(feed, token, minGames)[0].consistency
  {
    SortedHeadIsMax(Selected(feed, token, minGames), ConsistencyScore);
  }
}
