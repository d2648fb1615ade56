/**
 * The player record of the data feed (the `Player` interface of src/data/mockData.ts) and the
 * accessors the pages select from it: sort metrics, game-count windows and name search.
 * Statistics and trends are exact reals; trade value, games played and consistency are naturals.
 */
module Players {

  /** Season aggregates (`stats`). */
  datatype SeasonStats = SeasonStats(
    points: real, rebounds: real, assists: real, steals: real, blocks: real,
    threePointers: real, fieldGoalPercentage: real, gamesPlayed: nat, fantasyPoints: real)

  /** Averages over the last five games (`last5Games`): no games-played count. */
  datatype RecentStats = RecentStats(
    points: real, rebounds: real, assists: real, steals: real, blocks: real,
    threePointers: real, fantasyPoints: real)

  /** Averages over the last week or month (`lastWeek`, `lastMonth`), with the games in that window. */
  datatype WindowStats = WindowStats(
    points: real, rebounds: real, assists: real, steals: real, blocks: real,
    threePointers: real, fantasyPoints: real, gamesPlayed: nat)

  datatype InjuryStatus = Healthy | Questionable | Out | DayToDay

  datatype Player = Player(
    id: string, name: string, team: string, position: string,
    stats: SeasonStats, last5Games: RecentStats, lastWeek: WindowStats, lastMonth: WindowStats,
    injuryStatus: InjuryStatus,
    tradeValue: nat, consistency: nat, efficiency: nat, hotScore: nat,
    weeklyTrend: real, monthlyTrend: real)

  /** The quantities the pages sort by. */
  datatype Metric =
    | SeasonFantasyPoints | SeasonPoints | SeasonRebounds | SeasonAssists
    | RecentFantasyPoints | ConsistencyScore | WeeklyTrend | MonthlyTrend

  function Key(p: Player, m: Metric): real
  {
    match m
    case SeasonFantasyPoints => p.stats.fantasyPoints
    case SeasonPoints => p.stats.points
    case SeasonRebounds => p.stats.rebounds
    case SeasonAssists => p.stats.assists
    case RecentFantasyPoints => p.last5Games.fantasyPoints
    case ConsistencyScore => p.consistency as real
    case WeeklyTrend => p.weeklyTrend
    case MonthlyTrend => p.monthlyTrend
  }

  /** Which games-played count a minimum-games filter looks at. */
  datatype GamesWindow = Season | LastWeek | LastMonth

  function GamesIn(p: Player, w: GamesWindow): nat
  {
    match w
    case Season => p.stats.gamesPlayed
    case LastWeek => p.lastWeek.gamesPlayed
    case LastMonth => p.lastMonth.gamesPlayed
  }

  /** The position selector: the token "all" matches every player, any other token only itself. */
  predicate PositionMatches(p: Player, token: string)
  {
    token == "all" || p.position == token
  }

  predicate IsInjured(p: Player)
  {
    p.injuryStatus != Healthy
  }

  predicate IsHealthy(p: Player)
  {
    p.injuryStatus == Healthy
  }

  /** ASCII lower-casing (`toLowerCase` restricted to ASCII letters). */
  function Lower(s: string): (r: string)
    ensures |r| == |s|
    ensures forall i :: 0 <= i < |s| ==> (r[i] == s[i] <==> !('A' <= s[i] <= 'Z'))
    ensures forall i :: 0 <= i < |s| && 'A' <= s[i] <= 'Z' ==> r[i] as int == s[i] as int + 32
  {
    if s == [] then []
    else [if 'A' <= s[0] <= 'Z' then (s[0] as int + 32) as char else s[0]] + Lower(s[1..])
  }

  predicate StartsWith(text: string, pattern: string)
  {
    |pattern| <= |text| && text[..|pattern|] == pattern
  }

  /** Whether `pattern` occurs as a contiguous piece of `text`. */
  predicate Contains(text: string, pattern: string)
  {
    StartsWith(text, pattern) || (text != [] && Contains(text[1..], pattern))
  }

  /** The name search of PlayerComparison and TradeAnalyzer: case-insensitive substring match. */
  predicate NameMatches(p: Player, term: string)
  {
    Contains(Lower(p.name), Lower(term))
  }

  /** An empty search term matches every name. */
  lemma EmptyTermMatchesAll(p: Player)
    ensures NameMatches(p, "")
  {
    assert Lower("") == "";
    assert StartsWith(Lower(p.name), "");
  }
}
