# WNBA fantasy dashboard: the decision core in Dafny

The dashboard is a set of React pages over a feed of WNBA player records. Almost all of it is
markup. The decisions it makes, though, can be stated exactly, and this project models them and
proves their properties:

- **Trade Analyzer** (`trade.dfy`, module `Trade`). The trade being built is a class,
  `TradeBuilder`, whose fields are the component's state. That state is the list of
  `(player, side)` entries, the search term, the selected side and the stored analysis. Its
  methods are the event handlers: add, pick from the list, remove, and analyse. The analysis is
  pure. It sums the trade values on each side and computes the fairness score
  `round(min / max * 100)`. It then picks a recommendation with a fixed precedence: a score of 85
  or more, then receiving more than 1.15 times what is given, then giving more than 1.15 times
  what is received, then neutral.
- **Tier access** (`access.dfy`, module `Access`). The menu's navigation table and its
  `canAccess` rule. Also the per-page gates: waiver wire, premium features, and the free-or-anonymous
  test that both the trade guard and the comparison upsell use.
- **List engine** (`seqs.dfy`, `engine.dfy`). An order-preserving filter and count. A stable
  sort in descending order of a chosen metric. The pages copy the list and call JavaScript's
  stable `Array.prototype.sort`; the model uses an insertion sort, which is stable by construction.
  A top-n slice, and rank numbering from 1.
- **Pages**:
  - Consistency: `consistency.dfy`
  - Hot Players: `hot_players.dfy`
  - Rankings: `rankings.dfy`
  - Dashboard: `dashboard.dfy`
  - Player Comparison: `comparison.dfy`
  - Waiver Wire: `waiver_wire.dfy`

  Each page module composes the engine with that page's threshold classifiers, summary cards and
  gate.

The signed-in user is a parameter, `Session = Anonymous | SignedIn(tier)`. The tier is any
string, so unrecognised tokens are covered. Statistics and trends are exact reals. Trade values,
games played and consistency scores are naturals. `Math.round` of a non-negative ratio is the
exact integer `RoundDiv` (module `Rounding`).

Where the code reaches an unguarded division, the model follows what JavaScript computes:

- A trade in which both sides are worth 0 gets the score NaN and the recommendation neutral.
  This is `Score.NotANumber`. The theorem is that neutral happens exactly then.
- A Rankings trend indicator with a season average of 0 divides by zero. A positive recent
  average gives +Infinity (hot), a negative one -Infinity (cold), and 0 gives NaN (steady).
- The league average of an empty listing is NaN. It is `None` here.

Other points worth knowing:

- The handler `analyzeTrade` guards itself more loosely than the page does. Its own check lets
  through any signed-in tier other than "free"; the button that calls it, its only caller, is
  enabled only for "premium" and "pro". So the loose guard is never reached with another tier.
  `Access.TradeGatesOnUnknownTier` states the difference between the two checks.
  `Trade.TradeBuilder.AnalyzeTrade` models the handler on its own, and
  `Trade.TradeBuilder.ClickAnalyze` models the button click, after which the analysis is shown.
- The menu's `canAccess` has an identical copy for the mobile menu at `src/components/Navbar.tsx:133`.
  Both copies are modelled by the one predicate `Access.CanAccess`. A required tier that is the
  empty string counts as no requirement, as JavaScript's falsy test makes it; the navigation
  table itself has no such entry.

## Model

| member | source | states |
|---|---|---|
| Players.Lower | src/pages/PlayerComparison.tsx:13-15 | lower-casing keeps the length, turns each upper-case ASCII letter into its lower-case letter and leaves every other character unchanged |
| Players.EmptyTermMatchesAll | src/pages/PlayerComparison.tsx:13-15 | every name contains the empty search term |
| Engine.SortDesc | src/pages/Consistency.tsx:17 | the sorted copy is a permutation of its input and is non-increasing in the chosen metric |
| Engine.SortIsStable | src/pages/Consistency.tsx:17 | for every metric value, the players having that value appear in the sorted copy in the same order as in the input |
| Engine.SortedHeadIsMax | src/pages/Consistency.tsx:248-251 | the first sorted player has the largest metric of the whole input |
| Engine.TopIsSortedSlice | src/pages/Dashboard.tsx:14-16 | the top-n slice has length min(n, size), is non-increasing, and is drawn from the input |
| Engine.TopHeadIsMax | src/pages/Dashboard.tsx:14-16 | for n > 0 and a non-empty input, the slice's head carries the input's maximum |
| Engine.TopKeepsBest | src/pages/Dashboard.tsx:14-16 | any player left out of the slice is no better than every player in it |
| Engine.RankedFrom | src/pages/WaiverWire.tsx:68-78 | entry i of the numbered list is the list's i-th element with number first + i |
| Engine.RanksAreOneToN | src/pages/Rankings.tsx:125-126 | ranks start at 1, rise by one per row, end at n, and keep the rows' players |
| Engine.PositionViewIsFilter | src/pages/Rankings.tsx:9-11 | "all" returns the feed unchanged; any other token returns the exact-position subsequence, in feed order |
| Engine.SelectionIsExact | src/pages/Consistency.tsx:11-15 | the position-and-games filter is a subsequence that keeps every matching player as often as the feed has it, and no other player |
| Engine.InjuredCountComplement | src/pages/Dashboard.tsx:98 | the injury count plus the healthy count is the feed size, so it counts exactly the players not healthy |
| Access.CanAccess | src/components/Navbar.tsx:56 | open entries are open to everyone; an entry needing sign-in is open only to signed-in users; a user whose tier equals the entry's required tier is admitted |
| Access.CanAccessWaiverWire | src/pages/WaiverWire.tsx:9 | whoever may open the Waiver Wire may also use the premium features |
| Access.CanUsePremiumFeatures | src/pages/TradeAnalyzer.tsx:89 | a premium-feature user is signed in and is neither anonymous nor on the "free" tier |
| Access.IsFreeOrAnonymous | src/pages/PlayerComparison.tsx:260 | every anonymous visitor qualifies, and nobody who qualifies may open the Waiver Wire |
| Access.CanAccessCases | src/components/Navbar.tsx:56 | case by case: open entries are open to all; signed-in-only entries need a user; "pro" entries need exactly "pro"; "premium" entries admit "premium" and "pro" |
| Access.PublicEntriesOpen | src/components/Navbar.tsx:29-37 | every table entry not requiring sign-in is open to every session, anonymous included |
| Access.DashboardNeedsSignInOnly | src/components/Navbar.tsx:30 | the Dashboard entry is open exactly to signed-in users, whatever the tier |
| Access.WaiverWireIsProOnly | src/components/Navbar.tsx:36 | the Waiver Wire entry is open exactly to tier "pro"; "premium", "free" and anonymous visitors are denied |
| Access.ProContainsPremium | src/components/Navbar.tsx:56 | a "premium" entry is open to "pro", but a "pro" entry is not open to "premium" |
| Access.SigningInIsMonotone | src/components/Navbar.tsx:56 | an entry open to an anonymous visitor is open to every signed-in user |
| Access.WaiverGateAgreesWithMenu | src/pages/WaiverWire.tsx:9 | the page's own gate equals the menu's rule for the Waiver Wire entry, for every session |
| Access.PremiumGateAgreesWithMenu | src/pages/TradeAnalyzer.tsx:89 | the premium gate equals the menu's rule for an entry requiring "premium" |
| Access.TradeGatesOnUnknownTier | src/pages/TradeAnalyzer.tsx:37-39 | the premium gate implies that the analysis guard passes; tier "gold" passes the guard yet fails the premium gate |
| Rounding.RoundDiv | src/pages/TradeAnalyzer.tsx:43 | the result is the nearest integer to a / b, with halves rounded up |
| Rounding.RoundDivBelow | src/pages/TradeAnalyzer.tsx:48 | the rounded ratio is below k exactly when 2a < (2k - 1)b |
| Trade.SidesPartition | src/pages/TradeAnalyzer.tsx:23-24 | the give and receive lists split the trade: sizes, multisets, trade-value sums and fantasy-point sums add up to the whole |
| Trade.Fairness | src/pages/TradeAnalyzer.tsx:43 | NaN exactly when both sides are 0; otherwise the nearest integer to 100 × min / max, halves rounded up |
| Trade.Recommend | src/pages/TradeAnalyzer.tsx:48-60 | the reasoning always fits the verdict: accept with "balanced" or "great value", decline with "poor value", neutral with "moderate" |
| Trade.Analyze | src/pages/TradeAnalyzer.tsx:36-71 | the record holds the trade-value and season-fantasy-point sums of the give and receive lists, each pair adding up to the whole trade, with the score and verdict of the value sums |
| Trade.Candidates | src/pages/TradeAnalyzer.tsx:18-21 | every listed candidate is a feed player whose name matches and who is not in the trade; every such feed player is listed |
| Trade.CandidatesAreExact | src/pages/TradeAnalyzer.tsx:18-21 | the candidate list keeps feed order and holds each eligible feed record exactly as often as the feed does, and no other record |
| Trade.WithoutPlayer | src/pages/TradeAnalyzer.tsx:32 | no entry with the id remains, every entry with another id is kept, and the list does not grow |
| Trade.FairnessBounds | src/pages/TradeAnalyzer.tsx:43 | the score is NaN exactly when both sides are 0; it is at most 100, is 100 for equal positive sides, and is symmetric in the sides |
| Trade.UnfairMeansLopsided | src/pages/TradeAnalyzer.tsx:43-48 | a score below 85 holds exactly when 200·min < 169·max |
| Trade.RecommendationMeaning | src/pages/TradeAnalyzer.tsx:48-60 | neutral exactly when both sides are 0; decline exactly when giving more with a score under 85; accept exactly when the score is fair or receiving at least as much, and more than 0; "balanced" reasoning exactly when fair |
| Trade.SwapSides | src/pages/TradeAnalyzer.tsx:43-60 | swapping sides keeps the score; for an unfair trade it turns accept into decline and back; a fair trade stays accepted as balanced |
| Trade.KnownTrades | src/pages/TradeAnalyzer.tsx:43-60 | 95 against 82 scores 86 and is accepted as balanced; 50 against 100 scores 50 and is great value; 100 against 50 is declined as poor value |
| Trade.OfferedTradeIsDecided | src/pages/TradeAnalyzer.tsx:36-71 | with both sides non-empty and positive trade values, the analysis is never neutral, the score is a percentage, and the two values add up to the trade's total |
| Trade.PickingKeepsIdsUnique | src/pages/TradeAnalyzer.tsx:18-21 | adding any listed candidate keeps player ids unique in the trade |
| Trade.SidesDisjoint | src/pages/TradeAnalyzer.tsx:23-24 | with unique ids, no player is on both sides |
| Trade.UniqueIdOccursOnce | src/pages/TradeAnalyzer.tsx:31-34 | with unique ids, a player in the trade occurs in it exactly once |
| Trade.RemovalIsExact | src/pages/TradeAnalyzer.tsx:31-34 | removal leaves no entry with the id and keeps every other entry in order and as many times as before; it keeps ids unique, and then removes exactly one entry of a player present |
| Trade.TradeBuilder.constructor | src/pages/TradeAnalyzer.tsx:13-16 | the trade starts empty, with an empty search, the give side selected and no analysis |
| Trade.TradeBuilder.SetSearchTerm | src/pages/TradeAnalyzer.tsx:145 | only the search term changes |
| Trade.TradeBuilder.SelectSide | src/pages/TradeAnalyzer.tsx:118-128 | only the selected side changes |
| Trade.TradeBuilder.AddPlayer | src/pages/TradeAnalyzer.tsx:26-29 | exactly one entry is appended at the end and the search is cleared; the earlier entries and the analysis are unchanged |
| Trade.TradeBuilder.PickCandidate | src/pages/TradeAnalyzer.tsx:153-156 | a click appends the k-th listed candidate on the selected side and keeps ids unique |
| Trade.TradeBuilder.RemovePlayer | src/pages/TradeAnalyzer.tsx:31-34 | the trade becomes the id-filtered list and the stored analysis is reset |
| Trade.TradeBuilder.AnalyzeTrade | src/pages/TradeAnalyzer.tsx:36-71 | no user or tier "free": nothing changes; otherwise the stored analysis is that of the current trade, and nothing else changes |
| Trade.TradeBuilder.FilteredPlayers | src/pages/TradeAnalyzer.tsx:18-21 | the picker lists exactly the feed players matching the current search who are not in the current trade |
| Trade.TradeBuilder.ClickAnalyze | src/pages/TradeAnalyzer.tsx:243-247 | with both sides filled and a premium or pro user, a click stores the analysis of the current trade, the result panel shows it, and nothing else changes |
| Trade.TradeBuilder.ShownAnalysis | src/pages/TradeAnalyzer.tsx:260 | an analysis is shown only to premium and pro users, and to them it is exactly the stored one |
| ConsistencyPage.LevelOf | src/pages/Consistency.tsx:19-25 | Elite exactly from 90; Excellent or better exactly from 80; Volatile exactly below 60 |
| ConsistencyPage.IconOf | src/pages/Consistency.tsx:27-33 | the icon is the one belonging to the score's level, so the icon function uses exactly the level function's five bands |
| ConsistencyPage.LevelIsMonotone | src/pages/Consistency.tsx:19-25 | a higher score never gets a lower level |
| ConsistencyPage.LevelBoundaries | src/pages/Consistency.tsx:19-25 | band edges: 90 is Elite, 89 and 80 Excellent, 79 and 70 Good, 69 and 60 Average, 59 Volatile |
| ConsistencyPage.ListingIsSortedSelection | src/pages/Consistency.tsx:11-17 | the listing has exactly the players matching the position with at least minGames season games; it is a permutation of the selection, non-increasing in consistency, and stable on ties |
| ConsistencyPage.Variance | src/pages/Consistency.tsx:35-39 | variance complements the consistency score to 100, and lies in 0..100 when the score does |
| ConsistencyPage.BoomRate | src/pages/Consistency.tsx:225 | the boom rate is the nearest integer to 0.3 × consistency, and at most 30 for a valid score |
| ConsistencyPage.Advanced | src/pages/Consistency.tsx:211-229 | the panel exists exactly for premium and pro users; it shows the player's variance and boom rate, a floor of 0.7 and a ceiling of 1.4 times the season fantasy points (so floor ≤ points ≤ ceiling = 2 × floor for non-negative points), variance in 0..100 and boom rate at most 30 |
| ConsistencyPage.ReliableMeansTopTwoLevels | src/pages/Consistency.tsx:263 | the reliable count equals the number of listed players labelled Elite or Excellent, and is unchanged by the sort |
| ConsistencyPage.LeagueAverage | src/pages/Consistency.tsx:276 | no average exactly for an empty listing; otherwise the nearest integer to the mean score, halves rounded up |
| ConsistencyPage.TotalBounds | src/pages/Consistency.tsx:276 | the score total lies between size × lower bound and size × upper bound |
| ConsistencyPage.AverageWithinBounds | src/pages/Consistency.tsx:276 | the average is absent exactly for an empty listing, and otherwise lies within any bounds of the scores |
| ConsistencyPage.MostConsistentIsMax | src/pages/Consistency.tsx:248-251 | the "most consistent" card shows the selection's highest score |
| HotPlayersPage.ListingFollowsTimeframe | src/pages/HotPlayers.tsx:10-23 | the listing has exactly the players matching the position with at least minGames games in the timeframe's window; it is a stable permutation, non-increasing in that timeframe's trend |
| HotPlayersPage.HotLevelOf | src/pages/HotPlayers.tsx:25-31 | blazing exactly from 20; hot or hotter exactly from 10; warm or hotter exactly from 5; cold exactly below 0 |
| HotPlayersPage.TrendIcon | src/pages/HotPlayers.tsx:33-36 | the arrow points up exactly for a positive trend, and an up arrow never goes with the cold level |
| HotPlayersPage.HotLevelIsMonotone | src/pages/HotPlayers.tsx:25-31 | a larger trend never gets a colder level |
| HotPlayersPage.HotLevelBoundaries | src/pages/HotPlayers.tsx:25-31 | band edges: 20 blazing, 19.999 and 10 hot, 9.999 and 5 warm, 4.999 and 0 steady, -0.001 cold |
| HotPlayersPage.ArrowAgreesWithLevel | src/pages/HotPlayers.tsx:33-36 | warm and hotter point up, and cold points down; a trend of exactly 0 is steady yet points down |
| HotPlayersPage.SurgingAtMostRising | src/pages/HotPlayers.tsx:250-263 | the count above 15 never exceeds the count above 5 |
| HotPlayersPage.HottestIsMax | src/pages/HotPlayers.tsx:235-238 | the "hottest" card shows the selection's largest trend |
| RankingsPage.TableIsRankedView | src/pages/Rankings.tsx:9-18 | rows are numbered 1..n; they hold a permutation of the position view, non-increasing in the chosen stat and stable on ties |
| RankingsPage.IndicatorOf | src/pages/Rankings.tsx:37-48 | for a season average of 0, hot exactly for a positive and cold exactly for a negative recent average (JavaScript's infinities); an unchanged average is steady |
| RankingsPage.PercentChangeThresholds | src/pages/Rankings.tsx:40-44 | for a positive season average, the change is above 5 % exactly when recent > 1.05 × season, and below -5 % exactly when recent < 0.95 × season |
| RankingsPage.IndicatorThresholds | src/pages/Rankings.tsx:37-48 | for a positive season average: hot exactly above 105 %, cold exactly below 95 %, steady in between |
| RankingsPage.SummaryIgnoresSelection | src/pages/Rankings.tsx:188-216 | the hot and injury counts are taken over the whole feed, whatever is selected; injuries are the players not healthy; the listing holds no more hot players than the feed; the leader has the listing's largest stat |
| DashboardPage.Render | src/pages/Dashboard.tsx:32-42 | the sign-in view is shown exactly when the menu closes the Dashboard entry, which is to anonymous visitors |
| DashboardPage.OverviewForSignedIn | src/pages/Dashboard.tsx:10-20 | a signed-in user gets the position-filtered table, the two top-3 lists over the whole feed, and the count of players not healthy |
| DashboardPage.TopThreeIsBest | src/pages/Dashboard.tsx:14-20 | each top-3 list has min(3, n) players, is sorted, comes from the feed, and leaves out nobody better than a listed player |
| DashboardPage.HeadlinesAreMaxima | src/pages/Dashboard.tsx:66-84 | the two headline cards show the feed's maximum season and recent fantasy points |
| ComparisonPage.Compare | src/pages/PlayerComparison.tsx:21-25 | left is better exactly when its stat is larger, worse exactly when smaller, and equal exactly when equal; the right verdict mirrors the left one |
| ComparisonPage.Rows | src/pages/PlayerComparison.tsx:182-257 | the panel has twelve rows, in page order: season fantasy points, points, rebounds, assists, steals, blocks, three-pointers and field-goal percentage, then last-five-games fantasy points, points, rebounds and assists; each row compares that statistic of the two players |
| ComparisonPage.Search | src/pages/PlayerComparison.tsx:13-19 | every result is a feed player whose name matches the term, and every matching feed player is in the result |
| ComparisonPage.SwappingPlayersSwapsVerdicts | src/pages/PlayerComparison.tsx:21-25 | swapping the players swaps every row's verdicts, and a player compared with itself is equal on every row |
| ComparisonPage.LowerIsIdempotent | src/pages/PlayerComparison.tsx:13-15 | lower-casing twice equals lower-casing once |
| ComparisonPage.SearchIsCaseInsensitiveFilter | src/pages/PlayerComparison.tsx:13-19 | the search result is an order-preserving subsequence of exactly the case-insensitive substring matches, each kept as many times as the feed holds it; an empty term keeps the whole feed; the term's case does not matter |
| ComparisonPage.InitialPicker | src/pages/PlayerComparison.tsx:8-11 | each side starts on the feed's player at its index, if there is one, with an empty search |
| ComparisonPage.Choose | src/pages/PlayerComparison.tsx:83-89 | a click picks exactly the clicked drop-down entry, which is a feed player matching the term; it clears the search and hides the drop-down |
| ComparisonPage.UpsellExcludesPremium | src/pages/PlayerComparison.tsx:161-260 | premium and pro users never see the upsell; nobody sees it while a side has no player; once both players are picked, anonymous and free visitors always do |
| WaiverPage.Render | src/pages/WaiverWire.tsx:9-78 | the list is shown exactly when the menu opens the Waiver Wire entry; it then numbers the feed 1..n in feed order |
| WaiverPage.OnlyProSeesPicks | src/pages/WaiverWire.tsx:9-36 | only tier "pro" sees the list; "premium" users and anonymous visitors get the locked view |

## Left out

- Markup, CSS classes, colour and icon mappers, `toFixed` formatting and `capitalize`: presentation only.
  The consistency and hot-level labels are modelled, but not their colours and descriptions.
- The landing, pricing and routing pages, the sign-in modal and the authentication context.
  The session is an explicit parameter.
- React state is "the current value of a field": re-rendering, batching and effects are not modelled.
  Page selectors (position, minimum games, timeframe, sort field) are function parameters.
- The feed data in `src/data/mockData.ts` is not reproduced. Only the `Player` shape is, plus the
  waiver candidate record. Every property holds for every feed.
- IEEE doubles are not modelled: statistics are exact reals, and trade values and scores are integers.
- Trade.Fairness: the fairness score is the exactly rounded ratio. In doubles, `min / max * 100`
  can land just below an exact .5 and round down. For example, 23 against 40 displays 57 where the
  exact value 57.5 rounds to 58. This never happens at the 84.5 edge, so the recommendation is unaffected.
- RankingsPage.IndicatorThresholds: thresholds are stated on exact reals. A double-rounded ratio
  could flip a recent average lying exactly on 95 % or 105 % of the season average.
- Name search lower-cases ASCII letters only. Unicode case folding is a library call outside this model.
- The waiver priority, availability and reason fields are displayed, not computed.
  The list is shown in feed order, as the page does.
