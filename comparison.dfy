/**
 * The Player Comparison page: two name searches that pick a player each, a per-statistic verdict
 * for the two picked players, and an upgrade notice for free or anonymous visitors.
 */
module ComparisonPage {
  import opened Options
  import opened Seqs
  import opened Players
  import opened Access

  datatype Verdict = Better | Worse | Equal

  /** The verdicts of one statistics row, for the left and the right player. */
  datatype StatComparison = StatComparison(player1: Verdict, player2: Verdict)

  /** `getStatComparison`: the strictly larger value is better; equal values are equal. */
  function Compare(stat1: real, stat2: real): (c: StatComparison)
    ensures c.player1 == Better <==> stat1 > stat2
    ensures c.player1 == Worse <==> stat1 < stat2
    ensures c.player1 == Equal <==> stat1 == stat2
    ensures c.player2 == Mirror(c.player1)
  {
    if stat1 > stat2 then StatComparison(Better, Worse)
    else if stat2 > stat1 then StatComparison(Worse, Better)
    else StatComparison(Equal, Equal)
  }

  function Mirror(v: Verdict): Verdict
  {
    match v
    case Better => Worse
    case Worse => Better
    case Equal => Equal
  }

  /**
   * The twelve rows of the comparison panel: eight season statistics, then four over the last
   * five games.
   */
  function Rows(p1: Player, p2: Player): (rows: seq<StatComparison>)
    ensures |rows| == 12
    ensures rows[0] == Compare(p1.stats.fantasyPoints, p2.stats.fantasyPoints)
    ensures rows[1] == Compare(p1.stats.points, p2.stats.points)
    ensures rows[2] == Compare(p1.stats.rebounds, p2.stats.rebounds)
    ensures rows[3] == Compare(p1.stats.assists, p2.stats.assists)
    ensures rows[4] == Compare(p1.stats.steals, p2.stats.steals)
    ensures rows[5] == Compare(p1.stats.blocks, p2.stats.blocks)
    ensures rows[6] == Compare(p1.stats.threePointers, p2.stats.threePointers)
    ensures rows[7] == Compare(p1.stats.fieldGoalPercentage, p2.stats.fieldGoalPercentage)
    ensures rows[8] == Compare(p1.last5Games.fantasyPoints, p2.last5Games.fantasyPoints)
    ensures rows[9] == Compare(p1.last5Games.points, p2.last5Games.points)
    ensures rows[10] == Compare(p1.last5Games.rebounds, p2.last5Games.rebounds)
    ensures rows[11] == Compare(p1.last5Games.assists, p2.last5Games.assists)
  {
    [ Compare(p1.stats.fantasyPoints, p2.stats.fantasyPoints),
      Compare(p1.stats.points, p2.stats.points),
      Compare(p1.stats.rebounds, p2.stats.rebounds),
      Compare(p1.stats.assists, p2.stats.assists),
      Compare(p1.stats.steals, p2.stats.steals),
      Compare(p1.stats.blocks, p2.stats.blocks),
      Compare(p1.stats.threePointers, p2.stats.threePointers),
      Compare(p1.stats.fieldGoalPercentage, p2.stats.fieldGoalPercentage),
      Compare(p1.last5Games.fantasyPoints, p2.last5Games.fantasyPoints),
      Compare(p1.last5Games.points, p2.last5Games.points),
      Compare(p1.last5Games.rebounds, p2.last5Games.rebounds),
      Compare(p1.last5Games.assists, p2.last5Games.assists) ]
  }

  /**
   * Swapping the two players swaps every row's verdicts, and a player compared with itself is
   * equal on every row.
   */
  lemma SwappingPlayersSwapsVerdicts(p1: Player, p2: Player)
    ensures forall i :: 0 <= i < 12 ==>
              Rows(p2, p1)[i] == StatComparison(Rows(p1, p2)[i].player2, Rows(p1, p2)[i].player1)
    ensures forall i :: 0 <= i < 12 ==> Rows(p1, p1)[i] == StatComparison(Equal, Equal)
  {
  }

  function MatchesName(term: string): Player -> bool
  {
    (p: Player) => NameMatches(p, term)
  }

  /** `filteredPlayers1` / `filteredPlayers2`: players whose name contains the term, ignoring case. */
  function Search(feed: seq<Player>, term: string): (r: seq<Player>)
    ensures forall i :: 0 <= i < |r| ==> r[i] in feed && NameMatches(r[i], term)
    ensures forall i :: 0 <= i < |feed| && NameMatches(feed[i], term) ==> feed[i] in r
  {
    Filter(feed, MatchesName(term))
  }

  /** The drop-down list under a search box: shown only while the term is non-empty. */
  function Dropdown(feed: seq<Player>, term: string): seq<Player>
  {
    if term == "" then [] else Search(feed, term)
  }

  /** Lower-casing twice is lower-casing once. */
  lemma {:induction false} LowerIsIdempotent(s: string)
    ensures Lower(Lower(s)) == Lower(s)
  {
    if s != [] {
      LowerIsIdempotent(s[1..]);
      assert Lower(s)[1..] == Lower(s[1..]);
    }
  }

  /**
   * The search keeps feed order and returns exactly the players whose lower-cased name contains
   * the lower-cased term; the empty term keeps the whole feed; and the case of the term does not
   * matter.
   */
  lemma SearchIsCaseInsensitiveFilter(feed: seq<Player>, term: string)
    ensures IsSubsequence(Search(feed, term), feed)
    ensures forall i :: 0 <= i < |feed| ==>
              (feed[i] in Search(feed, term) <==> Contains(Lower(feed[i].name), Lower(term)))
    ensures forall i :: 0 <= i < |feed| && NameMatches(feed[i], term) ==>
              multiset(Search(feed, term))[feed[i]] == multiset(feed)[feed[i]]
    ensures Search(feed, "") == feed
    ensures Search(feed, Lower(term)) == Search(feed, term)
  {
    FilterIsSubsequence(feed, MatchesName(term));
    forall i | 0 <= i < |feed| && NameMatches(feed[i], term)
      ensures multiset(Search(feed, term))[feed[i]] == multiset(feed)[feed[i]]
    {
      FilterMultiplicity(feed, MatchesName(term), feed[i]);
    }
    forall i | 0 <= i < |feed| ensures MatchesName("")(feed[i]) {
      EmptyTermMatchesAll(feed[i]);
    }
    FilterKeepsAll(feed, MatchesName(""));
    LowerIsIdempotent(term);
    FilterAgree(feed, MatchesName(Lower(term)), MatchesName(term));
  }

  /** One side of the page: the picked player and the text of its search box. */
  datatype Picker = Picker(selected: Option<Player>, term: string)

  /** The initial pick of a side: the feed's player at that index, if there is one. */
  function InitialPicker(feed: seq<Player>, index: nat): (pk: Picker)
    ensures pk.term == ""
    ensures pk.selected.Some? <==> index < |feed|
    ensures pk.selected.Some? ==> pk.selected.value == feed[index]
  {
    Picker(if index < |feed| then Some(feed[index]) else None, "")
  }

  /** Clicking entry `k` of the drop-down: that player is picked and the search box is cleared. */
  function Choose(feed: seq<Player>, pk: Picker, k: nat): (r: Picker)
    requires k < |Dropdown(feed, pk.term)|
    ensures r.selected == Some(Dropdown(feed, pk.term)[k])
    ensures r.selected.value in feed && NameMatches(r.selected.value, pk.term)
    ensures r.term == "" && Dropdown(feed, r.term) == []
  {
    Picker(Some(Dropdown(feed, pk.term)[k]), "")
  }

  /**
   * The upgrade notice: it sits inside the comparison panel, which exists only once both sides
   * have a player, and is shown there to no user or the "free" tier.
   */
  predicate ShowsUpsell(s: Session, left: Picker, right: Picker)
  {
    left.selected.Some? && right.selected.Some? && IsFreeOrAnonymous(s)
  }

  /**
   * Premium and pro users never see the notice; nobody sees it while a side is empty; with both
   * players picked, anonymous and free visitors always do.
   */
  lemma UpsellExcludesPremium(s: Session, left: Picker, right: Picker)
    ensures CanUsePremiumFeatures(s) ==> !ShowsUpsell(s, left, right)
    ensures left.selected.None? || right.selected.None? ==> !ShowsUpsell(s, left, right)
    ensures left.selected.Some? && right.selected.Some? ==>
              ShowsUpsell(Anonymous, left, right) && ShowsUpsell(SignedIn("free"), left, right)
  {
  }
}
