/**
 * The Trade Analyzer: the trade being built (a list of players, each tagged with the side that
 * gives or receives it), the candidate picker, and the fairness evaluation with its
 * recommendation. Trade values are naturals, so the evaluation is exact: the score is the
 * rounded percentage `round(min / max * 100)` and the thresholds compare with exact 1.15.
 */
module Trade {
  import opened Options
  import opened Seqs
  import opened Players
  import opened Access
  import opened Rounding

  datatype Side = Give | Receive

  datatype TradePlayer = TradePlayer(player: Player, side: Side)

  datatype Recommendation = Accept | Decline | Neutral

  /** The four explanations the page shows beside a recommendation. */
  datatype Reasoning = BalancedExchange | GreatValue | PoorValue | ModerateTrade

  /** A fairness score; `NotANumber` is what JavaScript computes for 0 / 0 when both sides are worth 0. */
  datatype Score = Score(value: nat) | NotANumber

  datatype TradeAnalysis = TradeAnalysis(
    fairnessScore: Score, giveValue: nat, receiveValue: nat,
    recommendation: Recommendation, reasoning: Reasoning,
    giveFantasyPoints: real, receiveFantasyPoints: real)

  // ---------------------------------------------------------------------------------------------
  // Sides and sums

  function OnSide(side: Side): TradePlayer -> bool
  {
    (tp: TradePlayer) => tp.side == side
  }

  function GivePlayers(tps: seq<TradePlayer>): seq<TradePlayer>
  {
    Filter(tps, OnSide(Give))
  }

  function ReceivePlayers(tps: seq<TradePlayer>): seq<TradePlayer>
  {
    Filter(tps, OnSide(Receive))
  }

  /** The sum of the trade values of the entries, starting from 0. */
  function TotalValue(tps: seq<TradePlayer>): nat
  {
    if tps == [] then 0 else tps[0].player.tradeValue + TotalValue(tps[1..])
  }

  /** The sum of season fantasy points, reported beside the values. */
  function TotalFantasyPoints(tps: seq<TradePlayer>): real
  {
    if tps == [] then 0.0 else tps[0].player.stats.fantasyPoints + TotalFantasyPoints(tps[1..])
  }

  /** The give and receive lists split the trade: every entry lands on exactly one side. */
  lemma SidesPartition(tps: seq<TradePlayer>)
    ensures |GivePlayers(tps)| + |ReceivePlayers(tps)| == |tps|
    ensures multiset(GivePlayers(tps)) + multiset(ReceivePlayers(tps)) == multiset(tps)
    ensures TotalValue(GivePlayers(tps)) + TotalValue(ReceivePlayers(tps)) == TotalValue(tps)
    ensures TotalFantasyPoints(GivePlayers(tps)) + TotalFantasyPoints(ReceivePlayers(tps)) == TotalFantasyPoints(tps)
  {
    SidesCoverTrade(tps);
    assert |multiset(GivePlayers(tps)) + multiset(ReceivePlayers(tps))| == |multiset(tps)|;
    SidesShareValue(tps);
    SidesShareFantasyPoints(tps);
  }

  lemma {:induction false} SidesCoverTrade(tps: seq<TradePlayer>)
    ensures multiset(GivePlayers(tps)) + multiset(ReceivePlayers(tps)) == multiset(tps)
  {
    if tps != [] {
      SidesCoverTrade(tps[1..]);
      assert tps == [tps[0]] + tps[1..];
      if tps[0].side == Give {
        assert GivePlayers(tps) == [tps[0]] + GivePlayers(tps[1..]);
        assert ReceivePlayers(tps) == ReceivePlayers(tps[1..]);
      } else {
        assert ReceivePlayers(tps) == [tps[0]] + ReceivePlayers(tps[1..]);
        assert GivePlayers(tps) == GivePlayers(tps[1..]);
      }
    }
  }

  lemma {:induction false} SidesShareValue(tps: seq<TradePlayer>)
    ensures TotalValue(GivePlayers(tps)) + TotalValue(ReceivePlayers(tps)) == TotalValue(tps)
  {
    if tps != [] {
      SidesShareValue(tps[1..]);
      if tps[0].side == Give {
        assert GivePlayers(tps)[1..] == GivePlayers(tps[1..]);
        assert ReceivePlayers(tps) == ReceivePlayers(tps[1..]);
      } else {
        assert ReceivePlayers(tps)[1..] == ReceivePlayers(tps[1..]);
        assert GivePlayers(tps) == GivePlayers(tps[1..]);
      }
    }
  }

  lemma {:induction false} SidesShareFantasyPoints(tps: seq<TradePlayer>)
    ensures TotalFantasyPoints(GivePlayers(tps)) + TotalFantasyPoints(ReceivePlayers(tps)) == TotalFantasyPoints(tps)
  {
    if tps != [] {
      SidesShareFantasyPoints(tps[1..]);
      if tps[0].side == Give {
        assert GivePlayers(tps)[1..] == GivePlayers(tps[1..]);
        assert ReceivePlayers(tps) == ReceivePlayers(tps[1..]);
      } else {
        assert ReceivePlayers(tps)[1..] == ReceivePlayers(tps[1..]);
        assert GivePlayers(tps) == GivePlayers(tps[1..]);
      }
    }
  }

  // ---------------------------------------------------------------------------------------------
  // Fairness and recommendation

  /** The fairness score: the smaller side as a rounded percentage of the larger, on the exact ratio. */
  function Fairness(giveValue: nat, receiveValue: nat): (r: Score)
    ensures r.NotANumber? <==> giveValue == 0 && receiveValue == 0
    ensures r.Score? ==>
              (2 * r.value - 1) * Max(giveValue, receiveValue) <= 200 * Min(giveValue, receiveValue)
                                                              < (2 * r.value + 1) * Max(giveValue, receiveValue)
  {
    var lo, hi := Min(giveValue, receiveValue), Max(giveValue, receiveValue);
    if hi == 0 then NotANumber else Score(RoundDiv(100 * lo, hi))
  }

  /** The score is a percentage, 100 for equal non-zero sides, symmetric, and undefined only for 0 versus 0. */
  lemma FairnessBounds(giveValue: nat, receiveValue: nat)
    ensures Fairness(giveValue, receiveValue).NotANumber? <==> giveValue == 0 && receiveValue == 0
    ensures Fairness(giveValue, receiveValue).Score? ==> Fairness(giveValue, receiveValue).value <= 100
    ensures giveValue == receiveValue && giveValue > 0 ==> Fairness(giveValue, receiveValue) == Score(100)
    ensures Fairness(giveValue, receiveValue) == Fairness(receiveValue, giveValue)
  {
    var lo, hi := Min(giveValue, receiveValue), Max(giveValue, receiveValue);
    if hi > 0 {
      RoundDivAtMost(100 * lo, hi, 100);
      if lo == hi {
        RoundDivAtLeast(100 * lo, hi, 100);
      }
    }
  }

  /** A score below 85 means the smaller side is worth less than 169/200 of the larger one. */
  lemma UnfairMeansLopsided(giveValue: nat, receiveValue: nat)
    requires Max(giveValue, receiveValue) > 0
    ensures Fairness(giveValue, receiveValue).value < 85 <==>
              200 * Min(giveValue, receiveValue) < 169 * Max(giveValue, receiveValue)
  {
    RoundDivBelow(100 * Min(giveValue, receiveValue), Max(giveValue, receiveValue), 85);
  }

  /** The policy, in precedence order: fair score, receiving more, giving more, otherwise neutral. */
  function Recommend(giveValue: nat, receiveValue: nat): (r: (Recommendation, Reasoning))
    ensures r.0 == Accept <==> r.1 == BalancedExchange || r.1 == GreatValue
    ensures r.0 == Decline <==> r.1 == PoorValue
    ensures r.0 == Neutral <==> r.1 == ModerateTrade
  {
    var score := Fairness(giveValue, receiveValue);
    if score.Score? && score.value >= 85 then (Accept, BalancedExchange)
    else if receiveValue as real > giveValue as real * 1.15 then (Accept, GreatValue)
    else if giveValue as real > receiveValue as real * 1.15 then (Decline, PoorValue)
    else (Neutral, ModerateTrade)
  }

  predicate IsFair(giveValue: nat, receiveValue: nat)
  {
    Fairness(giveValue, receiveValue).Score? && Fairness(giveValue, receiveValue).value >= 85
  }

  /**
   * What the recommendation means: accept when the score is fair or you receive at least as much
   * as you give; decline exactly when you give more and the score is unfair; and the neutral
   * branch is reached only when both sides are worth 0 (JavaScript's NaN score).
   */
  lemma {:induction false} RecommendationMeaning(giveValue: nat, receiveValue: nat)
    ensures Recommend(giveValue, receiveValue).0 == Neutral <==> giveValue == 0 && receiveValue == 0
    ensures Recommend(giveValue, receiveValue).0 == Decline <==>
              giveValue > receiveValue && !IsFair(giveValue, receiveValue)
    ensures Recommend(giveValue, receiveValue).0 == Accept <==>
              IsFair(giveValue, receiveValue) || (receiveValue >= giveValue && receiveValue > 0)
    ensures Recommend(giveValue, receiveValue).1 == BalancedExchange <==> IsFair(giveValue, receiveValue)
  {
    FairnessBounds(giveValue, receiveValue);
    if Max(giveValue, receiveValue) > 0 {
      UnfairMeansLopsided(giveValue, receiveValue);
    }
  }

  /** Swapping the sides keeps the score, and an unfair trade turns from accept to decline and back. */
  lemma {:induction false} SwapSides(giveValue: nat, receiveValue: nat)
    ensures Fairness(giveValue, receiveValue) == Fairness(receiveValue, giveValue)
    ensures !IsFair(giveValue, receiveValue) && Max(giveValue, receiveValue) > 0 ==>
              (Recommend(giveValue, receiveValue).0 == Accept <==> Recommend(receiveValue, giveValue).0 == Decline)
    ensures IsFair(giveValue, receiveValue) ==> Recommend(receiveValue, giveValue) == (Accept, BalancedExchange)
  {
    FairnessBounds(giveValue, receiveValue);
    RecommendationMeaning(giveValue, receiveValue);
    RecommendationMeaning(receiveValue, giveValue);
  }

  /** Test vectors: 95 against 82 scores 86 and is accepted as balanced; 50 against 100 scores 50 and is great value. */
  lemma KnownTrades()
    ensures Fairness(95, 82) == Score(86) && Recommend(95, 82) == (Accept, BalancedExchange)
    ensures Fairness(50, 100) == Score(50) && Recommend(50, 100) == (Accept, GreatValue)
    ensures Recommend(100, 50) == (Decline, PoorValue)
  {
  }

  /** The analysis record that `analyzeTrade` stores. */
  function Analyze(tps: seq<TradePlayer>): (a: TradeAnalysis)
    ensures a.giveValue == TotalValue(GivePlayers(tps)) && a.receiveValue == TotalValue(ReceivePlayers(tps))
    ensures a.giveValue + a.receiveValue == TotalValue(tps)
    ensures a.giveFantasyPoints == TotalFantasyPoints(GivePlayers(tps))
    ensures a.receiveFantasyPoints == TotalFantasyPoints(ReceivePlayers(tps))
    ensures a.giveFantasyPoints + a.receiveFantasyPoints == TotalFantasyPoints(tps)
    ensures a.fairnessScore == Fairness(a.giveValue, a.receiveValue)
    ensures (a.recommendation, a.reasoning) == Recommend(a.giveValue, a.receiveValue)
  {
    SidesPartition(tps);
    var give, receive := GivePlayers(tps), ReceivePlayers(tps);
    var gv, rv := TotalValue(give), TotalValue(receive);
    var verdict := Recommend(gv, rv);
    TradeAnalysis(Fairness(gv, rv), gv, rv, verdict.0, verdict.1,
                  TotalFantasyPoints(give), TotalFantasyPoints(receive))
  }

  /**
   * When the button is offered (both sides non-empty) and every player has a positive trade value,
   * the analysis is never neutral and its score is a percentage; the two values add up to the trade.
   */
  lemma OfferedTradeIsDecided(tps: seq<TradePlayer>)
    requires GivePlayers(tps) != [] && ReceivePlayers(tps) != []
    requires forall i :: 0 <= i < |tps| ==> tps[i].player.tradeValue > 0
    ensures Analyze(tps).giveValue + Analyze(tps).receiveValue == TotalValue(tps)
    ensures Analyze(tps).recommendation != Neutral
    ensures Analyze(tps).fairnessScore.Score? && Analyze(tps).fairnessScore.value <= 100
  {
    var give := GivePlayers(tps);
    SidesPartition(tps);
    assert give[0] in tps;
    assert TotalValue(give) >= give[0].player.tradeValue > 0;
    RecommendationMeaning(TotalValue(give), TotalValue(ReceivePlayers(tps)));
    FairnessBounds(TotalValue(give), TotalValue(ReceivePlayers(tps)));
  }

  // ---------------------------------------------------------------------------------------------
  // The candidate picker and the identity of players in the trade

  /** Whether some entry of the trade is the player with this id. */
  predicate InTrade(tps: seq<TradePlayer>, id: string)
  {
    exists i :: 0 <= i < |tps| && tps[i].player.id == id
  }

  ghost predicate IdsUnique(tps: seq<TradePlayer>)
  {
    forall i, j :: 0 <= i < j < |tps| ==> tps[i].player.id != tps[j].player.id
  }

  function IsCandidate(term: string, tps: seq<TradePlayer>): Player -> bool
  {
    (p: Player) => NameMatches(p, term) && !InTrade(tps, p.id)
  }

  /** The picker list: feed players whose name matches the search and who are not in the trade yet. */
  function Candidates(feed: seq<Player>, term: string, tps: seq<TradePlayer>): (r: seq<Player>)
    ensures forall i :: 0 <= i < |r| ==> r[i] in feed && NameMatches(r[i], term) && !InTrade(tps, r[i].id)
    ensures forall i :: 0 <= i < |feed| && NameMatches(feed[i], term) && !InTrade(tps, feed[i].id) ==>
              feed[i] in r
  {
    Filter(feed, IsCandidate(term, tps))
  }

  /**
   * The picker list keeps feed order, and lists each eligible feed record as often as the feed
   * holds it and no other record.
   */
  lemma CandidatesAreExact(feed: seq<Player>, term: string, tps: seq<TradePlayer>, p: Player)
    ensures IsSubsequence(Candidates(feed, term, tps), feed)
    ensures multiset(Candidates(feed, term, tps))[p] ==
              if NameMatches(p, term) && !InTrade(tps, p.id) then multiset(feed)[p] else 0
  {
    FilterIsSubsequence(feed, IsCandidate(term, tps));
    FilterMultiplicity(feed, IsCandidate(term, tps), p);
  }

  /** Picking any listed candidate keeps player ids unique within the trade. */
  lemma PickingKeepsIdsUnique(feed: seq<Player>, term: string, tps: seq<TradePlayer>, k: nat, side: Side)
    requires IdsUnique(tps)
    requires k < |Candidates(feed, term, tps)|
    ensures IdsUnique(tps + [TradePlayer(Candidates(feed, term, tps)[k], side)])
  {
    var p := Candidates(feed, term, tps)[k];
    assert !InTrade(tps, p.id);
    var t := tps + [TradePlayer(p, side)];
    forall i, j | 0 <= i < j < |t| ensures t[i].player.id != t[j].player.id {
      if j == |tps| {
        assert t[i] == tps[i];
      } else {
        assert t[i] == tps[i] && t[j] == tps[j];
      }
    }
  }

  /** With unique ids, no player is on both sides of the trade. */
  lemma SidesDisjoint(tps: seq<TradePlayer>)
    requires IdsUnique(tps)
    ensures forall i, j :: 0 <= i < |GivePlayers(tps)| && 0 <= j < |ReceivePlayers(tps)| ==>
              GivePlayers(tps)[i].player.id != ReceivePlayers(tps)[j].player.id
  {
    var give, receive := GivePlayers(tps), ReceivePlayers(tps);
    forall i, j | 0 <= i < |give| && 0 <= j < |receive|
      ensures give[i].player.id != receive[j].player.id
    {
      var a :| 0 <= a < |tps| && tps[a] == give[i];
      var b :| 0 <= b < |tps| && tps[b] == receive[j];
      assert a != b;
    }
  }

  function HasOtherId(id: string): TradePlayer -> bool
  {
    (tp: TradePlayer) => tp.player.id != id
  }

  function HasId(id: string): TradePlayer -> bool
  {
    (tp: TradePlayer) => tp.player.id == id
  }

  /** The trade without the entries of the player with this id, the others in order. */
  function WithoutPlayer(tps: seq<TradePlayer>, id: string): (r: seq<TradePlayer>)
    ensures |r| <= |tps|
    ensures !InTrade(r, id)
    ensures forall i :: 0 <= i < |tps| && tps[i].player.id != id ==> tps[i] in r
  {
    Filter(tps, HasOtherId(id))
  }

  /** With unique ids, a player in the trade occurs in it exactly once. */
  lemma {:induction false} UniqueIdOccursOnce(tps: seq<TradePlayer>, id: string)
    requires IdsUnique(tps) && InTrade(tps, id)
    ensures Count(tps, HasId(id)) == 1
  {
    if tps[0].player.id == id {
      forall j | 0 <= j < |tps[1..]| ensures !HasId(id)(tps[1..][j]) {
        assert tps[1..][j] == tps[j + 1];
      }
      FilterKeepsNone(tps[1..], HasId(id));
    } else {
      var i :| 0 <= i < |tps| && tps[i].player.id == id;
      assert tps[1..][i - 1] == tps[i];
      UniqueIdOccursOnce(tps[1..], id);
    }
  }

  /**
   * Removing by id drops every entry with that id and keeps all others, in order; with unique ids
   * and the player present, exactly one entry goes.
   */
  lemma RemovalIsExact(tps: seq<TradePlayer>, id: string)
    ensures !InTrade(WithoutPlayer(tps, id), id)
    ensures IsSubsequence(WithoutPlayer(tps, id), tps)
    ensures forall i :: 0 <= i < |tps| && tps[i].player.id != id ==> tps[i] in WithoutPlayer(tps, id)
    ensures forall i :: 0 <= i < |tps| && tps[i].player.id != id ==>
              multiset(WithoutPlayer(tps, id))[tps[i]] == multiset(tps)[tps[i]]
    ensures IdsUnique(tps) ==> IdsUnique(WithoutPlayer(tps, id))
    ensures IdsUnique(tps) && InTrade(tps, id) ==> |WithoutPlayer(tps, id)| == |tps| - 1
  {
    var r := WithoutPlayer(tps, id);
    FilterIsSubsequence(tps, HasOtherId(id));
    forall i | 0 <= i < |tps| && tps[i].player.id != id
      ensures multiset(r)[tps[i]] == multiset(tps)[tps[i]]
    {
      FilterMultiplicity(tps, HasOtherId(id), tps[i]);
    }
    if IdsUnique(tps) {
      forall i, j | 0 <= i < j < |r| ensures r[i].player.id != r[j].player.id {
        SubsequenceKeepsDistinctIds(tps, id, i, j);
      }
      if InTrade(tps, id) {
        UniqueIdOccursOnce(tps, id);
        CountSplit(tps, HasId(id), HasOtherId(id));
      }
    }
  }

  /** Two different positions of the filtered list come from two different positions of the input. */
  lemma {:induction false} SubsequenceKeepsDistinctIds(tps: seq<TradePlayer>, id: string, i: nat, j: nat)
    requires IdsUnique(tps)
    requires i < j < |WithoutPlayer(tps, id)|
    ensures WithoutPlayer(tps, id)[i].player.id != WithoutPlayer(tps, id)[j].player.id
  {
    var r := WithoutPlayer(tps, id);
    assert IdsUnique(tps[1..]) by {
      forall a, b | 0 <= a < b < |tps[1..]| ensures tps[1..][a].player.id != tps[1..][b].player.id {
        assert tps[1..][a] == tps[a + 1] && tps[1..][b] == tps[b + 1];
      }
    }
    if tps[0].player.id != id {
      assert r == [tps[0]] + WithoutPlayer(tps[1..], id);
      if i == 0 {
        var y := r[j];
        assert y in WithoutPlayer(tps[1..], id);
        assert y in tps[1..];
        var b :| 0 <= b < |tps[1..]| && tps[1..][b] == y;
        assert tps[b + 1] == y;
      } else {
        SubsequenceKeepsDistinctIds(tps[1..], id, i - 1, j - 1);
      }
    } else {
      SubsequenceKeepsDistinctIds(tps[1..], id, i, j);
    }
  }

  // ---------------------------------------------------------------------------------------------
  // The component state

  /** The Trade Analyzer's state: the fields its event handlers update. */
  class TradeBuilder {
    var tradePlayers: seq<TradePlayer>
    var searchTerm: string
    var selectedSide: Side
    var tradeAnalysis: Option<TradeAnalysis>

    constructor ()
      ensures tradePlayers == [] && searchTerm == "" && selectedSide == Give && tradeAnalysis == None
    {
      tradePlayers := [];
      searchTerm := "";
      selectedSide := Give;
      tradeAnalysis := None;
    }

    /** The players listed under the search box. */
    function FilteredPlayers(feed: seq<Player>): (r: seq<Player>)
      reads this
      ensures forall i :: 0 <= i < |r| ==>
                r[i] in feed && NameMatches(r[i], searchTerm) && !InTrade(tradePlayers, r[i].id)
      ensures forall i :: 0 <= i < |feed| && NameMatches(feed[i], searchTerm) && !InTrade(tradePlayers, feed[i].id) ==>
                feed[i] in r
    {
      Candidates(feed, searchTerm, tradePlayers)
    }

    method SetSearchTerm(term: string)
      modifies this
      ensures searchTerm == term
      ensures tradePlayers == old(tradePlayers) && selectedSide == old(selectedSide)
      ensures tradeAnalysis == old(tradeAnalysis)
    {
      searchTerm := term;
    }

    method SelectSide(side: Side)
      modifies this
      ensures selectedSide == side
      ensures tradePlayers == old(tradePlayers) && searchTerm == old(searchTerm)
      ensures tradeAnalysis == old(tradeAnalysis)
    {
      selectedSide := side;
    }

    /** `addPlayer`: append one entry at the end and clear the search box. */
    method AddPlayer(player: Player, side: Side)
      modifies this
      ensures tradePlayers == old(tradePlayers) + [TradePlayer(player, side)]
      ensures searchTerm == "" && selectedSide == old(selectedSide)
      ensures tradeAnalysis == old(tradeAnalysis)
    {
      tradePlayers := tradePlayers + [TradePlayer(player, side)];
      searchTerm := "";
    }

    /**
     * A click on the k-th listed candidate (the list is shown only for a non-empty search):
     * adds that player on the selected side, and keeps ids unique.
     */
    method PickCandidate(feed: seq<Player>, k: nat)
      requires searchTerm != "" && k < |FilteredPlayers(feed)|
      requires IdsUnique(tradePlayers)
      modifies this
      ensures tradePlayers == old(tradePlayers) + [TradePlayer(old(FilteredPlayers(feed))[k], old(selectedSide))]
      ensures IdsUnique(tradePlayers)
      ensures searchTerm == "" && selectedSide == old(selectedSide) && tradeAnalysis == old(tradeAnalysis)
    {
      PickingKeepsIdsUnique(feed, searchTerm, tradePlayers, k, selectedSide);
      AddPlayer(FilteredPlayers(feed)[k], selectedSide);
    }

    /** `removePlayer`: drop every entry with this id and discard the stored analysis. */
    method RemovePlayer(id: string)
      modifies this
      ensures tradePlayers == WithoutPlayer(old(tradePlayers), id)
      ensures tradeAnalysis == None
      ensures searchTerm == old(searchTerm) && selectedSide == old(selectedSide)
    {
      tradePlayers := WithoutPlayer(tradePlayers, id);
      tradeAnalysis := None;
    }

    /** `analyzeTrade`: nothing for no user or a "free" user; otherwise store the analysis. */
    method AnalyzeTrade(s: Session)
      modifies this
      ensures tradePlayers == old(tradePlayers) && searchTerm == old(searchTerm)
      ensures selectedSide == old(selectedSide)
      ensures tradeAnalysis == if IsFreeOrAnonymous(s) then old(tradeAnalysis) else Some(Analyze(tradePlayers))
    {
      if IsFreeOrAnonymous(s) {
        return;
      }
      tradeAnalysis := Some(Analyze(tradePlayers));
    }

    /** The "Analyze Trade" button is shown only when both sides have players. */
    predicate AnalyzeOffered()
      reads this
    {
      GivePlayers(tradePlayers) != [] && ReceivePlayers(tradePlayers) != []
    }

    /**
     * A click on the "Analyze Trade" button, the only caller of `analyzeTrade`: the button is
     * offered when both sides have players and enabled only for premium and pro users, so the
     * analysis of the current trade is stored and the result panel shows it.
     */
    method ClickAnalyze(s: Session)
      requires AnalyzeOffered() && CanUsePremiumFeatures(s)
      modifies this
      ensures tradePlayers == old(tradePlayers) && searchTerm == old(searchTerm)
      ensures selectedSide == old(selectedSide)
      ensures tradeAnalysis == Some(Analyze(tradePlayers))
      ensures ShownAnalysis(s) == Some(Analyze(tradePlayers))
    {
      AnalyzeTrade(s);
    }

    /** The result panel: the stored analysis, shown only to premium or pro users. */
    function ShownAnalysis(s: Session): (r: Option<TradeAnalysis>)
      reads this
      ensures r.Some? ==> CanUsePremiumFeatures(s) && tradeAnalysis == r
      ensures CanUsePremiumFeatures(s) ==> r == tradeAnalysis
    {
      if tradeAnalysis.Some? && CanUsePremiumFeatures(s) then tradeAnalysis else None
    }
  }
}
