/**
 * The Dashboard page: signed-in users only; a position-filtered player table, the three best
 * season scorers, the three best recent scorers and the count of players not healthy.
 */
module DashboardPage {
  import opened Seqs
  import opened Players
  import opened Engine
  import opened Access
  import opened Rounding

  datatype Overview = Overview(
    table: seq<Player>, topPerformers: seq<Player>, hotPlayers: seq<Player>, injuries: nat)

  datatype View = SignInRequired | Dashboard(overview: Overview)

  /** What the page shows to a session, for the feed and the selected position token. */
  function Render(s: Session, feed: seq<Player>, token: string): (v: View)
    ensures v.SignInRequired? <==> !CanAccess(DashboardEntry, s)
  {
    if s.Anonymous? then SignInRequired
    else Dashboard(Overview(
      PositionView(feed, token),
      Top(feed, SeasonFantasyPoints, 3),
      Top(feed, RecentFantasyPoints, 3),
      InjuredCount(feed)))
  }

  /**
   * A signed-in user sees the players of the selected position in feed order and the count of
   * players not healthy; both lists of three come from the whole feed whatever position is chosen.
   */
  lemma OverviewForSignedIn(s: Session, feed: seq<Player>, token: string)
    requires s.SignedIn?
    ensures Render(s, feed, token).Dashboard?
    ensures Render(s, feed, token).overview.table == Filter(feed, ByPosition(token))
    ensures Render(s, feed, token).overview.topPerformers == Top(feed, SeasonFantasyPoints, 3)
    ensures Render(s, feed, token).overview.hotPlayers == Top(feed, RecentFantasyPoints, 3)
    ensures Render(s, feed, token).overview.injuries + Count(feed, IsHealthy) == |feed|
  {
    var v := Render(s, feed, token);
    assert v == Dashboard(Overview(
      PositionView(feed, token), Top(feed, SeasonFantasyPoints, 3), Top(feed, RecentFantasyPoints, 3),
      InjuredCount(feed)));
    PositionViewIsFilter(feed, token);
    InjuredCountComplement(feed);
  }

  /**
   * The top-performers and hot-players lists: up to three players, sorted by the list's metric,
   * drawn from the feed, and leaving out nobody who beats a listed player.
   */
  lemma TopThreeIsBest(feed: seq<Player>, m: Metric, p: Player)
    ensures |Top(feed, m, 3)| == Min(3, |feed|)
    ensures NonIncreasing(Top(feed, m, 3), m)
    ensures multiset(Top(feed, m, 3)) <= multiset(feed)
    ensures multiset(Top(feed, m, 3))[p] < multiset(feed)[p] ==>
              forall j :: 0 <= j < |Top(feed, m, 3)| ==> Key(p, m) <= Key(Top(feed, m, 3)[j], m)
  {
    TopIsSortedSlice(feed, m, 3);
    if multiset(Top(feed, m, 3))[p] < multiset(feed)[p] {
      TopKeepsBest(feed, m, 3, p);
    }
  }

  /** The two headline cards: with a non-empty feed, the first entries carry the feed's maxima. */
  lemma HeadlinesAreMaxima(feed: seq<Player>)
    requires feed != []
    ensures forall p :: p in feed ==>
              p.stats.fantasyPoints <= Top(feed, SeasonFantasyPoints, 3)[0].stats.fantasyPoints
    ensures forall p :: p in feed ==>
              p.last5Games.fantasyPoints <= Top(feed, RecentFantasyPoints, 3)[0].last5Games.fantasyPoints
  {
    TopHeadIsMax(feed, SeasonFantasyPoints, 3);
    TopHeadIsMax(feed, RecentFantasyPoints, 3);
  }
}
