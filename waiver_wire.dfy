/**
 * The Waiver Wire page: a pro-only list of free-agent recommendations, numbered from 1 in the
 * order of the recommendation feed.
 */
module WaiverPage {
  import opened Options
  import opened Engine
  import opened Access

  /** One entry of the recommendation feed (`mockWaiverPlayers`). */
  datatype WaiverCandidate = WaiverCandidate(
    id: string, name: string, team: string, position: string,
    availability: nat, recentPerformance: nat, priority: nat, reason: string)

  /** The page: `None` is the locked "Pro Feature" view, `Some` the numbered list. */
  function Render(s: Session, feed: seq<WaiverCandidate>): (v: Option<seq<(nat, WaiverCandidate)>>)
    ensures v.Some? <==> CanAccess(WaiverWireEntry, s)
    ensures v.Some? ==> |v.value| == |feed|
    ensures v.Some? ==> forall i :: 0 <= i < |feed| ==> v.value[i] == (i + 1, feed[i])
  {
    if CanAccessWaiverWire(s) then Some(RankedFrom(feed, 1)) else None
  }

  /** Only the "pro" tier unlocks the list: "premium", "free", unknown tiers and visitors see the lock. */
  lemma OnlyProSeesPicks(feed: seq<WaiverCandidate>, s: Session)
    ensures Render(s, feed).Some? <==> s == SignedIn("pro")
    ensures Render(SignedIn("premium"), feed).None? && Render(Anonymous, feed).None?
  {
  }
}
