/**
 * The filter / stable-sort / rank engine that the Consistency, Hot Players, Rankings and Dashboard
 * pages each write out inline: select by position token and minimum games, sort a copy descending
 * by a metric (JavaScript's `Array.prototype.sort` is stable), slice the top entries, number ranks
 * from 1, and count the injured.
 */
module Engine {
  import opened Seqs
  import opened Players
  import opened Rounding

  /** The order of a descending sort by the metric: keys never increase along the list. */
  ghost predicate NonIncreasing(s: seq<Player>, m: Metric)
  {
    forall i, j :: 0 <= i < j < |s| ==> Key(s[j], m) <= Key(s[i], m)
  }

  /** Selects the players whose metric equals `k`: the tie classes that a stable sort must not reorder. */
  function KeyIs(m: Metric, k: real): Player -> bool
  {
    (p: Player) => Key(p, m) == k
  }

  /** Putting a head no smaller than every element in front of a sorted list keeps it sorted. */
  lemma ConsSorted(h: Player, rest: seq<Player>, m: Metric)
    requires NonIncreasing(rest, m)
    requires forall y :: y in rest ==> Key(y, m) <= Key(h, m)
    ensures NonIncreasing([h] + rest, m)
  {
    var r := [h] + rest;
    forall i, j | 0 <= i < j < |r| ensures Key(r[j], m) <= Key(r[i], m) {
      assert r[j] == rest[j - 1];
      if i > 0 {
        assert r[i] == rest[i - 1];
      }
    }
  }

  /** Places `x` in front of the first element whose key does not exceed its own. */
  function Insert(x: Player, t: seq<Player>, m: Metric): (r: seq<Player>)
    ensures |r| == |t| + 1
    ensures multiset(r) == multiset(t) + multiset{x}
  {
    if t == [] || Key(t[0], m) <= Key(x, m) then [x] + t
    else
      assert t == [t[0]] + t[1..];
      [t[0]] + Insert(x, t[1..], m)
  }

  /** Every element of a sorted list is bounded by its head. */
  lemma HeadBounds(t: seq<Player>, m: Metric)
    requires NonIncreasing(t, m) && t != []
    ensures forall y :: y in t ==> Key(y, m) <= Key(t[0], m)
  {
    forall y | y in t ensures Key(y, m) <= Key(t[0], m) {
      var j :| 0 <= j < |t| && t[j] == y;
      assert j == 0 || Key(t[j], m) <= Key(t[0], m);
    }
  }

  /** Inserting into a sorted list keeps it sorted. */
  lemma {:induction false} InsertSorted(x: Player, t: seq<Player>, m: Metric)
    requires NonIncreasing(t, m)
    ensures NonIncreasing(Insert(x, t, m), m)
  {
    if t == [] || Key(t[0], m) <= Key(x, m) {
      if t != [] {
        HeadBounds(t, m);
      }
      ConsSorted(x, t, m);
    } else {
      assert t == [t[0]] + t[1..];
      var rest := Insert(x, t[1..], m);
      InsertSorted(x, t[1..], m);
      HeadBounds(t, m);
      forall y | y in rest ensures Key(y, m) <= Key(t[0], m) {
        assert y in multiset(rest);
      }
      ConsSorted(t[0], rest, m);
    }
  }

  /** The copy-and-sort of every page: descending by `m`, ties in their original order. */
  function SortDesc(s: seq<Player>, m: Metric): (r: seq<Player>)
    ensures |r| == |s|
    ensures multiset(r) == multiset(s)
    ensures NonIncreasing(r, m)
  {
    if s == [] then []
    else
      assert s == [s[0]] + s[1..];
      InsertSorted(s[0], SortDesc(s[1..], m), m);
      Insert(s[0], SortDesc(s[1..], m), m)
  }

  lemma {:induction false} InsertKeepsTies(x: Player, t: seq<Player>, m: Metric, k: real)
    ensures Filter(Insert(x, t, m), KeyIs(m, k))
         == (if Key(x, m) == k then [x] else []) + Filter(t, KeyIs(m, k))
  {
    if t == [] || Key(t[0], m) <= Key(x, m) {
      assert ([x] + t)[1..] == t;
    } else {
      InsertKeepsTies(x, t[1..], m, k);
      assert ([t[0]] + Insert(x, t[1..], m))[1..] == Insert(x, t[1..], m);
    }
  }

  /**
   * Stability: for every key value, the players carrying it appear in the sorted list in
   * exactly the order they had in the input.
   */
  lemma {:induction false} SortIsStable(s: seq<Player>, m: Metric, k: real)
    ensures Filter(SortDesc(s, m), KeyIs(m, k)) == Filter(s, KeyIs(m, k))
  {
    if s != [] {
      SortIsStable(s[1..], m, k);
      InsertKeepsTies(s[0], SortDesc(s[1..], m), m, k);
    }
  }

  /** The first entry of a sorted non-empty list has the largest key of the input. */
  lemma SortedHeadIsMax(s: seq<Player>, m: Metric)
    requires s != []
    ensures forall p :: p in s ==> Key(p, m) <= Key(SortDesc(s, m)[0], m)
  {
    var r := SortDesc(s, m);
    forall p | p in s ensures Key(p, m) <= Key(r[0], m) {
      assert p in multiset(s);
      assert p in multiset(r);
      var j :| 0 <= j < |r| && r[j] == p;
      assert j == 0 || Key(r[j], m) <= Key(r[0], m);
    }
  }

  /** The first n entries of a sorted copy, or all of them when there are fewer. */
  function Top(s: seq<Player>, m: Metric, n: nat): seq<Player>
  {
    SortDesc(s, m)[..Min(n, |s|)]
  }

  /** The top-n slice is as long as the input allows, sorted, and drawn from the input. */
  lemma TopIsSortedSlice(s: seq<Player>, m: Metric, n: nat)
    ensures |Top(s, m, n)| == Min(n, |s|)
    ensures NonIncreasing(Top(s, m, n), m)
    ensures multiset(Top(s, m, n)) <= multiset(s)
  {
    var sorted := SortDesc(s, m);
    var r := Top(s, m, n);
    assert sorted == r + sorted[|r|..];
    assert multiset(sorted) == multiset(r) + multiset(sorted[|r|..]);
  }

  /** The head of a non-empty top-n slice is the maximum of the whole input. */
  lemma TopHeadIsMax(s: seq<Player>, m: Metric, n: nat)
    requires n > 0 && s != []
    ensures Top(s, m, n) != []
    ensures forall p :: p in s ==> Key(p, m) <= Key(Top(s, m, n)[0], m)
  {
    SortedHeadIsMax(s, m);
  }

  /** A player left out of the top-n slice scores no more than any player kept in it. */
  lemma TopKeepsBest(s: seq<Player>, m: Metric, n: nat, p: Player)
    requires multiset(Top(s, m, n))[p] < multiset(s)[p]
    ensures forall j :: 0 <= j < |Top(s, m, n)| ==> Key(p, m) <= Key(Top(s, m, n)[j], m)
  {
    var sorted := SortDesc(s, m);
    var r := Top(s, m, n);
    var rest := sorted[|r|..];
    assert sorted == r + rest;
    assert multiset(sorted) == multiset(r) + multiset(rest);
    assert p in multiset(rest);
    var i :| 0 <= i < |rest| && rest[i] == p;
    assert sorted[|r| + i] == p;
    forall j | 0 <= j < |r| ensures Key(p, m) <= Key(r[j], m) {
      assert r[j] == sorted[j];
    }
  }

  /** Numbers the entries `first, first + 1, ...` in list order. */
  function RankedFrom<T>(s: seq<T>, first: nat): (r: seq<(nat, T)>)
    ensures |r| == |s|
    ensures forall i :: 0 <= i < |s| ==> r[i].0 == first + i && r[i].1 == s[i]
  {
    if s == [] then [] else [(first, s[0])] + RankedFrom(s[1..], first + 1)
  }

  /** The rank shown beside each row: one more than its position. */
  function Ranked<T>(s: seq<T>): seq<(nat, T)>
  {
    RankedFrom(s, 1)
  }

  /** Ranks start at 1, go up by one from row to row and end at n, keeping the list's entries. */
  lemma RanksAreOneToN<T>(s: seq<T>)
    ensures s != [] ==> Ranked(s)[0].0 == 1 && Ranked(s)[|s| - 1].0 == |s|
    ensures forall i :: 0 <= i < |s| - 1 ==> Ranked(s)[i + 1].0 == Ranked(s)[i].0 + 1
    ensures forall i :: 0 <= i < |s| ==> Ranked(s)[i].1 == s[i]
  {
  }

  function ByPosition(token: string): Player -> bool
  {
    (p: Player) => PositionMatches(p, token)
  }

  /** The combined position and minimum-games criterion of the Consistency and Hot Players pages. */
  function BySelection(token: string, w: GamesWindow, minGames: int): Player -> bool
  {
    (p: Player) => PositionMatches(p, token) && GamesIn(p, w) >= minGames
  }

  function HasPosition(token: string): Player -> bool
  {
    (p: Player) => p.position == token
  }

  /** The Rankings / Dashboard position filter: the feed itself for "all", else the exact matches. */
  function PositionView(feed: seq<Player>, token: string): seq<Player>
  {
    if token == "all" then feed else Filter(feed, HasPosition(token))
  }

  /** The conditional shortcut is the uniform position filter; in particular "all" is the identity. */
  lemma PositionViewIsFilter(feed: seq<Player>, token: string)
    ensures PositionView(feed, token) == Filter(feed, ByPosition(token))
    ensures token == "all" ==> PositionView(feed, token) == feed
    ensures IsSubsequence(PositionView(feed, token), feed)
    ensures forall i :: 0 <= i < |feed| ==>
              (feed[i] in PositionView(feed, token) <==> token == "all" || feed[i].position == token)
  {
    if token == "all" {
      FilterKeepsAll(feed, ByPosition(token));
    } else {
      FilterAgree(feed, HasPosition(token), ByPosition(token));
    }
    FilterIsSubsequence(feed, ByPosition(token));
  }

  /**
   * The minimum-games selection keeps exactly the matching players, each as often as in the
   * feed, in feed order.
   */
  lemma SelectionIsExact(feed: seq<Player>, token: string, w: GamesWindow, minGames: int)
    ensures IsSubsequence(Filter(feed, BySelection(token, w, minGames)), feed)
    ensures forall p :: multiset(Filter(feed, BySelection(token, w, minGames)))[p]
              == if PositionMatches(p, token) && GamesIn(p, w) >= minGames then multiset(feed)[p] else 0
  {
    FilterIsSubsequence(feed, BySelection(token, w, minGames));
    forall p
      ensures multiset(Filter(feed, BySelection(token, w, minGames)))[p]
           == if PositionMatches(p, token) && GamesIn(p, w) >= minGames then multiset(feed)[p] else 0
    {
      FilterMultiplicity(feed, BySelection(token, w, minGames), p);
    }
  }

  /** The injury-alert count: players whose status is anything but healthy. */
  function InjuredCount(feed: seq<Player>): nat
  {
    Count(feed, IsInjured)
  }

  /** Every player is either counted as injured or healthy, never both. */
  lemma InjuredCountComplement(feed: seq<Player>)
    ensures InjuredCount(feed) + Count(feed, IsHealthy) == |feed|
  {
    CountSplit(feed, IsInjured, IsHealthy);
  }
}
