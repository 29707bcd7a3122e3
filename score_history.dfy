/** The list of final scores saveScore keeps: newest first, at most ten. */
module ScoreHistory {
  const MaxScores := 10

  /** The first ten entries of a list, or the whole list when shorter. */
  function Newest(s: seq<int>): (r: seq<int>)
    ensures |r| == if |s| > MaxScores then MaxScores else |s|
    ensures r == s[..|r|]
  {
    if |s| > MaxScores then s[..MaxScores] else s
  }

  /** The list saveScore stores: the new score in front of the stored ones,
      cut back to ten entries. */
  function Saved(scores: seq<int>, newScore: int): (r: seq<int>)
    ensures |r| == if |scores| >= MaxScores then MaxScores else |scores| + 1
    ensures r[0] == newScore
    ensures r[1..] == scores[..|r| - 1]
  {
    Newest([newScore] + scores)
  }

  /** saveScore called once per game, for the games' scores in the order they ended. */
  function SaveAll(stored: seq<int>, games: seq<int>): seq<int>
    decreases |games|
  {
    if games == [] then stored else SaveAll(Saved(stored, games[0]), games[1..])
  }

  function Reversed(s: seq<int>): (r: seq<int>)
    ensures |r| == |s|
  {
    if s == [] then [] else Reversed(s[1..]) + [s[0]]
  }

  lemma NewestOfNewest(a: seq<int>, b: seq<int>)
    ensures Newest(a + Newest(b)) == Newest(a + b)
  {
  }

  /** After at least one game, the stored list is the games' scores, newest
      first, followed by what was stored before, cut back to ten entries. */
  lemma {:induction false} SaveAllKeepsNewestTen(stored: seq<int>, games: seq<int>)
    requires games != []
    ensures SaveAll(stored, games) == Newest(Reversed(games) + stored)
    decreases |games|
  {
    var rest := games[1..];
    assert Reversed(games) == Reversed(rest) + [games[0]];
    if rest == [] {
      assert Reversed(games) == [games[0]];
    } else {
      SaveAllKeepsNewestTen(Saved(stored, games[0]), rest);
      NewestOfNewest(Reversed(rest), [games[0]] + stored);
      assert Reversed(rest) + ([games[0]] + stored) == Reversed(games) + stored;
    }
  }

  /** Ten or fewer games are all kept; from the eleventh on, the oldest drop out. */
  lemma {:induction false} ElevenGamesKeepTen(games: seq<int>)
    requires |games| == 11
    ensures SaveAll([], games) == Reversed(games[1..])
    ensures |SaveAll([], games)| == MaxScores
  {
    SaveAllKeepsNewestTen([], games);
    assert games == [games[0]] + games[1..];
    ReversedSplit(games[1..], games[0]);
    assert Reversed(games) + [] == Reversed(games);
    assert Reversed(games)[..MaxScores] == Reversed(games[1..]);
  }

  lemma ReversedSplit(rest: seq<int>, x: int)
    ensures Reversed([x] + rest) == Reversed(rest) + [x]
  {
  }

  lemma SaveExample()
    ensures SaveAll([], [3, 5, 9]) == [9, 5, 3]
  {
  }
}
