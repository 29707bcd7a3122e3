/** The high-score screen: the best stored score and the rows it shows. */
module ScoreRecords {
  import ScoreHistory

  /** `scores.max() ?? 0`. */
  function BestScore(scores: seq<int>): (best: int)
    ensures scores == [] ==> best == 0
    ensures forall i :: 0 <= i < |scores| ==> scores[i] <= best
    ensures scores != [] ==> exists i :: 0 <= i < |scores| && scores[i] == best
  {
    if scores == [] then 0
    else if |scores| == 1 then scores[0]
    else
      var rest := BestScore(scores[1..]);
      assert forall i :: 1 <= i < |scores| ==> scores[i] == scores[1..][i - 1];
      if scores[0] >= rest then scores[0] else rest
  }

  /** One line of the list: "Game <game>", the score, and whether it is shown
      bold and yellow. */
  datatype Row = Row(game: nat, score: int, highlighted: bool)

  /** `scores.prefix(10).enumerated()`, one row per entry. */
  function Rows(scores: seq<int>): (rows: seq<Row>)
    ensures |rows| == if |scores| > 10 then 10 else |scores|
    ensures forall i :: 0 <= i < |rows| ==>
      rows[i].game == i + 1 && rows[i].score == scores[i]
      && (rows[i].highlighted <==> scores[i] == BestScore(scores))
  {
    var shown := if |scores| > 10 then scores[..10] else scores;
    var best := BestScore(scores);
    seq(|shown|, i requires 0 <= i < |shown| => Row(i + 1, shown[i], shown[i] == best))
  }

  /** A highlighted row holds a score no stored score beats. */
  lemma HighlightedIsBest(scores: seq<int>, i: nat)
    requires i < |Rows(scores)| && Rows(scores)[i].highlighted
    ensures forall j :: 0 <= j < |scores| ==> scores[j] <= Rows(scores)[i].score
  {
  }

  /** Every list saveScore stores has ten entries or fewer, so its best score
      is on screen and at least one row is highlighted. */
  lemma {:induction false} SavedListHighlightsBest(stored: seq<int>, newScore: int)
    ensures exists i :: 0 <= i < |Rows(ScoreHistory.Saved(stored, newScore))|
                        && Rows(ScoreHistory.Saved(stored, newScore))[i].highlighted
  {
    var s := ScoreHistory.Saved(stored, newScore);
    var k :| 0 <= k < |s| && s[k] == BestScore(s);
    assert Rows(s)[k].highlighted;
  }

  /** Only the first ten entries are shown: when an entry further back beats
      all ten of them, no row is highlighted. */
  lemma BestBeyondTenHighlightsNothing(scores: seq<int>, k: nat)
    requires 10 <= k < |scores|
    requires forall i :: 0 <= i < 10 ==> scores[i] < scores[k]
    ensures forall i :: 0 <= i < |Rows(scores)| ==> !Rows(scores)[i].highlighted
  {
  }
}
