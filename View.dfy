/**
 * The data behind the score table: per-player totals, the grand total, the
 * players highlighted as leaders and the number of rounds logged. It is a
 * function of the roster alone and changes nothing.
 */
module View {
  import opened Roster

  /** `s.reduce((a, b) => a + b, 0)`, folding from the left. */
  function Sum(s: seq<int>): int {
    if s == [] then 0 else Sum(s[..|s| - 1]) + s[|s| - 1]
  }

  /** `Math.max(...s)` on a non-empty list: an element of `s` that no element exceeds. */
  function Max(s: seq<int>): (m: int)
    requires s != []
    ensures m in s
    ensures forall i :: 0 <= i < |s| ==> s[i] <= m
  {
    if |s| == 1 then s[0]
    else
      var m := Max(s[..|s| - 1]);
      assert forall i :: 0 <= i < |s| - 1 ==> s[i] == s[..|s| - 1][i];
      if s[|s| - 1] > m then s[|s| - 1] else m
  }

  /** `players.map(p => p.scores.reduce(...))`. */
  function Totals(ps: seq<Player>): (totals: seq<int>)
    ensures |totals| == |ps|
  {
    seq(|ps|, i requires 0 <= i < |ps| => Sum(ps[i].scores))
  }

  /** What the table shows besides the names and the individual scores. */
  datatype ScoreView = ScoreView(totals: seq<int>, grandTotal: int, leaders: set<nat>, rounds: nat)

  /**
   * `renderTable` without the markup: the indices whose total equals the
   * maximum carry the `highest` class, in the header and in the footer.
   * An empty roster shows nothing but a round count of 0.
   */
  function Project(ps: seq<Player>): (v: ScoreView)
    ensures v.rounds == RoundCount(ps)
    ensures |v.totals| == |ps|
    ensures ps == [] ==> v.grandTotal == 0 && v.leaders == {}
  {
    if ps == [] then ScoreView([], 0, {}, 0)
    else
      var totals := Totals(ps);
      ScoreView(totals, Sum(totals), Leaders(totals), RoundCount(ps))
  }

  /** The positions whose total equals `Math.max(...totals)`. */
  function Leaders(totals: seq<int>): (leaders: set<nat>)
    requires totals != []
    ensures leaders != {}
    ensures forall i :: i in leaders ==> i < |totals| && forall j :: 0 <= j < |totals| ==> totals[j] <= totals[i]
  {
    var maxTotal := Max(totals);
    var leaders := set i: nat | i < |totals| && totals[i] == maxTotal;
    assert forall k :: 0 <= k < |totals| && totals[k] == maxTotal ==> k in leaders;
    leaders
  }

  /** Every score of every player, player by player. */
  function AllScores(ps: seq<Player>): seq<int> {
    if ps == [] then [] else AllScores(ps[..|ps| - 1]) + ps[|ps| - 1].scores
  }

  lemma {:induction false} SumAppend(a: seq<int>, b: seq<int>)
    ensures Sum(a + b) == Sum(a) + Sum(b)
    decreases |b|
  {
    if b == [] {
      assert a + b == a;
    } else {
      assert (a + b)[..|a + b| - 1] == a + b[..|b| - 1];
      SumAppend(a, b[..|b| - 1]);
    }
  }

  /** Each total is the sum of that player's scores, and the grand total is the sum of every score on the table. */
  lemma {:induction false} TotalsAreSums(ps: seq<Player>)
    ensures |Project(ps).totals| == |ps|
    ensures forall i :: 0 <= i < |ps| ==> Project(ps).totals[i] == Sum(ps[i].scores)
    ensures Project(ps).grandTotal == Sum(Project(ps).totals) == Sum(AllScores(ps))
  {
    if ps != [] {
      var init := ps[..|ps| - 1];
      TotalsAreSums(init);
      var t := Totals(ps);
      assert t[..|t| - 1] == Totals(init);
      if init != [] {
        assert Sum(Project(init).totals) == Sum(Totals(init));
      }
      SumAppend(AllScores(init), ps[|ps| - 1].scores);
    }
  }

  /**
   * The highlighted players are exactly those whose total no other total
   * exceeds; a non-empty roster always has at least one, and ties are all
   * highlighted.
   */
  lemma LeadersAreMaxima(ps: seq<Player>)
    ensures forall i :: i in Project(ps).leaders ==>
              i < |ps| && forall j :: 0 <= j < |ps| ==> Project(ps).totals[j] <= Project(ps).totals[i]
    ensures forall i :: 0 <= i < |ps| && (forall j :: 0 <= j < |ps| ==> Project(ps).totals[j] <= Project(ps).totals[i]) ==>
              i in Project(ps).leaders
    ensures ps != [] <==> Project(ps).leaders != {}
  {
    if ps != [] {
      var t := Totals(ps);
      var m := Max(t);
      var k :| 0 <= k < |t| && t[k] == m;
      assert k in Project(ps).leaders;
      forall i | 0 <= i < |ps| && (forall j :: 0 <= j < |ps| ==> t[j] <= t[i])
        ensures i in Project(ps).leaders
      {
        assert t[k] <= t[i];
      }
    }
  }

  /**
   * Adding a round raises each player's total by the score just entered,
   * the grand total by the round's sum, and the round count by one.
   */
  lemma ProjectAfterAddRound(ps: seq<Player>, scores: seq<int>)
    requires |scores| == |ps| && ps != []
    ensures var before, after := Project(ps), Project(AppendRound(ps, scores));
            && |after.totals| == |before.totals|
            && (forall i :: 0 <= i < |ps| ==> after.totals[i] == before.totals[i] + scores[i])
            && after.grandTotal == before.grandTotal + Sum(scores)
            && after.rounds == before.rounds + 1
  {
    var ps' := AppendRound(ps, scores);
    TotalsAfterAppend(ps, scores);
    SumOfPointwise(Totals(ps), scores, Totals(ps'));
  }

  /** After a round is added, each total grows by that player's new score. */
  lemma TotalsAfterAppend(ps: seq<Player>, scores: seq<int>)
    requires |scores| == |ps|
    ensures forall i :: 0 <= i < |ps| ==> Totals(AppendRound(ps, scores))[i] == Totals(ps)[i] + scores[i]
  {
    var ps' := AppendRound(ps, scores);
    forall i | 0 <= i < |ps| ensures Totals(ps')[i] == Totals(ps)[i] + scores[i] {
      assert ps'[i].scores[..|ps'[i].scores| - 1] == ps[i].scores;
    }
  }

  /** Summing two lists position by position sums their sums. */
  lemma {:induction false} SumOfPointwise(a: seq<int>, b: seq<int>, c: seq<int>)
    requires |a| == |b| == |c|
    requires forall i :: 0 <= i < |c| ==> c[i] == a[i] + b[i]
    ensures Sum(c) == Sum(a) + Sum(b)
  {
    if c != [] {
      var n := |c| - 1;
      SumOfPointwise(a[..n], b[..n], c[..n]);
    }
  }

  /** Undoing a round right after adding it brings the table back to what it showed before. */
  lemma ProjectAfterUndo(ps: seq<Player>, scores: seq<int>)
    requires |scores| == |ps|
    ensures Project(DropLastRound(AppendRound(ps, scores))) == Project(ps)
  {
    UndoAfterAdd(ps, scores);
  }
}
