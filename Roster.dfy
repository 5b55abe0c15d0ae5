/**
 * The roster: the ordered players and their per-round scores, and the pure
 * transitions that the scoreboard's handlers apply to it. A round is not
 * stored on its own: round `r` is the `r`-th score of every player.
 */
module Roster {
  import opened Text

  /** One roster entry, `{name, scores}`; players are identified by position, not by name. */
  datatype Player = Player(name: string, scores: seq<int>)

  /** `players[0]?.scores.length || 0`: the first player's score count, 0 for an empty roster. */
  function RoundCount(ps: seq<Player>): nat {
    if ps == [] then 0 else |ps[0].scores|
  }

  /** Every player has the same number of scores. */
  predicate Aligned(ps: seq<Player>) {
    forall i :: 0 <= i < |ps| ==> |ps[i].scores| == RoundCount(ps)
  }

  /** Every name is non-empty and already trimmed, as the setup form produces them. */
  predicate WellNamed(ps: seq<Player>) {
    forall i :: 0 <= i < |ps| ==> ps[i].name != [] && IsTrimmed(ps[i].name)
  }

  /** `players.map(p => p.name)`. */
  function Names(ps: seq<Player>): (names: seq<string>)
    ensures |names| == |ps|
    ensures forall i :: 0 <= i < |ps| ==> names[i] == ps[i].name
  {
    seq(|ps|, i requires 0 <= i < |ps| => ps[i].name)
  }

  /** `inputs.map(input => input.value.trim())`. */
  function TrimAll(raw: seq<string>): (names: seq<string>)
    ensures |names| == |raw|
    ensures forall i :: 0 <= i < |raw| ==> names[i] == Trim(raw[i])
  {
    seq(|raw|, i requires 0 <= i < |raw| => Trim(raw[i]))
  }

  /** `names.some(n => n.length === 0)`. */
  predicate AnyEmpty(names: seq<string>) {
    exists i :: 0 <= i < |names| && names[i] == []
  }

  /**
   * `names.map(name => ({ name, scores: [] }))`: one player per name, in
   * order, none with a score.
   */
  function FreshRoster(names: seq<string>): (ps: seq<Player>)
    ensures Names(ps) == names
    ensures Aligned(ps) && RoundCount(ps) == 0
    ensures !AnyEmpty(names) && (forall i :: 0 <= i < |names| ==> IsTrimmed(names[i])) ==> WellNamed(ps)
  {
    seq(|names|, i requires 0 <= i < |names| => Player(names[i], []))
  }

  /**
   * `scores.forEach((score, i) => players[i].scores.push(score))` with one
   * score per player: each player gets their own score at the end.
   */
  function AppendRound(ps: seq<Player>, scores: seq<int>): (r: seq<Player>)
    requires |scores| == |ps|
    ensures Names(r) == Names(ps)
    ensures Aligned(ps) ==> Aligned(r)
    ensures ps != [] ==> RoundCount(r) == RoundCount(ps) + 1
  {
    seq(|ps|, i requires 0 <= i < |ps| => Player(ps[i].name, ps[i].scores + [scores[i]]))
  }

  /** `s.pop()` on a score list; popping an empty list leaves it empty. */
  function DropLast(s: seq<int>): (r: seq<int>)
    ensures s == [] ==> r == []
    ensures s != [] ==> r + [s[|s| - 1]] == s
  {
    if s == [] then [] else s[..|s| - 1]
  }

  /** `players.forEach(p => p.scores.pop())`: the last round is taken back from every player. */
  function DropLastRound(ps: seq<Player>): (r: seq<Player>)
    ensures Names(r) == Names(ps)
    ensures Aligned(ps) ==> Aligned(r)
    ensures Aligned(ps) && RoundCount(ps) > 0 ==> RoundCount(r) == RoundCount(ps) - 1
  {
    seq(|ps|, i requires 0 <= i < |ps| => Player(ps[i].name, DropLast(ps[i].scores)))
  }

  /**
   * `players.splice(index, 1)`: the players before `index` stay where they
   * are and the players after it move down one place.
   */
  function RemoveAt(ps: seq<Player>, index: nat): (r: seq<Player>)
    requires index < |ps|
    ensures |r| == |ps| - 1
    ensures forall j :: 0 <= j < index ==> r[j] == ps[j]
    ensures forall j :: index <= j < |r| ==> r[j] == ps[j + 1]
  {
    ps[..index] + ps[index + 1..]
  }

  /** Removing a player keeps the roster aligned and well named, and keeps the round count. */
  lemma RemoveAtKeepsInvariant(ps: seq<Player>, index: nat)
    requires index < |ps| && Aligned(ps) && WellNamed(ps)
    ensures var r := RemoveAt(ps, index);
            Aligned(r) && WellNamed(r) && (r != [] ==> RoundCount(r) == RoundCount(ps))
  {
    var r := RemoveAt(ps, index);
    if r != [] {
      assert |r[0].scores| == RoundCount(ps) by {
        if index == 0 { assert r[0] == ps[1]; } else { assert r[0] == ps[0]; }
      }
    }
  }

  /** Undoing a round right after adding it restores the roster exactly. */
  lemma UndoAfterAdd(ps: seq<Player>, scores: seq<int>)
    requires |scores| == |ps|
    ensures DropLastRound(AppendRound(ps, scores)) == ps
  {
    var r := DropLastRound(AppendRound(ps, scores));
    forall i | 0 <= i < |ps| ensures r[i] == ps[i] {
      var s := ps[i].scores + [scores[i]];
      assert DropLast(s) == ps[i].scores;
    }
  }
}
