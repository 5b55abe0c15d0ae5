/**
 * The scoreboard's state and the handlers that change it: the roster, the
 * name list kept in storage, and the setup and round message channels.
 * Every handler runs to completion before the next one starts, so each is
 * a method on one object.
 */
module Game {
  import opened Wrappers
  import opened Text
  import opened ScoreInput
  import opened Persistence
  import opened Roster

  const FillEveryName := "Please fill in every player name."
  const NoSavedNames := "No saved names yet. Set players once to save them."
  const CountOutOfRange := "Enter a player count between 1 and 12."
  const NoRoundsToUndo := "No rounds to undo."
  const SetUpPlayersFirst := "Set up players first."

  class Scoreboard {
    /** The roster, `players`. */
    var players: seq<Player>
    /** What the storage key holds. */
    var storage: Stored
    /** The setup and round message channels; "" is a hidden channel. */
    var setupError: string
    var roundError: string

    /** Every player has as many scores as the others, and a non-blank trimmed name. */
    predicate Valid()
      reads this
    {
      Aligned(players) && WellNamed(players)
    }

    /** A page load: no players, no messages, and whatever an earlier session stored. */
    constructor (stored: Stored)
      ensures Valid()
      ensures players == [] && storage == stored && setupError == "" && roundError == ""
    {
      players := [];
      storage := stored;
      setupError := "";
      roundError := "";
    }

    /** `resetGame`: empty roster, both channels cleared; the stored names stay. */
    method ResetGame()
      modifies this
      ensures Valid()
      ensures players == [] && setupError == "" && roundError == ""
      ensures storage == old(storage)
    {
      players := [];
      setupError := "";
      roundError := "";
    }

    /**
     * `initializePlayers` on the values of the name fields. A blank name
     * leaves roster and storage alone and reports it; otherwise the roster
     * is one player per trimmed name with no scores, and those names are
     * saved. The round channel is not touched.
     */
    method InitializePlayers(fields: seq<string>)
      requires Valid()
      modifies this
      ensures Valid()
      ensures roundError == old(roundError)
      ensures AnyEmpty(TrimAll(fields)) ==>
                players == old(players) && storage == old(storage) && setupError == FillEveryName
      ensures !AnyEmpty(TrimAll(fields)) ==>
                && players == FreshRoster(TrimAll(fields))
                && storage == SaveNames(TrimAll(fields))
                && setupError == ""
    {
      var names := TrimAll(fields);
      if AnyEmpty(names) {
        setupError := FillEveryName;
        return;
      }
      forall i | 0 <= i < |fields| ensures IsTrimmed(names[i]) {
        TrimSpec(fields[i]);
      }
      players := FreshRoster(names);
      storage := SaveNames(names);
      setupError := "";
    }

    /**
     * `addRound` on the values of the round fields, one per player. With no
     * players nothing happens; otherwise every player gets their coerced
     * score appended and the round channel is cleared.
     */
    method AddRound(fields: seq<string>)
      requires Valid()
      requires players != [] ==> |fields| == |players|
      modifies this
      ensures Valid()
      ensures old(players) == [] ==> players == old(players) && roundError == old(roundError)
      ensures old(players) != [] ==>
                && players == AppendRound(old(players), CoerceAll(fields))
                && RoundCount(players) == RoundCount(old(players)) + 1
                && roundError == ""
      ensures setupError == old(setupError) && storage == old(storage)
    {
      if players == [] {
        return;
      }
      var scores := CoerceAll(fields);
      var i := 0;
      while i < |scores|
        invariant 0 <= i <= |scores| == |players| == |old(players)|
        invariant forall j :: 0 <= j < i ==>
                    players[j] == Player(old(players)[j].name, old(players)[j].scores + [scores[j]])
        invariant forall j :: i <= j < |players| ==> players[j] == old(players)[j]
        invariant setupError == old(setupError) && roundError == old(roundError) && storage == old(storage)
      {
        players := players[i := Player(players[i].name, players[i].scores + [scores[i]])];
        i := i + 1;
      }
      assert players == AppendRound(old(players), scores);
      roundError := "";
    }

    /** The add-round button: with no players it reports that they must be set up first. */
    method AddRoundButton(fields: seq<string>)
      requires Valid()
      requires players != [] ==> |fields| == |players|
      modifies this
      ensures Valid()
      ensures old(players) == [] ==> players == old(players) && roundError == SetUpPlayersFirst
      ensures old(players) != [] ==> players == AppendRound(old(players), CoerceAll(fields)) && roundError == ""
      ensures setupError == old(setupError) && storage == old(storage)
    {
      if players == [] {
        roundError := SetUpPlayersFirst;
        return;
      }
      AddRound(fields);
    }

    /**
     * `undoRound`: with no round logged it only reports so; otherwise the
     * last score of every player is removed and the round channel cleared.
     */
    method UndoRound()
      requires Valid()
      modifies this
      ensures Valid()
      ensures RoundCount(old(players)) == 0 ==> players == old(players) && roundError == NoRoundsToUndo
      ensures RoundCount(old(players)) > 0 ==>
                && players == DropLastRound(old(players))
                && RoundCount(players) == RoundCount(old(players)) - 1
                && roundError == ""
      ensures setupError == old(setupError) && storage == old(storage)
    {
      if RoundCount(players) == 0 {
        roundError := NoRoundsToUndo;
        return;
      }
      var i := 0;
      while i < |players|
        invariant 0 <= i <= |players| == |old(players)|
        invariant forall j :: 0 <= j < i ==>
                    players[j] == Player(old(players)[j].name, DropLast(old(players)[j].scores))
        invariant forall j :: i <= j < |players| ==> players[j] == old(players)[j]
        invariant setupError == old(setupError) && roundError == old(roundError) && storage == old(storage)
      {
        players := players[i := Player(players[i].name, DropLast(players[i].scores))];
        i := i + 1;
      }
      assert players == DropLastRound(old(players));
      roundError := "";
    }

    /**
     * `removePlayer`: an index outside the roster changes nothing. Removing
     * the last player is a full reset, with nothing saved; otherwise the
     * remaining players keep their order and scores and their names are saved.
     */
    method RemovePlayer(index: int)
      requires Valid()
      modifies this
      ensures Valid()
      ensures !(0 <= index < |old(players)|) ==>
                && players == old(players) && storage == old(storage)
                && setupError == old(setupError) && roundError == old(roundError)
      ensures 0 <= index < |old(players)| && |old(players)| == 1 ==>
                players == [] && storage == old(storage) && setupError == "" && roundError == ""
      ensures 0 <= index < |old(players)| && |old(players)| > 1 ==>
                && players == RemoveAt(old(players), index)
                && RoundCount(players) == RoundCount(old(players))
                && storage == SaveNames(Names(players))
                && setupError == old(setupError) && roundError == old(roundError)
    {
      if index < 0 || index >= |players| {
        return;
      }
      RemoveAtKeepsInvariant(players, index);
      players := RemoveAt(players, index);
      if players == [] {
        ResetGame();
        return;
      }
      storage := SaveNames(Names(players));
    }

    /**
     * `loadSavedNames`: returns the names it puts in the setup fields, or
     * reports that nothing is saved.
     */
    method LoadSavedNames() returns (fieldValues: seq<string>)
      modifies this`setupError
      ensures fieldValues == LoadNames(storage)
      ensures setupError == if fieldValues == [] then NoSavedNames else ""
    {
      fieldValues := LoadNames(storage);
      if |fieldValues| == 0 {
        setupError := NoSavedNames;
        return;
      }
      setupError := "";
    }

    /**
     * The set-names handler: returns how many name fields to build, or
     * reports a count outside 1 to 12.
     */
    method SetPlayerCount(raw: string) returns (count: Option<nat>)
      modifies this`setupError
      ensures count == CheckPlayerCount(raw)
      ensures setupError == if count.None? then CountOutOfRange else ""
    {
      count := CheckPlayerCount(raw);
      if count.None? {
        setupError := CountOutOfRange;
        return;
      }
      setupError := "";
    }
  }

  /**
   * What a successful setup saves is exactly what the restore action reads
   * back: the trimmed names, in order.
   */
  lemma RestoreAfterInitialize(fields: seq<string>)
    requires !AnyEmpty(TrimAll(fields))
    ensures LoadNames(SaveNames(TrimAll(fields))) == TrimAll(fields)
  {
    var names := TrimAll(fields);
    forall i | 0 <= i < |names| ensures Trim(names[i]) != [] {
      TrimSpec(fields[i]);
      TrimOfTrimmed(names[i]);
    }
    LoadAfterSave(names);
  }

  /** After a removal the restore action reads back the remaining players' names, in order. */
  lemma RestoreAfterRemove(ps: seq<Player>)
    requires WellNamed(ps)
    ensures LoadNames(SaveNames(Names(ps))) == Names(ps)
  {
    var names := Names(ps);
    forall i | 0 <= i < |names| ensures Trim(names[i]) != [] {
      TrimOfTrimmed(names[i]);
    }
    LoadAfterSave(names);
  }
}
