/** Short sessions on the scoreboard, from setup to removing the last player. */
module Examples {
  import opened Wrappers
  import opened Text
  import opened ScoreInput
  import opened Persistence
  import opened Roster
  import opened View
  import opened Game

  /** Names are trimmed before they are kept and saved. */
  method SetupSession() {
    var board := new Scoreboard(Absent);
    var restored := board.LoadSavedNames();
    assert restored == [] && board.setupError == NoSavedNames;

    var fields := ["Ana", " Bo"];
    TrimOfTrimmed("Ana");
    TrimOfPadded(" ", "Bo", "");
    assert " Bo" == " " + "Bo" + "";
    assert TrimAll(fields) == ["Ana", "Bo"];
    board.InitializePlayers(fields);
    assert board.players == [Player("Ana", []), Player("Bo", [])];
    assert board.storage == SaveNames(["Ana", "Bo"]);
  }

  /** The first round: each player's written score is appended to their list. */
  method FirstRound(board: Scoreboard)
    requires board.Valid()
    requires board.players == [Player("Ana", []), Player("Bo", [])]
    modifies board
  {
    CoerceScoreOfDigit('3', "3");
    CoerceScoreOfDigit('5', "5");
    var scores := CoerceAll(["3", "5"]);
    assert scores == [3, 5];
    board.AddRound(["3", "5"]);
    var expected := AppendRound([Player("Ana", []), Player("Bo", [])], scores);
    assert expected[0] == Player("Ana", [3]) && expected[1] == Player("Bo", [5]);
    assert board.players == [Player("Ana", [3]), Player("Bo", [5])];
  }

  /** The second round goes after the first, in each player's list. */
  method SecondRound(board: Scoreboard)
    requires board.Valid()
    requires board.players == [Player("Ana", [3]), Player("Bo", [5])]
    modifies board
  {
    CoerceScoreOfDigit('2', "2");
    var scores := CoerceAll(["2", "2"]);
    assert scores == [2, 2];
    board.AddRound(["2", "2"]);
    var expected := AppendRound([Player("Ana", [3]), Player("Bo", [5])], scores);
    assert expected[0] == Player("Ana", [3, 2]) && expected[1] == Player("Bo", [5, 2]);
    assert board.players == [Player("Ana", [3, 2]), Player("Bo", [5, 2])];
  }

  /** The table after those two rounds. */
  method TableAfterTwoRounds() {
    var ps := [Player("Ana", [3, 2]), Player("Bo", [5, 2])];
    var view := Project(ps);
    TotalsAreSums(ps);
    assert view.totals == [5, 7];
    assert view.grandTotal == 12;
    assert view.rounds == 2;
    assert view.leaders == Leaders([5, 7]);
  }

  /** With totals 5 and 7, only the second player is highlighted. */
  method LeaderAfterTwoRounds() {
    var leaders := Leaders([5, 7]);
    assert Max([5, 7]) == 7;
    assert 0 !in leaders && 1 in leaders;
    assert leaders == {1};
  }

  /** Undo, removals and the guards that report instead of changing anything. */
  method UndoAndRemoveSession(board: Scoreboard)
    requires board.Valid()
    requires board.players == [Player("Ana", [3, 2]), Player("Bo", [5, 2])]
    modifies board
  {
    board.UndoRound();
    var undone := DropLastRound([Player("Ana", [3, 2]), Player("Bo", [5, 2])]);
    assert undone[0] == Player("Ana", [3]) && undone[1] == Player("Bo", [5]);
    assert board.players == [Player("Ana", [3]), Player("Bo", [5])];

    board.RemovePlayer(5);
    board.RemovePlayer(1);
    assert board.players == [Player("Ana", [3])];
    assert board.storage == SaveNames(["Ana"]);

    board.UndoRound();
    board.UndoRound();
    assert board.players == [Player("Ana", [])] && board.roundError == NoRoundsToUndo;

    board.RemovePlayer(0);
    assert board.players == [] && board.storage == SaveNames(["Ana"]);
    board.AddRoundButton(["1"]);
    assert board.players == [] && board.roundError == SetUpPlayersFirst;
  }
}
