/** The game state held by the XandO window and the handlers that change it:
    a move on the board, a reset, the start button of the name screen, the
    restart button and the button of the result dialog. */
module Game {
  import opened Wrappers
  import opened Board
  import opened Names

  class XandO {
    /** Positions taken by player one (X) and player two (O), in move order. */
    var playerOne: seq<int>
    var playerTwo: seq<int>
    /** 0 while player one is to move, 1 while player two is. */
    var turn: int
    var playerOneName: string
    var playerTwoName: string

    /** What the board guarantees: every position lies on the board and is
        taken at most once, by one player only, and the turn is 0 or 1. */
    ghost predicate Valid()
      reads this
    {
      && Distinct(playerOne + playerTwo)
      && OnBoard(playerOne + playerTwo)
      && (turn == 0 || turn == 1)
    }

    /** Number of moves made since the last reset. */
    function MoveCount(): nat
      reads this
    {
      |playerOne| + |playerTwo|
    }

    /** The players have moved alternately since the last reset: player one
        is a move ahead exactly while it is player two's turn. */
    predicate Alternating()
      reads this
    {
      |playerOne| == |playerTwo| + turn
    }

    /** A position no list holds yet: its button is still enabled. */
    predicate Free(pos: int)
      reads this
    {
      1 <= pos <= 9 && pos !in playerOne && pos !in playerTwo
    }

    constructor ()
      ensures Valid()
      ensures playerOne == [] && playerTwo == [] && turn == 0
      ensures playerOneName == DefaultPlayerOne && playerTwoName == DefaultPlayerTwo
    {
      playerOne := [];
      playerTwo := [];
      turn := 0;
      playerOneName := DefaultPlayerOne;
      playerTwoName := DefaultPlayerTwo;
    }

    /** Empties both move lists and gives the move to player one, whatever
        the state was; the names stay. */
    method ResetGame()
      modifies this
      ensures Valid()
      ensures playerOne == [] && playerTwo == [] && turn == 0
      ensures playerOneName == old(playerOneName) && playerTwoName == old(playerTwoName)
    {
      playerOne := [];
      playerTwo := [];
      turn := 0;
    }

    /** A click on the free button at `pos`. The move goes to the player
        whose turn it is; then player one's list is tested for a win, then
        player two's, then the board for being full. The result is the name
        handed to the result dialog, or `None` when the game goes on and the
        turn passes to the other player. */
    method HandleMove(pos: int) returns (shown: Option<string>)
      requires Valid()
      requires Free(pos)
      modifies this
      ensures Valid()
      ensures Distinct(playerOne) && Distinct(playerTwo)
      ensures forall x :: x in playerOne ==> x !in playerTwo
      ensures old(turn) == 0 ==> playerOne == old(playerOne) + [pos] && playerTwo == old(playerTwo)
      ensures old(turn) != 0 ==> playerTwo == old(playerTwo) + [pos] && playerOne == old(playerOne)
      ensures playerOneName == old(playerOneName) && playerTwoName == old(playerTwoName)
      ensures MoveCount() == old(MoveCount()) + 1 <= 9
      // A win is tested before a full board, and player one before player two.
      ensures Wins(playerOne) ==> shown == Some(playerOneName)
      ensures !Wins(playerOne) && Wins(playerTwo) ==> shown == Some(playerTwoName)
      ensures !Wins(playerOne) && !Wins(playerTwo) && MoveCount() == 9 ==> shown == Some(NoOne)
      ensures !Wins(playerOne) && !Wins(playerTwo) && MoveCount() < 9 ==> shown == None
      // The turn passes only when the game goes on.
      ensures turn == if shown == None then 1 - old(turn) else old(turn)
      // From a position where nobody has won yet, only the mover can win.
      ensures !old(Wins(playerOne)) && !old(Wins(playerTwo)) ==>
        (old(turn) == 0 ==> !Wins(playerTwo)) && (old(turn) != 0 ==> !Wins(playerOne))
      ensures old(Alternating()) && shown == None ==> Alternating()
    {
      if turn == 0 {
        playerOne := playerOne + [pos];
      } else {
        playerTwo := playerTwo + [pos];
      }
      MoveKeepsBoard(old(playerOne), old(playerTwo), playerOne, playerTwo, pos);
      BoardCapacity(playerOne + playerTwo);
      DistinctConcat(playerOne, playerTwo);

      var oneWins := CheckWin(playerOne);
      if oneWins {
        shown := Some(playerOneName);
      } else {
        var twoWins := CheckWin(playerTwo);
        if twoWins {
          shown := Some(playerTwoName);
        } else if |playerOne| + |playerTwo| == 9 {
          shown := Some(NoOne);
        } else {
          // `turn ^= 1` on a turn that is 0 or 1
          turn := 1 - turn;
          shown := None;
        }
      }
    }

    /** The start button of the name screen: takes both names from their
        fields, falling back to the default names, and resets the game. */
    method StartGame(playerOneText: string, playerTwoText: string)
      modifies this
      ensures Valid()
      ensures playerOne == [] && playerTwo == [] && turn == 0
      ensures playerOneName == PlayerName(playerOneText, DefaultPlayerOne)
      ensures playerTwoName == PlayerName(playerTwoText, DefaultPlayerTwo)
      // Neither name is blank or starts or ends with a blank.
      ensures playerOneName != [] && !Blank(playerOneName[0]) && !Blank(playerOneName[|playerOneName| - 1])
      ensures playerTwoName != [] && !Blank(playerTwoName[0]) && !Blank(playerTwoName[|playerTwoName| - 1])
    {
      DefaultsAreTrimmed();
      PlayerNameIsTrimmed(playerOneText, DefaultPlayerOne);
      PlayerNameIsTrimmed(playerTwoText, DefaultPlayerTwo);
      playerOneName := PlayerName(playerOneText, DefaultPlayerOne);
      playerTwoName := PlayerName(playerTwoText, DefaultPlayerTwo);
      ResetGame();
    }

    /** The restart button: resets the game when the player confirms, and
        changes nothing otherwise. */
    method Restart(confirmed: bool)
      requires Valid()
      modifies this
      ensures Valid()
      ensures confirmed ==> playerOne == [] && playerTwo == [] && turn == 0
      ensures !confirmed ==> playerOne == old(playerOne) && playerTwo == old(playerTwo) && turn == old(turn)
      ensures playerOneName == old(playerOneName) && playerTwoName == old(playerTwoName)
    {
      if confirmed {
        ResetGame();
      }
    }

    /** The "Play again" button of the result dialog, the only way to leave
        it: the game always starts over. */
    method PlayAgain()
      modifies this
      ensures Valid()
      ensures playerOne == [] && playerTwo == [] && turn == 0
      ensures playerOneName == old(playerOneName) && playerTwoName == old(playerTwoName)
    {
      ResetGame();
    }
  }

  /** Appending a free position to one player's list keeps both lists
      duplicate-free, on the board and disjoint. */
  lemma MoveKeepsBoard(one: seq<int>, two: seq<int>, one': seq<int>, two': seq<int>, pos: int)
    requires Distinct(one + two) && OnBoard(one + two)
    requires 1 <= pos <= 9 && pos !in one && pos !in two
    requires (one' == one + [pos] && two' == two) || (one' == one && two' == two + [pos])
    ensures Distinct(one' + two') && OnBoard(one' + two')
    ensures |one'| + |two'| == |one| + |two| + 1
  {
    DistinctConcat(one, two);
    DistinctConcat(one, [pos]);
    DistinctConcat(two, [pos]);
    DistinctConcat(one', two');
    var all := one' + two';
    forall i | 0 <= i < |all| ensures 1 <= all[i] <= 9 {
      assert all[i] in one + two || all[i] == pos;
    }
  }

  /** Which of the lists met in the scenarios below hold a line. */
  lemma TopRowLists()
    ensures !Wins([]) && !Wins([1]) && !Wins([4]) && !Wins([1, 2]) && !Wins([4, 5]) && Wins([1, 2, 3])
  {
    WinsByTable([]); WinsByTable([1]); WinsByTable([4]);
    WinsByTable([1, 2]); WinsByTable([4, 5]); WinsByTable([1, 2, 3]);
  }

  lemma InOrderOpeningLists()
    ensures !Wins([]) && !Wins([1]) && !Wins([2]) && !Wins([1, 3]) && !Wins([2, 4])
  {
    WinsByTable([]); WinsByTable([1]); WinsByTable([2]); WinsByTable([1, 3]); WinsByTable([2, 4]);
  }

  lemma InOrderClosingLists()
    ensures !Wins([1, 3, 5]) && !Wins([2, 4, 6]) && Wins([1, 3, 5, 7])
  {
    WinsByTable([1, 3, 5]); WinsByTable([2, 4, 6]); WinsByTable([1, 3, 5, 7]);
  }

  lemma DrawOpeningLists()
    ensures !Wins([]) && !Wins([1]) && !Wins([3]) && !Wins([1, 2]) && !Wins([3, 5])
  {
    WinsByTable([]); WinsByTable([1]); WinsByTable([3]); WinsByTable([1, 2]); WinsByTable([3, 5]);
  }

  lemma DrawClosingLists()
    ensures !Wins([1, 2, 7]) && !Wins([3, 5, 4]) && !Wins([1, 2, 7, 6])
    ensures !Wins([3, 5, 4, 8]) && !Wins([1, 2, 7, 6, 9])
  {
    WinsByTable([1, 2, 7]); WinsByTable([3, 5, 4]); WinsByTable([1, 2, 7, 6]);
    WinsByTable([3, 5, 4, 8]); WinsByTable([1, 2, 7, 6, 9]);
  }

  /** Player one takes the top row while player two plays the middle row:
      the fifth move announces player one, and the result dialog starts
      the next game. */
  method TopRowScenario()
  {
    TopRowLists();
    var g := new XandO();
    var shown := g.HandleMove(1);
    assert g.playerOne == [1] && g.playerTwo == [];
    assert shown == None && g.turn == 1;
    shown := g.HandleMove(4);
    assert g.playerOne == [1] && g.playerTwo == [4];
    assert shown == None && g.turn == 0;
    TopRowScenarioStep2(g);
  }

  /** Moves 3 to 4 of `TopRowScenario`. */
  method TopRowScenarioStep2(g: XandO)
    requires g.Valid() && g.playerOne == [1] && g.playerTwo == [4] && g.turn == 0
    requires g.playerOneName == DefaultPlayerOne
    modifies g
  {
    TopRowLists();
    var shown := g.HandleMove(2);
    assert g.playerOne == [1, 2] && g.playerTwo == [4];
    assert shown == None && g.turn == 1;
    shown := g.HandleMove(5);
    assert g.playerOne == [1, 2] && g.playerTwo == [4, 5];
    assert shown == None && g.turn == 0;
    TopRowScenarioStep3(g);
  }

  /** Move 5 of `TopRowScenario`. */
  method TopRowScenarioStep3(g: XandO)
    requires g.Valid() && g.playerOne == [1, 2] && g.playerTwo == [4, 5] && g.turn == 0
    requires g.playerOneName == DefaultPlayerOne
    modifies g
  {
    TopRowLists();
    var shown := g.HandleMove(3);
    assert g.playerOne == [1, 2, 3] && g.playerTwo == [4, 5];
    assert shown == Some(DefaultPlayerOne) && g.turn == 0;
    assert ResultMessage(DefaultPlayerOne) == "Player 1 wins!";
    g.PlayAgain();
    assert g.playerOne == [] && g.playerTwo == [] && g.turn == 0;
  }

  /** Moves on 1, 2, 3, ... in order: player one holds 1, 3, 5, 7 after the
      seventh move, which completes the diagonal 3-5-7, so the game ends
      there and the board never fills. */
  method InOrderScenario()
  {
    InOrderOpeningLists();
    var g := new XandO();
    var shown := g.HandleMove(1);
    assert g.playerOne == [1] && g.playerTwo == [];
    assert shown == None && g.turn == 1;
    shown := g.HandleMove(2);
    assert g.playerOne == [1] && g.playerTwo == [2];
    assert shown == None && g.turn == 0;
    InOrderScenarioStep2(g);
  }

  /** Moves 3 to 4 of `InOrderScenario`. */
  method InOrderScenarioStep2(g: XandO)
    requires g.Valid() && g.playerOne == [1] && g.playerTwo == [2] && g.turn == 0
    requires g.playerOneName == DefaultPlayerOne
    modifies g
  {
    InOrderOpeningLists();
    var shown := g.HandleMove(3);
    assert g.playerOne == [1, 3] && g.playerTwo == [2];
    assert shown == None && g.turn == 1;
    shown := g.HandleMove(4);
    assert g.playerOne == [1, 3] && g.playerTwo == [2, 4];
    assert shown == None && g.turn == 0;
    InOrderScenarioStep3(g);
  }

  /** Moves 5 to 6 of `InOrderScenario`. */
  method InOrderScenarioStep3(g: XandO)
    requires g.Valid() && g.playerOne == [1, 3] && g.playerTwo == [2, 4] && g.turn == 0
    requires g.playerOneName == DefaultPlayerOne
    modifies g
  {
    InOrderOpeningLists(); InOrderClosingLists();
    var shown := g.HandleMove(5);
    assert g.playerOne == [1, 3, 5] && g.playerTwo == [2, 4];
    assert shown == None && g.turn == 1;
    shown := g.HandleMove(6);
    assert g.playerOne == [1, 3, 5] && g.playerTwo == [2, 4, 6];
    assert shown == None && g.turn == 0;
    InOrderScenarioStep4(g);
  }

  /** Move 7 of `InOrderScenario`. */
  method InOrderScenarioStep4(g: XandO)
    requires g.Valid() && g.playerOne == [1, 3, 5] && g.playerTwo == [2, 4, 6] && g.turn == 0
    requires g.playerOneName == DefaultPlayerOne
    modifies g
  {
    InOrderClosingLists();
    var shown := g.HandleMove(7);
    assert g.playerOne == [1, 3, 5, 7] && g.playerTwo == [2, 4, 6];
    assert shown == Some(DefaultPlayerOne) && g.turn == 0;
  }

  /** A full board with no line: the ninth move announces "No one", and the
      result dialog says it is a draw. */
  method DrawScenario()
  {
    DrawOpeningLists();
    var g := new XandO();
    var shown := g.HandleMove(1);
    assert g.playerOne == [1] && g.playerTwo == [];
    assert shown == None && g.turn == 1;
    shown := g.HandleMove(3);
    assert g.playerOne == [1] && g.playerTwo == [3];
    assert shown == None && g.turn == 0;
    DrawScenarioStep2(g);
  }

  /** Moves 3 to 4 of `DrawScenario`. */
  method DrawScenarioStep2(g: XandO)
    requires g.Valid() && g.playerOne == [1] && g.playerTwo == [3] && g.turn == 0
    requires g.playerOneName == DefaultPlayerOne
    modifies g
  {
    DrawOpeningLists();
    var shown := g.HandleMove(2);
    assert g.playerOne == [1, 2] && g.playerTwo == [3];
    assert shown == None && g.turn == 1;
    shown := g.HandleMove(5);
    assert g.playerOne == [1, 2] && g.playerTwo == [3, 5];
    assert shown == None && g.turn == 0;
    DrawScenarioStep3(g);
  }

  /** Moves 5 to 6 of `DrawScenario`. */
  method DrawScenarioStep3(g: XandO)
    requires g.Valid() && g.playerOne == [1, 2] && g.playerTwo == [3, 5] && g.turn == 0
    requires g.playerOneName == DefaultPlayerOne
    modifies g
  {
    DrawOpeningLists(); DrawClosingLists();
    var shown := g.HandleMove(7);
    assert g.playerOne == [1, 2, 7] && g.playerTwo == [3, 5];
    assert shown == None && g.turn == 1;
    shown := g.HandleMove(4);
    assert g.playerOne == [1, 2, 7] && g.playerTwo == [3, 5, 4];
    assert shown == None && g.turn == 0;
    DrawScenarioStep4(g);
  }

  /** Moves 7 to 8 of `DrawScenario`. */
  method DrawScenarioStep4(g: XandO)
    requires g.Valid() && g.playerOne == [1, 2, 7] && g.playerTwo == [3, 5, 4] && g.turn == 0
    requires g.playerOneName == DefaultPlayerOne
    modifies g
  {
    DrawClosingLists();
    var shown := g.HandleMove(6);
    assert g.playerOne == [1, 2, 7, 6] && g.playerTwo == [3, 5, 4];
    assert shown == None && g.turn == 1;
    shown := g.HandleMove(8);
    assert g.playerOne == [1, 2, 7, 6] && g.playerTwo == [3, 5, 4, 8];
    assert shown == None && g.turn == 0;
    DrawScenarioStep5(g);
  }

  /** Move 9 of `DrawScenario`. */
  method DrawScenarioStep5(g: XandO)
    requires g.Valid() && g.playerOne == [1, 2, 7, 6] && g.playerTwo == [3, 5, 4, 8] && g.turn == 0
    requires g.playerOneName == DefaultPlayerOne
    modifies g
  {
    DrawClosingLists();
    var shown := g.HandleMove(9);
    assert g.playerOne == [1, 2, 7, 6, 9] && g.playerTwo == [3, 5, 4, 8];
    assert shown == Some(NoOne) && g.turn == 0;
    assert ResultMessage(NoOne) == DrawMessage;
  }
}
