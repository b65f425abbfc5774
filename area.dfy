/**
 * The Draw the Perfect Shape game area: it holds at most one game session,
 * routes the commands of the area's players to it, installs trace shapes
 * when a difficulty is picked, and records the outcome of each finished game
 * in its history.
 */
module Area {
  import opened Wrappers
  import opened Shapes
  import opened Game
  import opened History

  /** The commands a player can send to the area; Other stands for every other command kind. */
  datatype Command =
    | GameMove(gameID: string, move: Move)
    | JoinGame
    | PickDifficulty(gameID: string, gameDifficulty: string)
    | LeaveGame(gameID: string)
    | Other(kind: string)
  {
    /** The commands that act on the current game and so must name it. */
    predicate IsGameBound()
    {
      GameMove? || PickDifficulty? || LeaveGame?
    }
  }

  /** Why a command was rejected: the area's three messages, or the error the game itself threw. */
  datatype AreaError =
    | GameNotInProgress
    | GameIdMismatch
    | InvalidCommand
    | GameRejected(message: string)

  class DrawThePerfectShapeGameArea {
    var game: DrawThePerfectShapeGame?
    var occupants: seq<Player>
    var history: seq<GameResult>
    /** How many times the area has announced a change (_emitAreaChanged). */
    var emitted: nat

    constructor (occupants: seq<Player>)
      ensures game == null && this.occupants == occupants && history == [] && emitted == 0
    {
      game := null;
      this.occupants := occupants;
      history := [];
      emitted := 0;
    }

    /** The id of the current game, if there is one. */
    function CurrentID(): Option<string>
      reads this
    {
      if game == null then None else Some(game.id)
    }

    /** history.find: the first result recorded for the game id. */
    method FindResult(gameID: string) returns (found: Option<GameResult>)
      ensures found.Some? <==> HasResultFor(history, gameID)
      ensures found.Some? ==> found.value in history && found.value.gameID == gameID
    {
      var i := 0;
      while i < |history|
        invariant 0 <= i <= |history|
        invariant forall j :: 0 <= j < i ==> history[j].gameID != gameID
      {
        if history[i].gameID == gameID {
          return Some(history[i]);
        }
        i := i + 1;
      }
      found := None;
    }

    /** occupants.find: the first occupant with the given id. */
    method FindOccupant(id: string) returns (found: Option<Player>)
      ensures found == FirstWithId(occupants, id)
    {
      var i := 0;
      while i < |occupants|
        invariant 0 <= i <= |occupants|
        invariant FirstWithId(occupants[i..], id) == FirstWithId(occupants, id)
      {
        if occupants[i].id == id {
          return Some(occupants[i]);
        }
        assert occupants[i..][1..] == occupants[i + 1..];
        i := i + 1;
      }
      found := None;
    }

    /** The occupant's userName, or the raw id when there is no such occupant or its name is empty. */
    method ResolveName(id: string) returns (name: string)
      ensures name == DisplayName(occupants, id)
    {
      var occupant := FindOccupant(id);
      name := if occupant.Some? && occupant.value.userName != "" then occupant.value.userName else id;
    }

    /**
     * _stateUpdated: on an OVER state, record the current game's result once;
     * then announce the change.
     */
    method StateUpdated(updated: GameInstance)
      modifies this
      ensures history == Record(old(history), occupants, CurrentID(), updated.state)
      ensures old(history) <= history
      ensures UniqueIds(old(history)) ==> UniqueIds(history)
      ensures game == old(game) && occupants == old(occupants) && emitted == old(emitted) + 1
    {
      if updated.state.status == Over {
        var gameID := if game != null then Some(game.id) else None;
        if gameID.Some? && gameID.value != "" {
          var prior := FindResult(gameID.value);
          if prior.None? {
            var player1, player2 := updated.state.player1, updated.state.player2;
            if player1.Some? && player1.value != "" && player2.Some? && player2.value != "" {
              var p1Name := ResolveName(player1.value);
              var p2Name := ResolveName(player2.value);
              history := history + [GameResult(gameID.value, map[
                p1Name := if updated.state.winner == player1 then 1 else 0,
                p2Name := if updated.state.winner == player2 then 1 else 0])];
            }
          }
        }
      }
      emitted := emitted + 1;
      RecordAppendOnly(old(history), occupants, CurrentID(), updated.state);
      if UniqueIds(old(history)) {
        RecordKeepsIdsUnique(old(history), occupants, CurrentID(), updated.state);
      }
    }

    /**
     * handleDifficulty: for a known difficulty, draw one of its titles with
     * the random draw and install the shape as the current game's trace
     * shape; an unknown difficulty, or no game, changes nothing.
     */
    method HandleDifficulty(gameDifficulty: string, random: real)
      requires 0.0 <= random < 1.0
      modifies game
      ensures game != null && TierTitles(gameDifficulty) != [] ==>
        game.state == old(game.state).(traceShape := Some(MakeShape(RandomShape(TierTitles(gameDifficulty), random), gameDifficulty)))
      ensures game != null && TierTitles(gameDifficulty) == [] ==> game.state == old(game.state)
    {
      var difficulties: seq<string> := [];
      if gameDifficulty == "Easy" {
        difficulties := ["Circle", "Square", "Star"];
      }
      if gameDifficulty == "Medium" {
        difficulties := ["Umbrella", "House", "Christmas Tree"];
      }
      if gameDifficulty == "Hard" {
        difficulties := ["Helicopter", "Car", "Husky"];
      }
      assert difficulties == TierTitles(gameDifficulty);
      if |difficulties| > 0 {
        var randomShape := RandomShape(difficulties, random);
        var traceShapePixels := TraceShapePixels(randomShape);
        var traceShape := Shape(randomShape, gameDifficulty, traceShapePixels);
        if game != null {
          game.state := game.state.(traceShape := Some(traceShape));
        }
      }
    }

    /**
     * handleCommand. `outcome` is what the game's join, leave or applyMove
     * does with the command, `freshID` the id a newly created game gets, and
     * `random` the draw of Math.random for PickDifficulty.
     */
    method HandleCommand(command: Command, player: Player, outcome: GameOutcome, freshID: string, random: real)
      returns (result: Result<Option<string>, AreaError>)
      requires 0.0 <= random < 1.0
      modifies this, game
      // Rejected by the area itself: nothing changes.
      ensures command.Other? ==> result == Failure(InvalidCommand)
      ensures command.IsGameBound() && old(game) == null ==> result == Failure(GameNotInProgress)
      ensures command.IsGameBound() && old(game) != null && old(game).id != command.gameID ==>
        result == Failure(GameIdMismatch)
      ensures result in {Failure(InvalidCommand), Failure(GameNotInProgress), Failure(GameIdMismatch)} ==>
        && game == old(game) && history == old(history) && emitted == old(emitted)
        && (game != null ==> game.state == old(game.state))
      // The game bound commands that name the current game reach it.
      ensures command.IsGameBound() && old(game) != null && old(game).id == command.gameID ==>
        game == old(game) && result != Failure(GameNotInProgress) && result != Failure(GameIdMismatch)
      ensures (command.GameMove? || command.LeaveGame?) && old(game) != null && old(game).id == command.gameID ==>
        match outcome
        case Accepted(next) => result == Success(None) && game.state == next
        case Threw(message) => result == Failure(GameRejected(message)) && game.state == old(game.state)
      ensures command.PickDifficulty? && old(game) != null && old(game).id == command.gameID ==>
        && result == Success(None)
        && (TierTitles(command.gameDifficulty) == [] ==> game.state == old(game.state))
        && (TierTitles(command.gameDifficulty) != [] ==> game.state == old(game.state).(traceShape :=
              Some(MakeShape(RandomShape(TierTitles(command.gameDifficulty), random), command.gameDifficulty))))
      // JoinGame creates a game when there is none or it is over, and keeps it otherwise.
      ensures command.JoinGame? ==>
        && game != null
        && (old(game) == null || old(game.state.status) == Over ==> fresh(game) && game.id == freshID)
        && (old(game) != null && old(game.state.status) != Over ==> game == old(game))
        && match outcome
           case Accepted(next) => result == Success(Some(game.id)) && game.state == next
           case Threw(message) => (
             && result == Failure(GameRejected(message))
             && (game == old(game) ==> game.state == old(game.state))
             && (game != old(game) ==> game.state == InitialState()))
      // A command the game accepted is recorded and announced; a rejected one is not.
      ensures result.Success? ==>
        game != null && history == Record(old(history), occupants, Some(game.id), game.state) && emitted == old(emitted) + 1
      ensures result.Failure? ==> history == old(history) && emitted == old(emitted)
      ensures old(history) <= history
      ensures UniqueIds(old(history)) ==> UniqueIds(history)
      ensures occupants == old(occupants)
    {
      if command.GameMove? {
        var game := this.game;
        if game == null {
          return Failure(GameNotInProgress);
        }
        if game.id != command.gameID {
          return Failure(GameIdMismatch);
        }
        var thrown := game.Perform(outcome);
        if thrown.Some? {
          return Failure(GameRejected(thrown.value));
        }
        StateUpdated(game.ToModel());
        return Success(None);
      }
      if command.JoinGame? {
        var game := this.game;
        if game == null || game.state.status == Over {
          game := new DrawThePerfectShapeGame(freshID);
          this.game := game;
        }
        var thrown := game.Perform(outcome);
        if thrown.Some? {
          return Failure(GameRejected(thrown.value));
        }
        StateUpdated(game.ToModel());
        return Success(Some(game.id));
      }
      if command.PickDifficulty? {
        var game := this.game;
        if game == null {
          return Failure(GameNotInProgress);
        }
        if game.id != command.gameID {
          return Failure(GameIdMismatch);
        }
        HandleDifficulty(command.gameDifficulty, random);
        StateUpdated(game.ToModel());
        return Success(None);
      }
      if command.LeaveGame? {
        var game := this.game;
        if game == null {
          return Failure(GameNotInProgress);
        }
        if game.id != command.gameID {
          return Failure(GameIdMismatch);
        }
        var thrown := game.Perform(outcome);
        if thrown.Some? {
          return Failure(GameRejected(thrown.value));
        }
        StateUpdated(game.ToModel());
        return Success(None);
      }
      return Failure(InvalidCommand);
    }
  }
}
