/**
 * The game session the area drives. Its own logic (joining, leaving,
 * applying moves, the round timer, accuracy scoring) is not part of this
 * model: what one of its operations does is given to the model as a
 * GameOutcome, either the session's next state or the error it threw.
 */
module Game {
  import opened Wrappers
  import opened Shapes

  datatype Status = WaitingToStart | InProgress | GameStarted | Over

  /** The session state the area reads and writes: status, the two player slots, the winner and the trace shape. */
  datatype GameState = GameState(
    status: Status,
    player1: Option<string>,
    player2: Option<string>,
    winner: Option<string>,
    traceShape: Option<Shape>)

  /** toModel(): a snapshot of a session, its id and its state. */
  datatype GameInstance = GameInstance(id: string, state: GameState)

  /** An occupant of the area: a player id and the name shown for it. */
  datatype Player = Player(id: string, userName: string)

  /** The move a GameMove command carries: which player slot drew, and its whole trace. */
  datatype Move = Move(playerSlot: int, pixels: seq<Pixel>)

  /** What one of join, leave or applyMove did: the state it left, or the error it threw. */
  datatype GameOutcome = Accepted(next: GameState) | Threw(message: string)

  /** The state of a session nobody has joined yet. */
  function InitialState(): GameState
  {
    GameState(WaitingToStart, None, None, None, None)
  }

  class DrawThePerfectShapeGame {
    const id: string
    var state: GameState

    constructor (freshID: string)
      ensures id == freshID && state == InitialState()
    {
      id := freshID;
      state := InitialState();
    }

    function ToModel(): GameInstance
      reads this
    {
      GameInstance(id, state)
    }

    /**
     * The effect of join, leave or applyMove, whose bodies are not part of
     * this model: the state the outcome gives, or no change when it threw.
     */
    method Perform(outcome: GameOutcome) returns (thrown: Option<string>)
      modifies this
      ensures outcome.Accepted? ==> thrown == None && state == outcome.next
      ensures outcome.Threw? ==> thrown == Some(outcome.message) && state == old(state)
    {
      match outcome
      case Accepted(next) =>
        state := next;
        thrown := None;
      case Threw(message) =>
        thrown := Some(message);
    }
  }
}
