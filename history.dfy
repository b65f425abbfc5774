/**
 * The match history of the game area, as pure definitions: which occupant a
 * player id names, the scores of a finished game, and the history that
 * results when the area observes a game state.
 */
module History {
  import opened Wrappers
  import opened Game

  /** One recorded match: the game's id and a score of 1 or 0 per display name. */
  datatype GameResult = GameResult(gameID: string, scores: map<string, int>)

  /** The first occupant with the given id, as occupants.find does it. */
  function FirstWithId(occupants: seq<Player>, id: string): (r: Option<Player>)
    ensures r.None? <==> forall k :: 0 <= k < |occupants| ==> occupants[k].id != id
    ensures r.Some? ==> exists k :: 0 <= k < |occupants| && occupants[k] == r.value && IsFirstWithId(occupants, id, k)
  {
    if |occupants| == 0 then None
    else if occupants[0].id == id then
      assert IsFirstWithId(occupants, id, 0);
      Some(occupants[0])
    else
      var r := FirstWithId(occupants[1..], id);
      assert r.Some? ==> exists k :: 0 <= k < |occupants| && occupants[k] == r.value && IsFirstWithId(occupants, id, k) by {
        if r.Some? {
          var k :| 0 <= k < |occupants[1..]| && occupants[1..][k] == r.value && IsFirstWithId(occupants[1..], id, k);
          assert IsFirstWithId(occupants, id, k + 1);
        }
      }
      r
  }

  /** Index k holds the first occupant whose id is the given one. */
  ghost predicate IsFirstWithId(occupants: seq<Player>, id: string, k: int)
  {
    0 <= k < |occupants| && occupants[k].id == id &&
    forall j :: 0 <= j < k ==> occupants[j].id != id
  }

  /**
   * The name a player id is recorded under: the userName of the first
   * occupant with that id, or the raw id when no occupant has it or that
   * userName is empty (the `||` fallback treats "" as missing).
   */
  function DisplayName(occupants: seq<Player>, id: string): (name: string)
    ensures (forall k :: 0 <= k < |occupants| ==> occupants[k].id != id) ==> name == id
    ensures forall k :: IsFirstWithId(occupants, id, k) ==>
      name == if occupants[k].userName != "" then occupants[k].userName else id
    ensures name == id || exists k :: 0 <= k < |occupants| && occupants[k].id == id && occupants[k].userName == name
  {
    match FirstWithId(occupants, id)
    case Some(p) => if p.userName != "" then p.userName else id
    case None => id
  }

  /** 1 for the winner, 0 for everybody else. */
  function Score(player: string, winner: Option<string>): int
  {
    if winner == Some(player) then 1 else 0
  }

  /**
   * The scores object of a result: the two display names with their scores.
   * As in an object literal, an equal second name overwrites the first.
   */
  function Scores(p1Name: string, p2Name: string, player1: string, player2: string, winner: Option<string>): map<string, int>
  {
    map[p1Name := Score(player1, winner)][p2Name := Score(player2, winner)]
  }

  /** There is a result recorded for the game id. */
  predicate HasResultFor(history: seq<GameResult>, gameID: string)
  {
    exists i :: 0 <= i < |history| && history[i].gameID == gameID
  }

  /** No game id is recorded twice. */
  ghost predicate UniqueIds(history: seq<GameResult>)
  {
    forall i, j :: 0 <= i < j < |history| ==> history[i].gameID != history[j].gameID
  }

  /**
   * A result is due when the observed state is OVER, the area's current game
   * has a (non-empty) id not yet in the history, and both player slots hold
   * a (non-empty) id.
   */
  predicate Due(history: seq<GameResult>, currentID: Option<string>, state: GameState)
  {
    && state.status == Over
    && currentID.Some? && currentID.value != ""
    && !HasResultFor(history, currentID.value)
    && state.player1.Some? && state.player1.value != ""
    && state.player2.Some? && state.player2.value != ""
  }

  /** The result recorded for a due game. */
  function ResultOf(occupants: seq<Player>, gameID: string, state: GameState): GameResult
    requires state.player1.Some? && state.player2.Some?
  {
    var player1, player2 := state.player1.value, state.player2.value;
    GameResult(gameID, Scores(DisplayName(occupants, player1), DisplayName(occupants, player2), player1, player2, state.winner))
  }

  /** The history after the area observes `state` while its current game has id `currentID`. */
  function Record(history: seq<GameResult>, occupants: seq<Player>, currentID: Option<string>, state: GameState): seq<GameResult>
  {
    if Due(history, currentID, state) then history + [ResultOf(occupants, currentID.value, state)] else history
  }

  /** Record applied n times in a row to the same observation. */
  function RecordRepeated(n: nat, history: seq<GameResult>, occupants: seq<Player>, currentID: Option<string>, state: GameState): seq<GameResult>
  {
    if n == 0 then history
    else RecordRepeated(n - 1, Record(history, occupants, currentID, state), occupants, currentID, state)
  }

  // ---------------------------------------------------------------------------
  // Properties of recording

  /** History is append-only: the old history is a prefix, and at most one entry is added, exactly when one is due. */
  lemma RecordAppendOnly(history: seq<GameResult>, occupants: seq<Player>, currentID: Option<string>, state: GameState)
    ensures var h := Record(history, occupants, currentID, state);
      && history <= h
      && |h| == if Due(history, currentID, state) then |history| + 1 else |history|
  {
  }

  /** A game that already has a result, or any state that is not OVER, leaves the history unchanged. */
  lemma RecordOnlyWhenDue(history: seq<GameResult>, occupants: seq<Player>, currentID: Option<string>, state: GameState)
    ensures Record(history, occupants, currentID, state) != history <==> Due(history, currentID, state)
    ensures state.status != Over ==> Record(history, occupants, currentID, state) == history
    ensures currentID.Some? && HasResultFor(history, currentID.value) ==> Record(history, occupants, currentID, state) == history
  {
    var h := Record(history, occupants, currentID, state);
    if Due(history, currentID, state) {
      assert |h| == |history| + 1;
    }
  }

  /** Observing the same state again records nothing more. */
  lemma RecordIdempotent(history: seq<GameResult>, occupants: seq<Player>, currentID: Option<string>, state: GameState)
    ensures var h := Record(history, occupants, currentID, state);
      Record(h, occupants, currentID, state) == h
  {
    var h := Record(history, occupants, currentID, state);
    if Due(history, currentID, state) {
      assert h[|history|].gameID == currentID.value;
      assert HasResultFor(h, currentID.value);
    }
  }

  /** Any number n >= 1 of observations of the same state leaves the history one observation leaves. */
  lemma {:induction false} RecordRepeatedOnce(n: nat, history: seq<GameResult>, occupants: seq<Player>, currentID: Option<string>, state: GameState)
    requires n >= 1
    ensures RecordRepeated(n, history, occupants, currentID, state) == Record(history, occupants, currentID, state)
  {
    var h := Record(history, occupants, currentID, state);
    if n > 1 {
      RecordRepeatedOnce(n - 1, h, occupants, currentID, state);
      RecordIdempotent(history, occupants, currentID, state);
    }
  }

  /** Recording never puts a second entry for a game id into the history. */
  lemma RecordKeepsIdsUnique(history: seq<GameResult>, occupants: seq<Player>, currentID: Option<string>, state: GameState)
    requires UniqueIds(history)
    ensures UniqueIds(Record(history, occupants, currentID, state))
  {
    var h := Record(history, occupants, currentID, state);
    if Due(history, currentID, state) {
      forall i, j | 0 <= i < j < |h| ensures h[i].gameID != h[j].gameID {
        if j == |history| {
          assert h[i] == history[i];
        }
      }
    }
  }

  /** The entry a due observation appends: the current game's id, and each player's name scored 1 iff it won. */
  lemma RecordedEntry(history: seq<GameResult>, occupants: seq<Player>, currentID: Option<string>, state: GameState)
    requires Due(history, currentID, state)
    ensures var h := Record(history, occupants, currentID, state);
      var e := h[|h| - 1];
      var p1Name := DisplayName(occupants, state.player1.value);
      var p2Name := DisplayName(occupants, state.player2.value);
      && e.gameID == currentID.value
      && e.scores.Keys == {p1Name, p2Name}
      && e.scores[p2Name] == (if state.winner == state.player2 then 1 else 0)
      && (p1Name != p2Name ==> e.scores[p1Name] == (if state.winner == state.player1 then 1 else 0))
      && (state.winner.None? ==> forall name :: name in e.scores ==> e.scores[name] == 0)
  {
  }

  /** Scores: 1 exactly for the winner's name, 0 otherwise; with no winner every score is 0. */
  lemma ScoreRule(p1Name: string, p2Name: string, player1: string, player2: string, winner: Option<string>)
    requires p1Name != p2Name
    ensures var s := Scores(p1Name, p2Name, player1, player2, winner);
      && s.Keys == {p1Name, p2Name}
      && (s[p1Name] == 1 <==> winner == Some(player1))
      && (s[p2Name] == 1 <==> winner == Some(player2))
      && (forall name :: name in s ==> s[name] == 0 || s[name] == 1)
      && (winner.None? ==> s[p1Name] == 0 && s[p2Name] == 0)
  {
  }

  /** Two players recorded under the same name: only the second player's score survives. */
  lemma ScoresNameCollision(name: string, player1: string, player2: string, winner: Option<string>)
    ensures Scores(name, name, player1, player2, winner) == map[name := Score(player2, winner)]
  {
  }
}
