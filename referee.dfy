/**
 * The playground referee (playground/src/referee.rs): cancelling, counting and
 * starting, as ordered calls on the game and score stores.
 *
 * The stores are one call log: each operation records the calls it makes, in
 * order, and what the store answers is a parameter. `GameState::new_turn`
 * forwards to the score tracker, which is not part of this model, so the
 * player it hands back is a parameter too.
 */
module Referee {
  import opened Ints
  import opened Outcomes
  import opened Errors
  import opened PlayerNumber
  import opened PlayerScore
  import opened ScoreDetails
  import GS = GameState

  /** `InsertScoreParameters`. */
  datatype InsertScoreParameters =
    InsertScoreParameters(gameId: Uuid, playerNumber: PlayerNumber, playerScore: PlayerScore, roundNumber: u8)

  /** The store operations the referee calls. */
  datatype StoreCall =
    | GetGameState(gameId: Uuid)
    | DeleteScore(id: Uuid)
    | InsertScore(parameters: InsertScoreParameters)
    | InsertGamePreview

  /** The stores, seen through the calls made on them. */
  class Store {
    var calls: seq<StoreCall>

    constructor ()
      ensures calls == []
    {
      calls := [];
    }

    method Record(call: StoreCall)
      modifies this
      ensures calls == old(calls) + [call]
    {
      calls := calls + [call];
    }
  }

  /** What `new_turn` hands back: the player who threw, its round, and its last score. */
  datatype TurnPlayer = TurnPlayer(number: PlayerNumber, roundNumber: nat, lastScore: Option<PlayerScore>)

  const EMPTY_SCORES_MESSAGE: string := "Empty scores list"
  const NO_LAST_SCORE_MESSAGE: string := "No last score"

  /**
   * `cancel_last_score`: fetch the state; refuse an empty history without
   * deleting anything; otherwise delete the last throw's id from the store
   * and only then drop that throw from the history.
   */
  method CancelLastScore(gameId: Uuid, store: Store, fetched: Result<GS.GameState, Error>,
                         deleted: Result<Unit, Error>) returns (r: Result<GS.GameState, Error>)
    requires fetched.Ok? ==> fetched.value.Valid()
    modifies store, if fetched.Ok? then {fetched.value} else {}
    ensures fetched.Err? ==> r == Err(fetched.error) && store.calls == old(store.calls) + [GetGameState(gameId)]
    ensures fetched.Ok? && old(fetched.value.scoreDetails) == [] ==>
              r == Err(FailedPrecondition(EMPTY_SCORES_MESSAGE))
              && store.calls == old(store.calls) + [GetGameState(gameId)]
    ensures fetched.Ok? && old(fetched.value.scoreDetails) != [] ==>
              var history := old(fetched.value.scoreDetails);
              store.calls == old(store.calls) + [GetGameState(gameId), DeleteScore(history[|history| - 1].id)]
              && (deleted.Err? ==> r == Err(deleted.error))
              && (deleted.Ok? ==> r.Ok? && fresh(r.value) && r.value.Valid()
                                  && r.value.gameId == old(fetched.value.gameId)
                                  && r.value.scoreDetails == history[..|history| - 1])
  {
    store.Record(GetGameState(gameId));
    var gameState :- fetched;
    var last := gameState.LastScoreDetail();
    if last.None? {
      return Err(FailedPrecondition(EMPTY_SCORES_MESSAGE));
    }
    store.Record(DeleteScore(last.value.id));
    var _ :- deleted;
    r := gameState.PopScoreDetail();
  }

  /**
   * `count_score`: fetch the state, take the turn, insert the thrower's last
   * score with its number and round (cast to `u8`), then push the stored
   * throw onto the history. No last score fails before anything is inserted.
   */
  method CountScore(gameId: Uuid, store: Store, fetched: Result<GS.GameState, Error>,
                    turn: TurnPlayer, inserted: Result<ScoreDetails, Error>) returns (r: Result<GS.GameState, Error>)
    requires fetched.Ok? && inserted.Ok? ==> GS.Loadable(fetched.value.scoreDetails + [inserted.value])
    modifies store, if fetched.Ok? then {fetched.value} else {}
    ensures fetched.Err? ==> r == Err(fetched.error) && store.calls == old(store.calls) + [GetGameState(gameId)]
    ensures fetched.Ok? && turn.lastScore.None? ==>
              r == Err(FailedPrecondition(NO_LAST_SCORE_MESSAGE))
              && store.calls == old(store.calls) + [GetGameState(gameId)]
    ensures fetched.Ok? && turn.lastScore.Some? ==>
              store.calls == old(store.calls) + [GetGameState(gameId),
                InsertScore(InsertScoreParameters(gameId, turn.number, turn.lastScore.value, AsU8(turn.roundNumber)))]
              && (inserted.Err? ==> r == Err(inserted.error))
              && (inserted.Ok? ==> r.Ok? && fresh(r.value) && r.value.Valid()
                                   && r.value.gameId == old(fetched.value.gameId)
                                   && r.value.scoreDetails == old(fetched.value.scoreDetails) + [inserted.value])
  {
    store.Record(GetGameState(gameId));
    var gameState :- fetched;
    if turn.lastScore.None? {
      return Err(FailedPrecondition(NO_LAST_SCORE_MESSAGE));
    }
    var parameters := InsertScoreParameters(gameId, turn.number, turn.lastScore.value, AsU8(turn.roundNumber));
    store.Record(InsertScore(parameters));
    var scoreDetails :- inserted;
    r := gameState.PushScoreDetails(scoreDetails);
  }

  /** `start_game`: insert a game preview and load its id with an empty history. */
  method StartGame(store: Store, preview: Result<Uuid, Error>) returns (r: Result<GS.GameState, Error>)
    modifies store
    ensures store.calls == old(store.calls) + [InsertGamePreview]
    ensures preview.Err? ==> r == Err(preview.error)
    ensures preview.Ok? ==> r.Ok? && fresh(r.value) && r.value.Valid()
                            && r.value.gameId == preview.value && r.value.scoreDetails == []
  {
    store.Record(InsertGamePreview);
    var gameId :- preview;
    r := GS.GameState.Load(gameId, []);
  }
}
