/**
 * The gateway's two-player referee (gateway/src/referee.rs, with the error
 * type and the game score of gateway/src/lib.rs): a game keeps one score
 * vector per player; counting and cancelling change the current player's
 * vector in memory and then save or delete the throw by turn number.
 *
 * The stores are one call log, and what they answer is a parameter.
 */
module GatewayReferee {
  import opened Ints
  import opened Outcomes
  import opened ScoreTrackerLib

  /** `gateway::Error`; the reports are kept as their messages. */
  datatype Error = DataAccess(message: string) | NotFound(message: string) | UnexpectedError(message: string)

  /** What a failing integer conversion (`try_into` to `u8`) reports. */
  const INT_CONVERSION_FAILED: string := "out of range integral type conversion attempted"

  /** `max_game_score()` and the `GameScore::new(301)` the referee uses. */
  const MAX_GAME_SCORE: u16 := 301

  datatype PlayerNumber = One | Two

  /**
   * `PlayerNumber::next` as written: the `match` computes the other player
   * but the value is discarded, so the number never changes.
   */
  function Next(p: PlayerNumber): (r: PlayerNumber)
    ensures r == p
  {
    var _ := match p case One => Two case Two => One;
    p
  }

  /** `PlayerNumber::previous` as written: unchanged, exactly like `next`. */
  function Previous(p: PlayerNumber): (r: PlayerNumber)
    ensures r == p
  {
    var _ := match p case One => Two case Two => One;
    p
  }

  /** The turn change `next` and `previous` evidently intend: to the other player. */
  function NextIntended(p: PlayerNumber): (r: PlayerNumber)
    ensures r != p
  {
    match p
    case One => Two
    case Two => One
  }

  /** Intended turn changes alternate the two players. */
  lemma NextIntendedTwice(p: PlayerNumber)
    ensures NextIntended(NextIntended(p)) == p
  {
  }

  /** After a count player One keeps the turn as written; the intended change passes it to Two. */
  lemma NextAsWrittenKeepsTurn()
    ensures Next(One) == One && NextIntended(One) == Two
  {
  }

  /** `PlayerNumber::name`. */
  function Name(p: PlayerNumber): (s: string)
    ensures |s| == 7 && s[..6] == "Player"
    ensures s[6] == if p == One then '1' else '2'
  {
    match p
    case One => "Player1"
    case Two => "Player2"
  }

  /** Different players have different names. */
  lemma NameIsInjective(a: PlayerNumber, b: PlayerNumber)
    ensures Name(a) == Name(b) <==> a == b
  {
    if Name(a) == Name(b) {
      assert Name(a)[6] == Name(b)[6];
    }
  }

  /** `Game`: the current player and each player's throws. */
  class Game {
    var id: Uuid
    var playerNumber: PlayerNumber
    var player1Scores: seq<PlayerScore>
    var player2Scores: seq<PlayerScore>

    constructor (id: Uuid, playerNumber: PlayerNumber, player1Scores: seq<PlayerScore>, player2Scores: seq<PlayerScore>)
      ensures this.id == id && this.playerNumber == playerNumber
      ensures this.player1Scores == player1Scores && this.player2Scores == player2Scores
    {
      this.id := id;
      this.playerNumber := playerNumber;
      this.player1Scores := player1Scores;
      this.player2Scores := player2Scores;
    }

    /** The throws of the player whose turn it is. */
    function CurrentScores(): seq<PlayerScore>
      reads this
    {
      if playerNumber == One then player1Scores else player2Scores
    }
  }

  /** `SaveScoreParameters`. */
  datatype SaveScoreParameters = SaveScoreParameters(gameId: Uuid, playerName: string, score: u8, turnNumber: u8)

  /** `DeleteScoreParameters`. */
  datatype DeleteScoreParameters = DeleteScoreParameters(gameId: Uuid, playerName: string, turnNumber: u8)

  /** The store operations the referee calls. */
  datatype StoreCall =
    | CreateGame
    | FindGame(gameId: Uuid)
    | SaveScore(save: SaveScoreParameters)
    | DeleteScore(delete: DeleteScoreParameters)

  /** The stores, seen through the calls made on them. */
  class Store {
    var calls: seq<StoreCall>

    constructor ()
      ensures calls == []
    {
      calls := [];
    }

    method Record(call: StoreCall)
      modifies this
      ensures calls == old(calls) + [call]
    {
      calls := calls + [call];
    }
  }

  /** `new_game`: whatever the store creates, or its error. */
  method NewGame(store: Store, created: Result<Game, Error>) returns (r: Result<Game, Error>)
    modifies store
    ensures store.calls == old(store.calls) + [CreateGame]
    ensures r == created
  {
    store.Record(CreateGame);
    r := created;
  }

  /**
   * `count_score`: the throw is appended to the current player's vector,
   * classified against 301; the turn is passed with `next` (which, as
   * written, keeps it); then the throw is saved under the turn number
   * `length after the append + 1`, which must fit in a `u8`.
   */
  method CountScore(gameId: Uuid, score: Score, store: Store, fetched: Result<Game, Error>,
                    saved: Result<Unit, Error>) returns (r: Result<Game, Error>)
    requires fetched.Ok? ==> Counted(fetched.value.CurrentScores()) + score.points < U16_LIMIT
    modifies store, if fetched.Ok? then {fetched.value} else {}
    ensures fetched.Err? ==> r == Err(fetched.error) && store.calls == old(store.calls) + [FindGame(gameId)]
    ensures fetched.Ok? ==>
              var game := fetched.value;
              var before := old(game.CurrentScores());
              var after := game.CurrentScores();
              var turnNumber := |after| + 1;
              game.id == old(game.id) && game.playerNumber == old(game.playerNumber)
              && (game.playerNumber == One ==> game.player2Scores == old(game.player2Scores))
              && (game.playerNumber == Two ==> game.player1Scores == old(game.player1Scores))
              && |after| == |before| + 1 && after[..|before|] == before
              && after[|before|].score == score
              && (after[|before|].Overflow? <==> Counted(before) + score.points > MAX_GAME_SCORE)
              && (turnNumber >= U8_LIMIT ==>
                    r == Err(UnexpectedError(INT_CONVERSION_FAILED))
                    && store.calls == old(store.calls) + [FindGame(gameId)])
              && (turnNumber < U8_LIMIT ==>
                    store.calls == old(store.calls) + [FindGame(gameId),
                      SaveScore(SaveScoreParameters(gameId, Name(game.playerNumber), score.points, turnNumber))]
                    && r == if saved.Ok? then Ok(game) else Err(saved.error))
  {
    store.Record(FindGame(gameId));
    var game :- fetched;
    var scoreToSave := score.points;
    var playerName, turnNumber;
    match game.playerNumber {
      case One =>
        game.player1Scores := AddScore(game.player1Scores, score, GameScore(MAX_GAME_SCORE));
        playerName, turnNumber := "Player1", |game.player1Scores| + 1;
      case Two =>
        game.player2Scores := AddScore(game.player2Scores, score, GameScore(MAX_GAME_SCORE));
        playerName, turnNumber := "Player2", |game.player2Scores| + 1;
    }
    game.playerNumber := Next(game.playerNumber);
    if turnNumber >= U8_LIMIT {
      return Err(UnexpectedError(INT_CONVERSION_FAILED));
    }
    store.Record(SaveScore(SaveScoreParameters(gameId, playerName, scoreToSave, turnNumber)));
    var _ :- saved;
    r := Ok(game);
  }

  /**
   * `cancel_score`: the turn number is the current player's vector length
   * plus one, taken before its last throw is popped (nothing is popped from
   * an empty vector); then the throw is deleted by that turn number, which
   * must fit in a `u8`, and the turn goes back with `previous` (which, as
   * written, keeps it).
   */
  method CancelScore(gameId: Uuid, store: Store, fetched: Result<Game, Error>,
                     deleted: Result<Unit, Error>) returns (r: Result<Game, Error>)
    modifies store, if fetched.Ok? then {fetched.value} else {}
    ensures fetched.Err? ==> r == Err(fetched.error) && store.calls == old(store.calls) + [FindGame(gameId)]
    ensures fetched.Ok? ==>
              var game := fetched.value;
              var before := old(game.CurrentScores());
              var turnNumber := |before| + 1;
              game.id == old(game.id) && game.playerNumber == old(game.playerNumber)
              && (game.playerNumber == One ==> game.player2Scores == old(game.player2Scores))
              && (game.playerNumber == Two ==> game.player1Scores == old(game.player1Scores))
              && game.CurrentScores() == (if before == [] then [] else before[..|before| - 1])
              && (turnNumber >= U8_LIMIT ==>
                    r == Err(UnexpectedError(INT_CONVERSION_FAILED))
                    && store.calls == old(store.calls) + [FindGame(gameId)])
              && (turnNumber < U8_LIMIT ==>
                    store.calls == old(store.calls) + [FindGame(gameId),
                      DeleteScore(DeleteScoreParameters(gameId, Name(game.playerNumber), turnNumber))]
                    && r == if deleted.Ok? then Ok(game) else Err(deleted.error))
  {
    store.Record(FindGame(gameId));
    var game :- fetched;
    var playerName, turnNumber;
    match game.playerNumber {
      case One =>
        playerName, turnNumber := "Player1", |game.player1Scores| + 1;
        if game.player1Scores != [] {
          game.player1Scores := game.player1Scores[..|game.player1Scores| - 1];
        }
      case Two =>
        playerName, turnNumber := "Player2", |game.player2Scores| + 1;
        if game.player2Scores != [] {
          game.player2Scores := game.player2Scores[..|game.player2Scores| - 1];
        }
    }
    if turnNumber >= U8_LIMIT {
      return Err(UnexpectedError(INT_CONVERSION_FAILED));
    }
    store.Record(DeleteScore(DeleteScoreParameters(gameId, playerName, turnNumber)));
    var _ :- deleted;
    game.playerNumber := Previous(game.playerNumber);
    r := Ok(game);
  }
}
