/**
 * `ScoreDetails` (playground/src/score_details.rs): a stored throw as the game
 * state replays it; loading drops the game id and the round number.
 */
module ScoreDetails {
  import opened Ints
  import opened PlayerScore

  datatype ScoreDetails = ScoreDetails(id: Uuid, playerNumber: usize, playerScore: PlayerScore)

  /** `LoadScoreDetailsParameters`. */
  datatype LoadScoreDetailsParameters = LoadScoreDetailsParameters(
    gameId: Uuid, id: Uuid, playerNumber: usize, playerScore: PlayerScore, roundNumber: u8)

  /** `ScoreDetails::load`: keeps the id, the player number and the score. */
  function Load(p: LoadScoreDetailsParameters): (d: ScoreDetails)
    ensures Id(d) == p.id && PlayerNumber(d) == p.playerNumber && PlayerScoreOf(d) == p.playerScore
  {
    ScoreDetails(p.id, p.playerNumber, p.playerScore)
  }

  /** `ScoreDetails::id`. */
  function Id(d: ScoreDetails): Uuid {
    d.id
  }

  /** `ScoreDetails::player_number`. */
  function PlayerNumber(d: ScoreDetails): usize {
    d.playerNumber
  }

  /** `ScoreDetails::player_score`. */
  function PlayerScoreOf(d: ScoreDetails): PlayerScore {
    d.playerScore
  }

  /**
   * Loading depends on the kept fields alone: two loads agree exactly when
   * their ids, player numbers and scores do, whatever the game id and round.
   */
  lemma LoadForgetsGameAndRound(p: LoadScoreDetailsParameters, q: LoadScoreDetailsParameters)
    ensures Load(p) == Load(q) <==>
              p.id == q.id && p.playerNumber == q.playerNumber && p.playerScore == q.playerScore
  {
  }
}
