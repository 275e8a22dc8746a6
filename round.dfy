/**
 * `Round` (playground/src/round.rs): one stored throw of a game, keyed by its
 * id, with the thrower's number and the round it belongs to.
 */
module Round {
  import opened Ints
  import opened PlayerScore

  datatype Round = Round(id: Uuid, playerNumber: usize, playerScore: PlayerScore, number: u8)

  /** `LoadRoundParameters`. */
  datatype LoadRoundParameters =
    LoadRoundParameters(id: Uuid, playerNumber: usize, playerScore: PlayerScore, number: u8)

  /** `Round::load`: every parameter is kept and read back by its accessor. */
  function Load(p: LoadRoundParameters): (r: Round)
    ensures Id(r) == p.id && Number(r) == p.number
    ensures PlayerNumber(r) == p.playerNumber && PlayerScoreOf(r) == p.playerScore
  {
    Round(p.id, p.playerNumber, p.playerScore, p.number)
  }

  /** `Round::id`. */
  function Id(r: Round): Uuid {
    r.id
  }

  /** `Round::number`. */
  function Number(r: Round): u8 {
    r.number
  }

  /** `Round::player_number`. */
  function PlayerNumber(r: Round): usize {
    r.playerNumber
  }

  /** `Round::player_score`. */
  function PlayerScoreOf(r: Round): PlayerScore {
    r.playerScore
  }

  /** Loading loses nothing: the accessors give back exactly the parameters loaded. */
  lemma LoadIsLossless(p: LoadRoundParameters, q: LoadRoundParameters)
    ensures Load(p) == Load(q) <==> p == q
  {
  }
}

/**
 * The numbered round of the revision of `playground::Round` that
 * dataspine/src/repo.rs and api/src/convert.rs are written against: a round
 * number and a player number (both `Number`) and the player score.
 */
module NumberedRound {
  import N = Number
  import opened PlayerScore

  datatype NumberedRound = NumberedRound(number: N.Number, playerNumber: N.Number, playerScore: PlayerScore)
}
