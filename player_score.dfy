/**
 * `PlayerScore` (playground/src/player_score.rs): a turn's score, tagged as
 * counting (`Regular`) or as a bust (`Overthrow`).
 */
module PlayerScore {
  import opened Score

  datatype PlayerScore = Regular(score: Score) | Overthrow(score: Score) {
    /** `PlayerScore::score`: the wrapped score, whichever variant holds it. */
    function ScoreOf(): (s: Score)
      ensures this == Regular(s) || this == Overthrow(s)
    {
      match this
      case Regular(s) => s
      case Overthrow(s) => s
    }

    /** `PlayerScore::is_regular`. */
    predicate IsRegular() {
      Regular?
    }

    /** `PlayerScore::is_overthrow`. */
    predicate IsOverthrow() {
      Overthrow?
    }
  }

  /** `PlayerScore::regular`. */
  function NewRegular(s: Score): (ps: PlayerScore)
    ensures ps.IsRegular() && ps.ScoreOf() == s
  {
    Regular(s)
  }

  /** `PlayerScore::overthrow`. */
  function NewOverthrow(s: Score): (ps: PlayerScore)
    ensures ps.IsOverthrow() && ps.ScoreOf() == s
  {
    Overthrow(s)
  }

  /** Every player score is exactly one of regular and overthrow. */
  lemma ExactlyOneKind(ps: PlayerScore)
    ensures ps.IsRegular() != ps.IsOverthrow()
  {
  }
}
