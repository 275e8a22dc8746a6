/**
 * The playground's score tracker helpers (playground/src/score_tracker.rs):
 * a `Vec<PlayerScore>` of one player's throws, classified against a game
 * score as they are pushed, and the fold that totals the counted ones.
 */
module ScoreTracker {
  import opened Ints

  /** `Score`: an unchecked `u8` quantity of points. */
  datatype Score = Score(points: u8)

  /** `GameScore`: a `u16` total or limit. */
  datatype GameScore = GameScore(value: u16)

  /** `PlayerScore`: a counted throw (`Score`) or a bust (`Overthrow`). */
  datatype PlayerScore = Score(score: Score) | Overthrow(score: Score) {
    /** `PlayerScore::into_inner`: the points thrown, whichever the variant. */
    function IntoInner(): (p: u8)
      ensures this == PlayerScore.Score(Score.Score(p)) || this == Overthrow(Score.Score(p))
    {
      match this
      case Score(s) => s.points
      case Overthrow(s) => s.points
    }
  }

  /** `PlayerScore::score`: a counted throw of `points`. */
  function NewScore(points: u8): (ps: PlayerScore)
    ensures ps.Score? && ps.IntoInner() == points
  {
    PlayerScore.Score(Score.Score(points))
  }

  /** `PlayerScore::overthrow`: a bust of `points`. */
  function NewOverthrow(points: u8): (ps: PlayerScore)
    ensures ps.Overthrow? && ps.IntoInner() == points
  {
    Overthrow(Score.Score(points))
  }

  /** `GameScore::new`; `value` reads it back unchanged. */
  function NewGameScore(x: u16): (g: GameScore)
    ensures Value(g) == x
  {
    GameScore(x)
  }

  /** `GameScore::value`. */
  function Value(g: GameScore): u16 {
    g.value
  }

  /** The points a throw adds to the total: its points if counted, none if a bust. */
  function Counts(ps: PlayerScore): nat {
    match ps
    case Score(s) => s.points
    case Overthrow(_) => 0
  }

  /** Reference definition of the counted total, element by element. */
  function Counted(scores: seq<PlayerScore>): nat {
    if scores == [] then 0 else Counts(scores[0]) + Counted(scores[1..])
  }

  /** The closure `total_game_score` folds with, from accumulator `acc`. */
  function Fold(acc: nat, scores: seq<PlayerScore>): nat
    decreases scores
  {
    if scores == [] then acc else Fold(Counts(scores[0]) + acc, scores[1..])
  }

  /** The fold from any accumulator adds exactly the counted total. */
  lemma {:induction false} FoldIsCounted(acc: nat, scores: seq<PlayerScore>)
    ensures Fold(acc, scores) == acc + Counted(scores)
    decreases scores
  {
    if scores != [] {
      FoldIsCounted(Counts(scores[0]) + acc, scores[1..]);
    }
  }

  /** Appending a throw adds what that throw counts, and nothing else. */
  lemma {:induction false} CountedAppend(scores: seq<PlayerScore>, ps: PlayerScore)
    ensures Counted(scores + [ps]) == Counted(scores) + Counts(ps)
  {
    if scores != [] {
      assert (scores + [ps])[1..] == scores[1..] + [ps];
      CountedAppend(scores[1..], ps);
    }
  }

  /**
   * `total_game_score`: the `u16` fold over the counted throws. Its running
   * sums never exceed the final one, so the fold cannot overflow exactly when
   * the counted total fits in a `u16`.
   */
  function TotalGameScore(scores: seq<PlayerScore>): (g: GameScore)
    requires Counted(scores) < U16_LIMIT
    ensures g.value == Counted(scores)
  {
    FoldIsCounted(0, scores);
    GameScore(Fold(0, scores))
  }

  /**
   * `AddScore for Vec<PlayerScore>`: pushes one throw, a bust exactly when the
   * counted total plus the throw exceeds `gameScore`, and returns it. The
   * earlier throws are kept, and a total within the limit stays within it.
   */
  method AddScore(scores: seq<PlayerScore>, score: Score, gameScore: GameScore)
    returns (updated: seq<PlayerScore>, pushed: PlayerScore)
    requires Counted(scores) + score.points < U16_LIMIT
    ensures updated == scores + [pushed]
    ensures pushed.IntoInner() == score.points
    ensures pushed.Overthrow? <==> Counted(scores) + score.points > gameScore.value
    ensures Counted(updated) == if pushed.Score? then Counted(scores) + score.points else Counted(scores)
    ensures Counted(scores) <= gameScore.value ==> Counted(updated) <= gameScore.value
  {
    var playerGameScore := TotalGameScore(scores);
    pushed := if playerGameScore.value + score.points > gameScore.value
              then Overthrow(score) else PlayerScore.Score(score);
    updated := scores + [pushed];
    CountedAppend(scores, pushed);
  }
}
