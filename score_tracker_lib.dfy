/**
 * The standalone score tracker crate (score_tracker/src/lib.rs): the same
 * push-and-classify rule as the playground helpers, with the bust variant
 * named `Overflow`, plus subtraction and comparison on `GameScore`.
 */
module ScoreTrackerLib {
  import opened Ints
  import opened Outcomes

  /** `Score`: an unchecked `u8` quantity of points. */
  datatype Score = Score(points: u8)

  /** `GameScore`: a `u16` total or limit. */
  datatype GameScore = GameScore(value: u16)

  /** `PlayerScore`: a counted throw (`Score`) or a bust (`Overflow`). */
  datatype PlayerScore = Score(score: Score) | Overflow(score: Score)

  datatype Ordering = Less | Equal | Greater

  /** `Score::new`. */
  function NewScore(x: u8): (s: Score)
    ensures s.points == x
  {
    Score.Score(x)
  }

  /** `GameScore::new`. */
  function NewGameScore(x: u16): (g: GameScore)
    ensures g.value == x
  {
    GameScore(x)
  }

  /** The points a throw adds to the total: its points if counted, none if a bust. */
  function Counts(ps: PlayerScore): nat {
    match ps
    case Score(s) => s.points
    case Overflow(_) => 0
  }

  /** Reference definition of the counted total, most recent throw last. */
  function Counted(scores: seq<PlayerScore>): nat {
    if scores == [] then 0 else Counted(scores[..|scores| - 1]) + Counts(scores[|scores| - 1])
  }

  /** The same total, peeled from the front. */
  lemma {:induction false} CountedFromFront(scores: seq<PlayerScore>)
    requires scores != []
    ensures Counted(scores) == Counts(scores[0]) + Counted(scores[1..])
  {
    if |scores| > 1 {
      var rest := scores[..|scores| - 1];
      assert rest[1..] == scores[1..][..|scores[1..]| - 1];
      CountedFromFront(rest);
    } else {
      assert scores[..|scores| - 1] == [] && scores[1..] == [];
    }
  }

  /** The closure `total_game_score` folds with, from accumulator `acc`. */
  function Fold(acc: nat, scores: seq<PlayerScore>): nat
    decreases scores
  {
    if scores == [] then acc else Fold(Counts(scores[0]) + acc, scores[1..])
  }

  /** The fold from any accumulator adds exactly the counted total. */
  lemma {:induction false} FoldIsCounted(acc: nat, scores: seq<PlayerScore>)
    ensures Fold(acc, scores) == acc + Counted(scores)
    decreases scores
  {
    if scores != [] {
      CountedFromFront(scores);
      FoldIsCounted(Counts(scores[0]) + acc, scores[1..]);
    }
  }

  /**
   * `total_game_score`: the `u16` fold over the counted throws; it cannot
   * overflow exactly when the counted total fits in a `u16`.
   */
  function TotalGameScore(scores: seq<PlayerScore>): (g: GameScore)
    requires Counted(scores) < U16_LIMIT
    ensures g.value == Counted(scores)
  {
    FoldIsCounted(0, scores);
    GameScore(Fold(0, scores))
  }

  /**
   * `add_score` (and `AddScore for Vec<PlayerScore>`, which forwards to it):
   * pushes one throw, an `Overflow` exactly when the counted total plus the
   * throw exceeds `gameScore`; the earlier throws are kept, and a total
   * within the limit stays within it.
   */
  method AddScore(scores: seq<PlayerScore>, score: Score, gameScore: GameScore)
    returns (updated: seq<PlayerScore>)
    requires Counted(scores) + score.points < U16_LIMIT
    ensures |updated| == |scores| + 1 && updated[..|scores|] == scores
    ensures updated[|scores|].score == score
    ensures updated[|scores|].Overflow? <==> Counted(scores) + score.points > gameScore.value
    ensures Counted(scores) <= gameScore.value ==> Counted(updated) <= gameScore.value
  {
    var playerGameScore := TotalGameScore(scores);
    if playerGameScore.value + score.points > gameScore.value {
      updated := scores + [Overflow(score)];
    } else {
      updated := scores + [PlayerScore.Score(score)];
    }
    assert updated[..|scores|] == scores;
  }

  /** `&a - &b`: the difference of the inner values; `b <= a` keeps it from underflowing. */
  function Sub(a: GameScore, b: GameScore): (r: GameScore)
    requires b.value <= a.value
    ensures r.value + b.value == a.value
  {
    GameScore(a.value - b.value)
  }

  /** `PartialEq for GameScore`. */
  predicate Eq(a: GameScore, b: GameScore) {
    a.value == b.value
  }

  /** `PartialOrd for GameScore`: always comparable, in the order of the inner values. */
  function PartialCmp(a: GameScore, b: GameScore): (r: Option<Ordering>)
    ensures r.Some?
    ensures r.value == Less <==> a.value < b.value
    ensures r.value == Equal <==> a.value == b.value
    ensures r.value == Greater <==> a.value > b.value
  {
    Some(if a.value < b.value then Less else if a.value == b.value then Equal else Greater)
  }

  /** The hand-written equality coincides with structural equality. */
  lemma EqIsIdentity(a: GameScore, b: GameScore)
    ensures Eq(a, b) <==> a == b
  {
  }

  /** The comparison agrees with equality and is antisymmetric. */
  lemma PartialCmpConsistent(a: GameScore, b: GameScore)
    ensures PartialCmp(a, b) == Some(Equal) <==> Eq(a, b)
    ensures PartialCmp(a, b) == Some(Less) <==> PartialCmp(b, a) == Some(Greater)
  {
  }

  /** Subtracting what was added gives back the original score. */
  lemma SubUndoesAdd(a: GameScore, b: GameScore)
    requires a.value + b.value < U16_LIMIT
    ensures Sub(GameScore(a.value + b.value), b) == a
  {
  }
}
