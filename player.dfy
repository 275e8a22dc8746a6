/**
 * `Player` (playground/src/player.rs): one player's recorded scores and the
 * running total of the regular ones, with the bust rule applied on entry.
 *
 * `Points::new`, `Points::zero`, `+` on `Points` and `PlayerScore::game_points`
 * are used here but defined in none of the modelled files; they are given
 * their plain meaning: a `u16` value, zero, `u16` addition (which must not
 * overflow), and "the score's points when regular, nothing when a bust".
 */
module Player {
  import opened Ints
  import opened Outcomes
  import N = Number
  import opened Score
  import opened Points
  import opened PlayerScore

  /** `PlayerScore::game_points`: what one entry adds to the player's total. */
  function GamePoints(ps: PlayerScore): (p: nat)
    ensures p == if ps.IsRegular() then ps.ScoreOf().points.value else 0
  {
    match ps
    case Regular(s) => s.points.value
    case Overthrow(_) => 0
  }

  /** The total of the regular entries of `scores`; busts contribute nothing. */
  function RegularTotal(scores: seq<PlayerScore>): nat {
    if scores == [] then 0
    else RegularTotal(scores[..|scores| - 1]) + GamePoints(scores[|scores| - 1])
  }

  /** The regular total never exceeds the sum of all points entered. */
  lemma {:induction false} RegularTotalAtMostAllPoints(scores: seq<PlayerScore>)
    ensures RegularTotal(scores) <= AllPoints(scores)
  {
    if scores != [] {
      RegularTotalAtMostAllPoints(scores[..|scores| - 1]);
    }
  }

  /** The sum of the points of every entry, busts included. */
  function AllPoints(scores: seq<PlayerScore>): nat {
    if scores == [] then 0
    else AllPoints(scores[..|scores| - 1]) + scores[|scores| - 1].ScoreOf().points.value
  }

  class Player {
    var number: N.Number
    var pointsLimit: N.Number
    var points: Points
    var scores: seq<PlayerScore>

    /** `points` is always the total of the regular scores recorded. */
    ghost predicate Valid()
      reads this
    {
      points.value == RegularTotal(scores)
    }

    /** `points_limit.value() as u16`, the truncating cast the source uses. */
    function Limit(): (l: u16)
      reads this
      ensures pointsLimit.Value() < U16_LIMIT ==> l == pointsLimit.Value()
    {
      AsU16(pointsLimit.Value())
    }

    /** `Player::new`: no points and no scores yet. */
    constructor (number: N.Number, pointsLimit: N.Number)
      ensures Valid()
      ensures this.number == number && this.pointsLimit == pointsLimit
      ensures points.value == 0 && scores == []
    {
      this.number := number;
      this.pointsLimit := pointsLimit;
      points := Points(0);
      scores := [];
    }

    /** `Player::is_winner`: the counted points have reached the limit exactly. */
    predicate IsWinner()
      reads this
    {
      points.value == Limit()
    }

    /** `Player::is_overthrow`: this score would take the total past the limit. */
    predicate IsOverthrow(score: Score)
      reads this
    {
      points.value + score.points.value > Limit()
    }

    /**
     * `Player::add_score`: nothing happens once the player has won; otherwise
     * exactly one entry is appended, a bust exactly when the total would pass
     * the limit, and only a regular entry moves the total.
     */
    method AddScore(score: Score)
      requires Valid()
      requires points.value + score.points.value < U16_LIMIT
      modifies this
      ensures Valid()
      ensures number == old(number) && pointsLimit == old(pointsLimit)
      ensures old(IsWinner()) ==> scores == old(scores) && points == old(points)
      ensures !old(IsWinner()) ==>
                scores == old(scores) + [if old(points.value) + score.points.value > Limit()
                                         then Overthrow(score) else Regular(score)]
      ensures old(points.value) <= Limit() ==> points.value <= Limit()
    {
      if IsWinner() {
        return;
      }
      var playerScore := if IsOverthrow(score) then Overthrow(score) else Regular(score);
      points := Points(points.value + GamePoints(playerScore));
      scores := scores + [playerScore];
      assert scores[..|scores| - 1] == old(scores);
    }

    /**
     * `add_player_score`, which playground/src/game_state.rs calls with an
     * already classified entry: the entry is appended and counted as it is.
     */
    method AddPlayerScore(playerScore: PlayerScore)
      requires Valid()
      requires points.value + GamePoints(playerScore) < U16_LIMIT
      modifies this
      ensures Valid()
      ensures number == old(number) && pointsLimit == old(pointsLimit)
      ensures scores == old(scores) + [playerScore]
    {
      points := Points(points.value + GamePoints(playerScore));
      scores := scores + [playerScore];
      assert scores[..|scores| - 1] == old(scores);
    }

    /** `Player::number`. */
    function Number(): N.Number
      reads this
    {
      number
    }

    /** `Player::points`: the total of the regular scores only. */
    function CountedPoints(): (p: Points)
      reads this
      requires Valid()
      ensures p.value == RegularTotal(scores)
    {
      points
    }

    /** `Player::points_to_win`: what is left to reach the limit; never negative. */
    function PointsToWin(): (p: Points)
      reads this
      requires points.value <= Limit()
      ensures p.value + points.value == Limit()
      ensures p.value == 0 <==> IsWinner()
    {
      Points(Limit() - points.value)
    }

    /** `Player::last_score`: the most recent entry, if any. */
    function LastScore(): (r: Option<PlayerScore>)
      reads this
      ensures r.None? <==> scores == []
      ensures r.Some? ==> r.value == scores[|scores| - 1]
    {
      if scores == [] then None else Some(scores[|scores| - 1])
    }

    /** `Player::scores`: every entry, in the order recorded. */
    function Scores(): seq<PlayerScore>
      reads this
    {
      scores
    }
  }
}
