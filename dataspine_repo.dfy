/**
 * The storage conversions of the game repository (dataspine/src/repo.rs): a
 * game row keeps its throws as a JSON column of items, each with the round
 * number, the player number, a points kind ("regular" or "overthrow") and the
 * points, all as `i32`.
 *
 * The database access and the rest of the game row (times, player count,
 * points limit, and the `Game` aggregate they are loaded into) are not part
 * of this model.
 */
module DataspineRepo {
  import opened Ints
  import opened Outcomes
  import opened Errors
  import S = Score
  import Pt = Points
  import N = Number
  import opened PlayerScore
  import NR = NumberedRound

  const POINTS_KIND_REGULAR: string := "regular"
  const POINTS_KIND_OVERTHROW: string := "overthrow"
  const INVALID_POINTS_KIND_MESSAGE: string := "Invalid points kind"

  /** What a failing integer conversion (`try_into`) reports. */
  const INT_CONVERSION_FAILED: string := "out of range integral type conversion attempted"

  /** `RoundsColumnItem`: one stored throw. */
  datatype RoundsColumnItem = RoundsColumnItem(roundNumber: i32, playerNumber: i32, pointsKind: string, points: i32)

  /** `i32::try_into::<u16>`, its error reported as unexpected. */
  function TryIntoU16(x: i32): (r: Result<u16, Error>)
    ensures r.Ok? <==> 0 <= x < U16_LIMIT
    ensures r.Ok? ==> r.value == x
    ensures r.Err? ==> r.error == Unexpected(INT_CONVERSION_FAILED)
  {
    if 0 <= x < U16_LIMIT then Ok(x) else Err(Unexpected(INT_CONVERSION_FAILED))
  }

  /** `i32::try_into::<usize>`, its error reported as unexpected. */
  function TryIntoUsize(x: i32): (r: Result<usize, Error>)
    ensures r.Ok? <==> 0 <= x
    ensures r.Ok? ==> r.value == x
    ensures r.Err? ==> r.error == Unexpected(INT_CONVERSION_FAILED)
  {
    if 0 <= x then Ok(x) else Err(Unexpected(INT_CONVERSION_FAILED))
  }

  /**
   * `player_score`: the points must be a `u16`, then the kind picks the
   * variant and `Score::new` checks the 180 limit; any other kind is
   * unexpected, whatever the points.
   */
  function PlayerScoreOf(points: i32, pointsKind: string): (r: Result<PlayerScore, Error>)
    ensures r.Ok? <==> 0 <= points <= S.POINTS_LIMIT
                       && (pointsKind == POINTS_KIND_REGULAR || pointsKind == POINTS_KIND_OVERTHROW)
    ensures r.Ok? ==> r.value.ScoreOf().points.value == points
                      && (r.value.IsRegular() <==> pointsKind == POINTS_KIND_REGULAR)
    ensures !(0 <= points < U16_LIMIT) ==> r == Err(Unexpected(INT_CONVERSION_FAILED))
    ensures 0 <= points < U16_LIMIT && pointsKind != POINTS_KIND_REGULAR && pointsKind != POINTS_KIND_OVERTHROW ==>
              r == Err(Unexpected(INVALID_POINTS_KIND_MESSAGE))
    ensures S.POINTS_LIMIT < points < U16_LIMIT
            && (pointsKind == POINTS_KIND_REGULAR || pointsKind == POINTS_KIND_OVERTHROW) ==>
              r == Err(InvalidArgument(S.MaxPointsMessage(points)))
  {
    var points :- TryIntoU16(points);
    if pointsKind == POINTS_KIND_REGULAR then
      var score :- S.New(points);
      Ok(Regular(score))
    else if pointsKind == POINTS_KIND_OVERTHROW then
      var score :- S.New(points);
      Ok(Overthrow(score))
    else
      Err(Unexpected(INVALID_POINTS_KIND_MESSAGE))
  }

  /**
   * `TryFrom<&RoundsColumnItem> for Round`: the round number, then the player
   * number, must convert to `usize`; then the player score is read; then both
   * numbers must be non-zero. The first failure is the result.
   */
  function RoundOf(item: RoundsColumnItem): (r: Result<NR.NumberedRound, Error>)
    ensures r.Ok? <==> item.roundNumber >= 1 && item.playerNumber >= 1
                       && PlayerScoreOf(item.points, item.pointsKind).Ok?
    ensures r.Ok? ==> r.value.number.Value() == item.roundNumber
                      && r.value.playerNumber.Value() == item.playerNumber
                      && r.value.playerScore == PlayerScoreOf(item.points, item.pointsKind).value
    ensures item.roundNumber < 0 || item.playerNumber < 0 ==> r == Err(Unexpected(INT_CONVERSION_FAILED))
    ensures item.roundNumber >= 0 && item.playerNumber >= 0 && PlayerScoreOf(item.points, item.pointsKind).Err? ==>
              r == Err(PlayerScoreOf(item.points, item.pointsKind).error)
    ensures (item.roundNumber == 0 || item.playerNumber == 0) && item.roundNumber >= 0 && item.playerNumber >= 0
            && PlayerScoreOf(item.points, item.pointsKind).Ok? ==>
              r == Err(InvalidArgument(N.NOT_POSITIVE_MESSAGE))
  {
    var roundNumber :- TryIntoUsize(item.roundNumber);
    var playerNumber :- TryIntoUsize(item.playerNumber);
    var playerScore :- PlayerScoreOf(item.points, item.pointsKind);
    var number :- N.New(roundNumber);
    var player :- N.New(playerNumber);
    Ok(NR.NumberedRound(number, player, playerScore))
  }

  /**
   * `From<&Round> for RoundsColumnItem`: the kind and points from the player
   * score, and both numbers cast with `as i32`.
   */
  function ItemOf(round: NR.NumberedRound): (item: RoundsColumnItem)
    ensures item.pointsKind == if round.playerScore.IsRegular() then POINTS_KIND_REGULAR else POINTS_KIND_OVERTHROW
    ensures item.points == round.playerScore.ScoreOf().points.value
    ensures item.roundNumber == AsI32(round.number.Value())
    ensures item.playerNumber == AsI32(round.playerNumber.Value())
  {
    var (pointsKind, points) := match round.playerScore
      case Regular(score) => (POINTS_KIND_REGULAR, score.points.value)
      case Overthrow(score) => (POINTS_KIND_OVERTHROW, score.points.value);
    RoundsColumnItem(AsI32(round.number.Value()), AsI32(round.playerNumber.Value()), pointsKind, points)
  }

  /**
   * A round whose numbers fit in an `i32` is stored and read back unchanged
   * (its score is at most 180, as every `Score::new` makes it).
   */
  lemma RoundOfItemOf(round: NR.NumberedRound)
    requires round.number.Value() <= I32_MAX && round.playerNumber.Value() <= I32_MAX
    requires round.playerScore.ScoreOf().points.value <= S.POINTS_LIMIT
    ensures RoundOf(ItemOf(round)) == Ok(round)
  {
    var item := ItemOf(round);
    var score := round.playerScore.ScoreOf();
    assert score == S.Score(Pt.Points(item.points));
    assert PlayerScoreOf(item.points, item.pointsKind).Ok?;
    assert PlayerScoreOf(item.points, item.pointsKind).value == round.playerScore;
    assert round.number == N.Number(item.roundNumber) && round.playerNumber == N.Number(item.playerNumber);
  }

  /** An item that reads as a round is stored back unchanged. */
  lemma ItemOfRoundOf(item: RoundsColumnItem)
    requires RoundOf(item).Ok?
    ensures ItemOf(RoundOf(item).value) == item
  {
  }

  /**
   * The rounds conversion of `TryFrom<GameRow> for Game`: every item must
   * convert, and the first one that fails gives the error.
   */
  function RoundsOf(items: seq<RoundsColumnItem>): (r: Result<seq<NR.NumberedRound>, Error>)
    ensures r.Ok? <==> forall i :: 0 <= i < |items| ==> RoundOf(items[i]).Ok?
    ensures r.Ok? ==> |r.value| == |items| && forall i :: 0 <= i < |items| ==> r.value[i] == RoundOf(items[i]).value
    ensures r.Err? ==> exists i :: 0 <= i < |items| && RoundOf(items[i]) == Err(r.error)
                                   && forall j :: 0 <= j < i ==> RoundOf(items[j]).Ok?
  {
    if items == [] then Ok([])
    else
      var first :- RoundOf(items[0]);
      var rest :- RoundsOf(items[1..]);
      Ok([first] + rest)
  }

  /** A rounds column built from rounds: `From<&Round>` applied to each, in order. */
  function ItemsOf(rounds: seq<NR.NumberedRound>): (items: seq<RoundsColumnItem>)
    ensures |items| == |rounds|
    ensures forall i :: 0 <= i < |rounds| ==> items[i] == ItemOf(rounds[i])
  {
    seq(|rounds|, i requires 0 <= i < |rounds| => ItemOf(rounds[i]))
  }

  lemma ItemsOfTail(rounds: seq<NR.NumberedRound>)
    requires rounds != []
    ensures ItemsOf(rounds)[1..] == ItemsOf(rounds[1..])
  {
  }

  /** Rounds whose numbers fit in an `i32` are stored as a column and read back unchanged. */
  lemma {:induction false} RoundsOfItems(rounds: seq<NR.NumberedRound>)
    requires forall i :: 0 <= i < |rounds| ==>
               rounds[i].number.Value() <= I32_MAX && rounds[i].playerNumber.Value() <= I32_MAX
               && rounds[i].playerScore.ScoreOf().points.value <= S.POINTS_LIMIT
    ensures RoundsOf(ItemsOf(rounds)) == Ok(rounds)
  {
    if rounds != [] {
      RoundOfItemOf(rounds[0]);
      RoundsOfItems(rounds[1..]);
      ItemsOfTail(rounds);
      assert rounds == [rounds[0]] + rounds[1..];
    }
  }
}
