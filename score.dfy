/**
 * `Score` (playground/src/score.rs): the points of one turn, three darts of
 * at most 60 points each, so at most 180.
 */
module Score {
  import opened Ints
  import opened Outcomes
  import opened Errors
  import opened Text
  import opened Points

  /** The most points one turn can score. */
  const POINTS_LIMIT: u16 := 180

  datatype Score = Score(points: Points)

  /** The `InvalidArgument` text for a turn of `given` points. */
  function MaxPointsMessage(given: u16): string {
    "The maximum number of points allowed is " + NatToString(POINTS_LIMIT)
    + ". Given: " + NatToString(given)
  }

  /** `Score::init`: a score of zero points, before any assignment. */
  function Init(): (s: Score)
    ensures s.points.value == 0
  {
    Score(Points(0))
  }

  /** `Score::new`: accepts exactly 0..=180 and then holds the given points. */
  function New(points: u16): (r: Result<Score, Error>)
    ensures r.Ok? <==> points <= POINTS_LIMIT
    ensures r.Ok? ==> r.value.points.value == points
    ensures r.Err? ==> r.error == InvalidArgument(MaxPointsMessage(points))
  {
    if points > POINTS_LIMIT then Err(InvalidArgument(MaxPointsMessage(points)))
    else Ok(Score(Points(points)))
  }

  /**
   * `Score::assign_points` on a score taken by `&mut self`: the updated score
   * is returned. On rejection the score keeps its old points.
   */
  method AssignPoints(s: Score, points: Points) returns (updated: Score, r: Result<Unit, Error>)
    ensures r.Ok? <==> New(points.value).Ok?
    ensures r.Ok? ==> updated == New(points.value).value
    ensures r.Err? ==> updated == s && r.error == New(points.value).error
  {
    if points.value > POINTS_LIMIT {
      var description := MaxPointsMessage(points.value);
      return s, Err(InvalidArgument(description));
    }
    updated := Score(points);
    r := Ok(Unit);
  }

  /** `Score::new` as the source writes it: `init`, then `assign_points`. */
  method NewByAssignment(points: u16) returns (r: Result<Score, Error>)
    ensures r == New(points)
  {
    var score := Init();
    var outcome;
    score, outcome := AssignPoints(score, Points(points));
    if outcome.Err? {
      return Err(outcome.error);
    }
    r := Ok(score);
  }

  /** Every accepted score is within the limit. */
  lemma NewIsBounded(points: u16)
    requires New(points).Ok?
    ensures New(points).value.points.value <= POINTS_LIMIT
  {
  }

  /** The two boundary values are accepted. */
  lemma NewAcceptsBounds()
    ensures New(0).Ok? && New(POINTS_LIMIT).Ok?
  {
  }

  /** One past the limit is rejected with exactly this message. */
  lemma NewRejectsOverLimitMessage()
    ensures New(181) == Err(InvalidArgument("The maximum number of points allowed is 180. Given: 181"))
  {
    assert DigitChar(0) == '0' && DigitChar(1) == '1' && DigitChar(8) == '8';
    assert NatToString(1) == "1";
    assert NatToString(18) == NatToString(1) + "8";
    assert NatToString(181) == NatToString(18) + "1";
    assert NatToString(180) == NatToString(18) + "0";
    assert NatToString(180) == "180" && NatToString(181) == "181";
    assert MaxPointsMessage(181)
      == "The maximum number of points allowed is " + "180" + ". Given: " + "181"
      == "The maximum number of points allowed is 180. Given: 181";
  }
}
