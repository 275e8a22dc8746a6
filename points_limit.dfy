/**
 * `PointsLimit` (playground/src/points_limit.rs): the points a player must
 * reach; never zero.
 */
module PointsLimit {
  import opened Ints
  import opened Outcomes
  import opened Errors
  import opened Points

  datatype PointsLimit = PointsLimit(points: Points)

  const ZERO_LIMIT_MESSAGE: string := "Points limit cannot be zero"

  /** `PointsLimit::new`: rejects exactly zero points; a built limit is never zero. */
  function New(points: Points): (r: Result<PointsLimit, Error>)
    ensures r.Ok? <==> points.value != 0
    ensures r.Ok? ==> r.value.points == points && r.value.points.value != 0
    ensures r.Err? ==> r.error == InvalidArgument(ZERO_LIMIT_MESSAGE)
  {
    if points.value == 0 then Err(InvalidArgument(ZERO_LIMIT_MESSAGE)) else Ok(PointsLimit(points))
  }

  /** `TryFrom<u16> for PointsLimit`: accepts exactly the nonzero values, keeping them. */
  function TryFromU16(value: u16): (r: Result<PointsLimit, Error>)
    ensures r.Ok? <==> value != 0
    ensures r.Ok? ==> r.value.points.value == value
    ensures r.Err? ==> r.error == InvalidArgument(ZERO_LIMIT_MESSAGE)
  {
    New(FromU16(value))
  }

  /** `TryFrom<Points> for PointsLimit`: accepts exactly the nonzero points, keeping them. */
  function TryFromPoints(value: Points): (r: Result<PointsLimit, Error>)
    ensures r.Ok? <==> value.value != 0
    ensures r.Ok? ==> r.value.points == value
    ensures r.Err? ==> r.error == InvalidArgument(ZERO_LIMIT_MESSAGE)
  {
    New(value)
  }
}
