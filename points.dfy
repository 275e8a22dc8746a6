/**
 * `Points` (playground/src/points.rs): a plain `u16` quantity of points,
 * with its conversions and the comparison derived from the inner value.
 */
module Points {
  import opened Ints

  datatype Points = Points(value: u16)

  /** `Points::default()`: the derived default holds 0. */
  function Default(): (p: Points)
    ensures IntoU16(p) == 0
  {
    Points(0)
  }

  /** `From<u16> for Points`; converting back gives the same `u16`. */
  function FromU16(v: u16): (p: Points)
    ensures IntoU16(p) == v
  {
    Points(v)
  }

  /** `From<Points> for u16`. */
  function IntoU16(p: Points): u16 {
    p.value
  }

  /** `From<Points> for i32`: a widening conversion that keeps the value. */
  function IntoI32(p: Points): (r: i32)
    ensures r == IntoU16(p) && 0 <= r < U16_LIMIT
  {
    p.value
  }

  /** The derived `PartialOrd`: points compare as their inner values do. */
  predicate Less(a: Points, b: Points) {
    a.value < b.value
  }

  /** `Points` -> `u16` -> `Points` is the identity as well. */
  lemma FromIntoRoundTrip(p: Points)
    ensures FromU16(IntoU16(p)) == p
  {
  }

  /** The order on points is a strict total order on distinct values. */
  lemma LessIsStrictTotalOrder(a: Points, b: Points, c: Points)
    ensures !Less(a, a)
    ensures Less(a, b) && Less(b, c) ==> Less(a, c)
    ensures a != b ==> Less(a, b) || Less(b, a)
  {
  }
}
