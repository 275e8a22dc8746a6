/**
 * `Number` (playground/src/number.rs): a `NonZeroUsize`, used for player,
 * round and player-count numbers. Its derived equality and order are those
 * of the inner value.
 */
module Number {
  import opened Ints
  import opened Outcomes
  import opened Errors

  type NonZeroUsize = x: usize | x != 0 witness 1

  datatype Number = Number(inner: NonZeroUsize) {
    /** `Number::value`: never zero. */
    function Value(): (v: usize)
      ensures v >= 1
    {
      inner
    }
  }

  const NOT_POSITIVE_MESSAGE: string := "Number must be greater than 0"

  /** `Number::new`: rejects exactly zero. */
  function New(value: usize): (r: Result<Number, Error>)
    ensures r.Ok? <==> value != 0
    ensures r.Ok? ==> r.value.Value() == value
    ensures r.Err? ==> r.error == InvalidArgument(NOT_POSITIVE_MESSAGE)
  {
    if value == 0 then Err(InvalidArgument(NOT_POSITIVE_MESSAGE)) else Ok(Number(value))
  }

  /** `Number::one`. */
  function One(): (n: Number)
    ensures New(1) == Ok(n)
  {
    Number(1)
  }

  /**
   * `Number::increment` on a number taken by `&mut self`: adds one, saturating
   * at `usize::MAX`, so the result is never zero and never smaller.
   */
  method Increment(n: Number) returns (updated: Number)
    ensures n.Value() < USIZE_MAX ==> updated.Value() == n.Value() + 1
    ensures n.Value() == USIZE_MAX ==> updated == n
  {
    var next := if n.inner < USIZE_MAX then n.inner + 1 else n.inner;
    updated := Number(next);
  }

  /** `From<Number> for i32`: the truncating cast `value as i32`. */
  function ToI32(n: Number): (r: i32)
    ensures n.Value() <= I32_MAX ==> r == n.Value()
    ensures (r - n.Value()) % U32_LIMIT == 0
  {
    AsI32(n.inner)
  }

  /** The derived `Ord`. */
  predicate Less(a: Number, b: Number) {
    a.inner < b.inner
  }

  /** Equal values are equal numbers, and the order is total. */
  lemma OrderFollowsValue(a: Number, b: Number)
    ensures a == b <==> a.Value() == b.Value()
    ensures Less(a, b) <==> a.Value() < b.Value()
    ensures a == b || Less(a, b) || Less(b, a)
  {
  }
}
