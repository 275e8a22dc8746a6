/**
 * `PositiveInteger` and its range iterator (playground/src/positive_integer.rs).
 */
module PositiveInteger {
  import opened Ints
  import opened Outcomes
  import opened Errors
  import opened Text

  type NonZeroUsize = x: usize | x != 0 witness 1

  datatype PositiveInteger = PositiveInteger(inner: NonZeroUsize) {
    /** `PositiveInteger::value`. */
    function Value(): (v: usize)
      ensures v >= 1
    {
      inner
    }
  }

  const NOT_POSITIVE_MESSAGE: string := "Positive integer must be greater than 0"

  /** `PositiveInteger::new`: rejects exactly zero. */
  function New(value: usize): (r: Result<PositiveInteger, Error>)
    ensures r.Ok? <==> value != 0
    ensures r.Ok? ==> r.value.Value() == value
    ensures r.Err? ==> r.error == InvalidArgument(NOT_POSITIVE_MESSAGE)
  {
    if value == 0 then Err(InvalidArgument(NOT_POSITIVE_MESSAGE)) else Ok(PositiveInteger(value))
  }

  /** `PositiveInteger::one`. */
  function One(): (p: PositiveInteger)
    ensures New(1) == Ok(p)
  {
    PositiveInteger(1)
  }

  /** `TryFrom<i32> for PositiveInteger`: negative is unexpected, zero invalid. */
  function TryFromI32(value: i32): (r: Result<PositiveInteger, Error>)
    ensures value < 0 ==> r == Err(Unexpected("Can't convert i32 into usize. Given: " + IntToString(value)))
    ensures value == 0 ==> r.Err? && r.error.InvalidArgument?
    ensures value > 0 ==> r.Ok? && r.value.Value() == value
  {
    if value < 0 then Err(Unexpected("Can't convert i32 into usize. Given: " + IntToString(value)))
    else New(value)
  }

  /** `PositiveInteger::try_to_i32`. */
  function TryToI32(p: PositiveInteger): (r: Result<i32, Error>)
    ensures r.Err? <==> p.Value() > I32_MAX
    ensures r.Ok? ==> r.value == p.Value()
    ensures r.Err? ==> r.error == FailedPrecondition("Can't convert positive integer into i32")
  {
    if p.inner > I32_MAX then Err(FailedPrecondition("Can't convert positive integer into i32"))
    else Ok(p.inner as i32)
  }

  /** `TryFrom<PositiveInteger> for i32`: the same overflow, reported as unexpected. */
  function TryIntoI32(p: PositiveInteger): (r: Result<i32, Error>)
    ensures r.Err? <==> p.Value() > I32_MAX
    ensures r.Ok? ==> r.value == p.Value() && TryFromI32(r.value) == Ok(p)
    ensures r.Err? ==> r.error == Unexpected("Can't convert positive integer into i32. Given: " + NatToString(p.Value()))
  {
    if p.inner > I32_MAX then
      Err(Unexpected("Can't convert positive integer into i32. Given: " + NatToString(p.inner)))
    else
      Ok(p.inner as i32)
  }

  /** `1, 2, ..., n`. */
  function OneTo(n: nat): (s: seq<nat>)
    ensures |s| == n
    ensures forall i :: 0 <= i < n ==> s[i] == i + 1
  {
    seq(n, i => i + 1)
  }

  /** `PositiveIntegersRange`: counts `begin` up to `end`, one `next` at a time. */
  class PositiveIntegersRange {
    var end: PositiveInteger
    var begin: usize

    ghost predicate Valid()
      reads this
    {
      begin <= end.Value()
    }

    /** The values the iterator has still to yield, in order. */
    ghost function Remaining(): (s: seq<nat>)
      reads this
      requires Valid()
      ensures |s| == end.Value() - begin
    {
      var first := begin + 1;
      seq(end.Value() - begin, i => first + i)
    }

    constructor (end: PositiveInteger)
      ensures Valid() && this.end == end && begin == 0
      ensures Remaining() == OneTo(end.Value())
    {
      this.end := end;
      begin := 0;
    }

    /** `Iterator::next`: the next value, or `None` (changing nothing) once exhausted. */
    method Next() returns (item: Option<PositiveInteger>)
      requires Valid()
      modifies this
      ensures Valid() && end == old(end)
      ensures old(Remaining()) == [] ==> item == None && begin == old(begin)
      ensures old(Remaining()) != [] ==>
                item.Some? && item.value.Value() == old(Remaining())[0]
                && Remaining() == old(Remaining())[1..]
    {
      if begin == end.inner {
        return None;
      }
      begin := begin + 1;
      item := Some(PositiveInteger(begin));
    }
  }

  /** `PositiveInteger::range`: a fresh iterator that will yield `1..=p`. */
  method Range(p: PositiveInteger) returns (r: PositiveIntegersRange)
    ensures fresh(r) && r.Valid() && r.end == p
    ensures r.Remaining() == OneTo(p.Value())
  {
    r := new PositiveIntegersRange(p);
  }

  /** What a caller can conclude from the contracts: the range of 5 yields 1..5, then `None`. */
  method RangeOfFive()
  {
    var r := Range(PositiveInteger(5));
    var x := r.Next();
    assert x.Some? && x.value.Value() == 1;
    x := r.Next();
    x := r.Next();
    x := r.Next();
    x := r.Next();
    assert x.Some? && x.value.Value() == 5;
    x := r.Next();
    assert x == None;
    x := r.Next();
    assert x == None;
  }
}
