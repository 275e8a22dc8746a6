/**
 * `PlayerNumber` (playground/src/player_number.rs): which of the two players.
 */
module PlayerNumber {
  import opened Ints
  import opened Outcomes
  import opened Errors
  import opened Text

  datatype PlayerNumber = One | Two

  /** `PlayerNumber::all`: both players, in playing order. */
  function All(): (r: seq<PlayerNumber>)
    ensures |r| == 2 && r[0] == One && r[1] == Two
    ensures forall p: PlayerNumber :: p in r
  {
    var r := [One, Two];
    assert forall p: PlayerNumber :: p in r <== p.One? || p.Two?;
    r
  }

  /** `PlayerNumber::name`. */
  function Name(p: PlayerNumber): (s: string)
    ensures s == "Player" + NatToString(ToI32(p))
  {
    match p
    case One => "Player1"
    case Two => "Player2"
  }

  /** `PlayerNumber::next_player_number`: the other player. */
  function NextPlayerNumber(p: PlayerNumber): (r: PlayerNumber)
    ensures r != p
  {
    match p
    case One => Two
    case Two => One
  }

  /** `TryFrom<i32> for PlayerNumber`: only 1 and 2 are player numbers. */
  function TryFromI32(value: i32): (r: Result<PlayerNumber, Error>)
    ensures r.Ok? <==> value == 1 || value == 2
    ensures r.Err? ==> r.error == Unexpected("Invalid player number: " + IntToString(value))
  {
    if value == 1 then Ok(One)
    else if value == 2 then Ok(Two)
    else Err(Unexpected("Invalid player number: " + IntToString(value)))
  }

  /** `From<PlayerNumber> for i32`; `try_from` reads it back. */
  function ToI32(p: PlayerNumber): (v: i32)
    ensures TryFromI32(v) == Ok(p)
  {
    match p
    case One => 1
    case Two => 2
  }

  /** Passing the turn twice returns it to the same player. */
  lemma NextTwiceIsIdentity(p: PlayerNumber)
    ensures NextPlayerNumber(NextPlayerNumber(p)) == p
  {
  }

  /** Whatever `try_from` accepts, `i32::from` gives back. */
  lemma {:induction false} TryFromThenIntoI32(v: i32)
    requires TryFromI32(v).Ok?
    ensures ToI32(TryFromI32(v).value) == v
  {
  }
}
