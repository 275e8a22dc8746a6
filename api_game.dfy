/**
 * The web front end's game page (api/src/game.rs): reading a typed score
 * such as "20+5+60", and the numbers and layout decisions of the scoreboard.
 *
 * The HTTP handlers and the HTML text itself are not part of this model.
 */
module ApiGame {
  import opened Ints
  import opened Outcomes
  import opened Text
  import opened ScoreTrackerLib
  import GatewayReferee

  const SEPARATOR: char := '+'

  /** `str::split('+')`: the pieces between separators, empty ones included. */
  function Split(s: string): (pieces: seq<string>)
    ensures |pieces| >= 1
    ensures forall i :: 0 <= i < |pieces| ==> SEPARATOR !in pieces[i]
  {
    if s == [] then [[]]
    else
      var rest := Split(s[1..]);
      if s[0] == SEPARATOR then [[]] + rest
      else [[s[0]] + rest[0]] + rest[1..]
  }

  /** The pieces with a separator between each two. */
  function Join(pieces: seq<string>): string
    requires |pieces| >= 1
  {
    if |pieces| == 1 then pieces[0] else pieces[0] + [SEPARATOR] + Join(pieces[1..])
  }

  /** Joining the pieces gives back the split text. */
  lemma {:induction false} JoinSplit(s: string)
    ensures Join(Split(s)) == s
  {
    if s != [] {
      JoinSplit(s[1..]);
      var rest := Split(s[1..]);
      if s[0] != SEPARATOR {
        if |rest| == 1 {
          assert Join(Split(s)) == [s[0]] + rest[0];
        } else {
          assert Join(Split(s)) == [s[0]] + rest[0] + [SEPARATOR] + Join(rest[1..]);
        }
      }
    }
  }

  /** Splitting joined pieces gives back the pieces, when none holds a separator. */
  lemma {:induction false} SplitJoin(pieces: seq<string>)
    requires |pieces| >= 1
    requires forall i :: 0 <= i < |pieces| ==> SEPARATOR !in pieces[i]
    ensures Split(Join(pieces)) == pieces
    decreases |pieces|, |pieces[0]|
  {
    var first := pieces[0];
    if first == [] {
      if |pieces| > 1 {
        SplitJoin(pieces[1..]);
        assert Join(pieces) == [SEPARATOR] + Join(pieces[1..]);
        assert pieces == [[]] + pieces[1..];
      }
    } else {
      var shorter := [first[1..]] + pieces[1..];
      assert SEPARATOR !in shorter[0] by {
        assert forall c :: c in first[1..] ==> c in first;
      }
      SplitJoin(shorter);
      assert Join(pieces) == [first[0]] + Join(shorter) by {
        if |pieces| > 1 {
          assert Join(shorter) == first[1..] + [SEPARATOR] + Join(pieces[1..]);
        }
      }
      assert first[0] != SEPARATOR by {
        assert first[0] in first;
      }
      assert [first[0]] + first[1..] == first;
      assert [[first[0]] + first[1..]] + pieces[1..] == pieces;
    }
  }

  /**
   * `str::parse::<u8>` on a piece without a sign: one or more ASCII digits
   * (leading zeros allowed) whose value is at most 255.
   */
  function ParseU8(piece: string): (r: Option<u8>)
    ensures r.Some? <==> piece != [] && AllDigits(piece) && DigitsValue(piece) < U8_LIMIT
    ensures r.Some? ==> r.value == DigitsValue(piece)
  {
    if piece != [] && AllDigits(piece) && DigitsValue(piece) < U8_LIMIT then Some(DigitsValue(piece)) else None
  }

  /** The shortest decimal text of a `u8` parses back to it. */
  lemma ParseU8OfNatToString(v: u8)
    ensures ParseU8(NatToString(v)) == Some(v)
  {
    DigitsValueOfNatToString(v);
  }

  /** `collect::<Result<Vec<u8>, _>>()`: every piece parsed, or nothing. */
  function ParseAll(pieces: seq<string>): (r: Option<seq<u8>>)
    ensures r.Some? <==> forall i :: 0 <= i < |pieces| ==> ParseU8(pieces[i]).Some?
    ensures r.Some? ==> |r.value| == |pieces|
                        && forall i :: 0 <= i < |pieces| ==> r.value[i] == ParseU8(pieces[i]).value
  {
    if pieces == [] then Some([])
    else
      match ParseU8(pieces[0])
      case None => None
      case Some(v) =>
        match ParseAll(pieces[1..])
        case None => None
        case Some(vs) => Some([v] + vs)
  }

  function Sum(vs: seq<u8>): nat {
    if vs == [] then 0 else vs[0] + Sum(vs[1..])
  }

  /**
   * The `u8` sum of `parse_input_score` does not overflow: the pieces that
   * all parse add up to at most 255.
   */
  predicate SumFits(score: string) {
    var parsed := ParseAll(Split(score));
    parsed.Some? ==> Sum(parsed.value) < U8_LIMIT
  }

  /**
   * `parse_input_score`: the empty input is 0; otherwise the pieces between
   * '+' signs must all be `u8`s (an empty piece, from a leading, trailing or
   * doubled '+', is not), and the result is their sum.
   */
  function ParseInputScore(score: string): (r: Result<u8, Unit>)
    requires SumFits(score)
    ensures score == [] ==> r == Ok(0)
    ensures score != [] && r.Ok? ==> forall i :: 0 <= i < |Split(score)| ==> ParseU8(Split(score)[i]).Some?
    ensures score != [] && r.Err? ==> exists i :: 0 <= i < |Split(score)| && ParseU8(Split(score)[i]).None?
    ensures score != [] && r.Ok? ==> r.value == Sum(ParseAll(Split(score)).value)
  {
    if score == [] then Ok(0)
    else
      var pieces := Split(score);
      var parsed := ParseAll(pieces);
      if parsed.Some? then Ok(Sum(parsed.value)) else Err(Unit)
  }

  /** A score written as values joined by '+' reads back as their sum. */
  lemma ParseInputScoreOfSum(pieces: seq<string>, values: seq<u8>)
    requires |pieces| == |values| >= 1
    requires forall i :: 0 <= i < |pieces| ==> pieces[i] == NatToString(values[i])
    requires Sum(values) < U8_LIMIT
    ensures SumFits(Join(pieces))
    ensures ParseInputScore(Join(pieces)) == Ok(Sum(values))
  {
    forall i | 0 <= i < |pieces|
      ensures SEPARATOR !in pieces[i] && ParseU8(pieces[i]) == Some(values[i])
    {
      ParseU8OfNatToString(values[i]);
      assert forall k :: 0 <= k < |pieces[i]| ==> pieces[i][k] != SEPARATOR by {
        assert AllDigits(pieces[i]);
      }
    }
    SplitJoin(pieces);
    assert ParseAll(pieces).value == values;
    assert Join(pieces) != [] by {
      if |pieces| > 1 {
        assert |Join(pieces)| >= 1;
      } else {
        assert |pieces[0]| >= 1;
      }
    }
  }

  /** Any empty piece, such as a trailing '+' makes, rejects the whole input. */
  lemma EmptyPieceRejects(score: string, i: int)
    requires SumFits(score) && score != []
    requires 0 <= i < |Split(score)| && Split(score)[i] == []
    ensures ParseInputScore(score) == Err(Unit)
  {
  }

  /** The scoreboard's numbers: the turn, each player's points left and throws newest first. */
  datatype Scoreboard = Scoreboard(gameId: Uuid, player: string, player1: seq<u8>, player2: seq<u8>,
                                   player1Left: u16, player2Left: u16)

  /** The throws' points, newest first (`into_iter().rev().map(into_inner)`). */
  function Newest(scores: seq<PlayerScore>): (vs: seq<u8>)
    ensures |vs| == |scores|
    ensures forall i :: 0 <= i < |scores| ==> vs[i] == scores[|scores| - 1 - i].score.points
  {
    if scores == [] then [] else [scores[|scores| - 1].score.points] + Newest(scores[..|scores| - 1])
  }

  /** What `max_game_score() - total_game_score()` leaves a player. */
  function Left(scores: seq<PlayerScore>): (left: u16)
    requires Counted(scores) <= GatewayReferee.MAX_GAME_SCORE
    ensures left + Counted(scores) == GatewayReferee.MAX_GAME_SCORE
  {
    Sub(NewGameScore(GatewayReferee.MAX_GAME_SCORE), TotalGameScore(scores)).value
  }

  /**
   * `Scoreboard::from`: the name of the player to throw; for each player, 301
   * minus the total of their regular throws, and their throws newest first.
   */
  function ScoreboardOf(game: GatewayReferee.Game): (b: Scoreboard)
    reads game
    requires Counted(game.player1Scores) <= GatewayReferee.MAX_GAME_SCORE
    requires Counted(game.player2Scores) <= GatewayReferee.MAX_GAME_SCORE
    ensures b.gameId == game.id && b.player == GatewayReferee.Name(game.playerNumber)
    ensures b.player1Left + Counted(game.player1Scores) == GatewayReferee.MAX_GAME_SCORE
    ensures b.player2Left + Counted(game.player2Scores) == GatewayReferee.MAX_GAME_SCORE
    ensures |b.player1| == |game.player1Scores| && |b.player2| == |game.player2Scores|
    ensures forall i :: 0 <= i < |b.player1| ==>
              b.player1[i] == game.player1Scores[|game.player1Scores| - 1 - i].score.points
    ensures forall i :: 0 <= i < |b.player2| ==>
              b.player2[i] == game.player2Scores[|game.player2Scores| - 1 - i].score.points
  {
    Scoreboard(game.id, GatewayReferee.Name(game.playerNumber),
               Newest(game.player1Scores), Newest(game.player2Scores),
               Left(game.player1Scores), Left(game.player2Scores))
  }

  /** The header of `into_html`: the round numbers from Player1's count down to 1. */
  method RoundsHeader(board: Scoreboard) returns (header: seq<nat>)
    ensures |header| == |board.player1|
    ensures forall k :: 0 <= k < |header| ==> header[k] == |board.player1| - k
  {
    var roundsNumber := |board.player1|;
    header := [];
    var i := roundsNumber;
    while i >= 1
      invariant 0 <= i <= roundsNumber
      invariant |header| == roundsNumber - i
      invariant forall k :: 0 <= k < |header| ==> header[k] == roundsNumber - k
    {
      header := header + [i];
      i := i - 1;
    }
  }

  const EMPTY_CELL: string := "<td></td>"

  /** The padding cell before Player2's throws: an empty cell when the two rows differ in length. */
  function PaddingCell(board: Scoreboard): (cell: string)
    ensures cell == [] <==> |board.player1| == |board.player2|
    ensures cell != [] ==> cell == EMPTY_CELL
  {
    if |board.player1| == |board.player2| then "" else EMPTY_CELL
  }
}
