/**
 * The in-memory mock game service (api_mock/src/games_service.rs): a game's
 * state machine over the two players' point lists and the rounds shown to
 * clients (at most two points per round, points above 100 labelled
 * overthrows but still counted).
 *
 * The service's map of games behind a lock, the request parsing and the
 * protocol conversions are not part of this model; the game's id is a
 * parameter because it is random, and the timestamps are left out.
 */
module GamesService {
  import opened Ints
  import opened Outcomes

  const POINTS_TO_WIN: u16 := 301

  /** Points above this are recorded in the rounds as an overthrow. */
  const OVERTHROW_ABOVE: u16 := 100

  datatype Player = One | Two

  /** `Player::name`. */
  function Name(p: Player): (s: string)
    ensures |s| == 7 && s[..6] == "Player"
    ensures s[6] == if p == One then '1' else '2'
  {
    match p
    case One => "Player1"
    case Two => "Player2"
  }

  /** The two players' lists are kept under different keys. */
  lemma NamesDiffer()
    ensures Name(One) != Name(Two)
  {
    assert Name(One)[6] != Name(Two)[6];
  }

  /** `Player::next`: the other player. */
  function Next(p: Player): (r: Player)
    ensures r != p
  {
    match p
    case One => Two
    case Two => One
  }

  /** Passing the turn twice gives it back. */
  lemma NextTwiceIsIdentity(p: Player)
    ensures Next(Next(p)) == p
  {
  }

  datatype Point = Score(value: u16) | Overthrow(value: u16) {
    /** `Point::into_inner`: the points, whichever the kind. */
    function IntoInner(): (v: u16)
      ensures this == Score(v) || this == Overthrow(v)
    {
      match this
      case Score(v) => v
      case Overthrow(v) => v
    }
  }

  datatype Round = Round(number: u16, points: seq<Point>)

  datatype PlayerDetails = PlayerDetails(player: Player, pointsToWin: u16)

  /** `iter().sum::<u16>()` of a points list, as an unbounded number. */
  function Sum(s: seq<u16>): nat {
    if s == [] then 0 else Sum(s[..|s| - 1]) + s[|s| - 1]
  }

  /** Dropping the last entry of a list never raises its sum. */
  lemma SumOfPrefix(s: seq<u16>)
    requires s != []
    ensures Sum(s[..|s| - 1]) <= Sum(s)
  {
  }

  /** How `update_rounds` classifies points. */
  function PointOf(points: u16): (p: Point)
    ensures p.IntoInner() == points
    ensures p.Overthrow? <==> points > OVERTHROW_ABOVE
  {
    if points > OVERTHROW_ABOVE then Overthrow(points) else Score(points)
  }

  /**
   * The shape `update_rounds` and `remove_last_round_points` keep: rounds
   * numbered 1, 2, ... in order, each with one or two points, and every
   * round but the last full.
   */
  predicate RoundsWellFormed(rounds: seq<Round>) {
    forall i :: 0 <= i < |rounds| ==>
      rounds[i].number == i + 1
      && 1 <= |rounds[i].points| <= 2
      && (i < |rounds| - 1 ==> |rounds[i].points| == 2)
  }

  /** `update_rounds` does not overflow the `u16` number of a new round. */
  predicate CanUpdateRounds(rounds: seq<Round>) {
    rounds == [] || |rounds[|rounds| - 1].points| != 2 || AsU16(|rounds|) + 1 < U16_LIMIT
  }

  /**
   * The rounds after `update_rounds(points)`: the point joins the last round
   * unless it is full, otherwise it opens round `len + 1` (round 1 when
   * there are none).
   */
  function RoundsAfterUpdate(rounds: seq<Round>, points: u16): seq<Round>
    requires CanUpdateRounds(rounds)
  {
    var point := PointOf(points);
    if rounds == [] then [Round(1, [point])]
    else
      var last := rounds[|rounds| - 1];
      if |last.points| == 2 then rounds + [Round(AsU16(|rounds|) + 1, [point])]
      else rounds[..|rounds| - 1] + [Round(last.number, last.points + [point])]
  }

  /**
   * The rounds after `remove_last_round_points`: the last point of a full
   * last round is dropped, otherwise the whole last round; nothing happens
   * to no rounds.
   */
  function RoundsAfterRemove(rounds: seq<Round>): seq<Round> {
    if rounds == [] then []
    else
      var last := rounds[|rounds| - 1];
      if |last.points| == 2 then rounds[..|rounds| - 1] + [Round(last.number, last.points[..1])]
      else rounds[..|rounds| - 1]
  }

  /** Adding a point keeps the rounds well formed, one point more in all. */
  lemma UpdateKeepsWellFormed(rounds: seq<Round>, points: u16)
    requires RoundsWellFormed(rounds) && CanUpdateRounds(rounds)
    ensures RoundsWellFormed(RoundsAfterUpdate(rounds, points))
  {
    if rounds != [] {
      assert rounds[|rounds| - 1].number == |rounds|;
    }
  }

  /** Removing a point keeps the rounds well formed. */
  lemma RemoveKeepsWellFormed(rounds: seq<Round>)
    requires RoundsWellFormed(rounds)
    ensures RoundsWellFormed(RoundsAfterRemove(rounds))
  {
  }

  /** `remove_last_round_points` undoes `update_rounds` exactly. */
  lemma RemoveUndoesUpdate(rounds: seq<Round>, points: u16)
    requires RoundsWellFormed(rounds) && CanUpdateRounds(rounds)
    ensures RoundsAfterRemove(RoundsAfterUpdate(rounds, points)) == rounds
  {
    if rounds != [] {
      var last := rounds[|rounds| - 1];
      if |last.points| != 2 {
        assert (last.points + [PointOf(points)])[..1] == last.points;
      }
      assert rounds[..|rounds| - 1] + [last] == rounds;
    }
  }

  /** The details `update_player_details` writes for these point lists. */
  function DetailsFor(player1: seq<u16>, player2: seq<u16>): seq<PlayerDetails>
    requires Sum(player1) <= POINTS_TO_WIN && Sum(player2) <= POINTS_TO_WIN
  {
    [PlayerDetails(One, POINTS_TO_WIN - Sum(player1)), PlayerDetails(Two, POINTS_TO_WIN - Sum(player2))]
  }

  class Game {
    var id: Uuid
    var playerDetails: seq<PlayerDetails>
    var playerPointsToWin: u16
    var player: Player
    var rounds: seq<Round>
    var scores: map<string, seq<u16>>
    var winner: Option<string>

    /** Both players have a list within 301 points, and the derived fields agree with them. */
    ghost predicate ScoresValid()
      reads this
    {
      Name(One) in scores && Name(Two) in scores
      && Sum(scores[Name(One)]) <= POINTS_TO_WIN && Sum(scores[Name(Two)]) <= POINTS_TO_WIN
    }

    ghost predicate Valid()
      reads this
    {
      ScoresValid()
      && playerDetails == DetailsFor(scores[Name(One)], scores[Name(Two)])
      && playerPointsToWin == POINTS_TO_WIN - Sum(scores[Name(player)])
      && RoundsWellFormed(rounds)
    }

    /** The game `create_game` builds: player One, nothing thrown, 301 to win each. */
    constructor (id: Uuid)
      ensures Valid()
      ensures this.id == id && player == One && rounds == [] && winner == None
      ensures scores == map[Name(One) := [], Name(Two) := []]
      ensures playerPointsToWin == POINTS_TO_WIN
      ensures playerDetails == [PlayerDetails(One, POINTS_TO_WIN), PlayerDetails(Two, POINTS_TO_WIN)]
    {
      this.id := id;
      winner := None;
      player := One;
      playerPointsToWin := POINTS_TO_WIN;
      rounds := [];
      scores := map[Name(One) := [], Name(Two) := []];
      playerDetails := [PlayerDetails(One, POINTS_TO_WIN), PlayerDetails(Two, POINTS_TO_WIN)];
    }

    /**
     * `Game::update_player_details`: each player's points to win is 301 minus
     * the sum of its list (points above 100, labelled overthrows, included),
     * and the current player's value is copied out; nothing else changes.
     */
    method UpdatePlayerDetails()
      requires ScoresValid()
      modifies this
      ensures id == old(id) && player == old(player) && rounds == old(rounds)
      ensures scores == old(scores) && winner == old(winner)
      ensures playerDetails == DetailsFor(scores[Name(One)], scores[Name(Two)])
      ensures playerPointsToWin == POINTS_TO_WIN - Sum(scores[Name(player)])
    {
      var player1Scores := scores[Name(One)];
      var player2Scores := scores[Name(Two)];
      playerDetails := [PlayerDetails(One, POINTS_TO_WIN - Sum(player1Scores)),
                        PlayerDetails(Two, POINTS_TO_WIN - Sum(player2Scores))];
      match player {
        case One => playerPointsToWin := POINTS_TO_WIN - Sum(player1Scores);
        case Two => playerPointsToWin := POINTS_TO_WIN - Sum(player2Scores);
      }
    }

    /** `Game::remove_last_round_points`. */
    method RemoveLastRoundPoints()
      modifies this
      ensures rounds == RoundsAfterRemove(old(rounds))
      ensures id == old(id) && player == old(player) && scores == old(scores) && winner == old(winner)
      ensures playerDetails == old(playerDetails) && playerPointsToWin == old(playerPointsToWin)
    {
      if rounds != [] {
        var round := rounds[|rounds| - 1];
        if |round.points| == 2 {
          rounds := rounds[..|rounds| - 1] + [Round(round.number, round.points[..1])];
        } else {
          rounds := rounds[..|rounds| - 1];
        }
      }
    }

    /** `Game::update_rounds`. */
    method UpdateRounds(points: u16)
      requires CanUpdateRounds(rounds)
      modifies this
      ensures rounds == RoundsAfterUpdate(old(rounds), points)
      ensures id == old(id) && player == old(player) && scores == old(scores) && winner == old(winner)
      ensures playerDetails == old(playerDetails) && playerPointsToWin == old(playerPointsToWin)
    {
      var len := |rounds|;
      var point := if points > OVERTHROW_ABOVE then Overthrow(points) else Score(points);
      if rounds != [] {
        var round := rounds[|rounds| - 1];
        if |round.points| == 2 {
          rounds := rounds + [Round(AsU16(len) + 1, [point])];
        } else {
          rounds := rounds[..|rounds| - 1] + [Round(round.number, round.points + [point])];
        }
      } else {
        rounds := rounds + [Round(1, [point])];
      }
    }

    /**
     * The state change of `count_points`: the points (cast to `u16`) join the
     * current player's list, that player wins if the list now sums to 301,
     * the turn passes, and the details and rounds follow.
     */
    method CountPoints(points: i32)
      requires Valid()
      requires Sum(scores[Name(player)]) + AsU16(points) <= POINTS_TO_WIN
      requires CanUpdateRounds(rounds)
      modifies this
      ensures Valid()
      ensures id == old(id)
      ensures scores == old(scores)[Name(old(player)) := old(scores[Name(player)]) + [AsU16(points)]]
      ensures winner == if Sum(scores[Name(old(player))]) == POINTS_TO_WIN then Some(Name(old(player))) else old(winner)
      ensures player == Next(old(player))
      ensures rounds == RoundsAfterUpdate(old(rounds), AsU16(points))
    {
      NamesDiffer();
      var value := AsU16(points);
      var name := Name(player);
      var current := scores[name] + [value];
      assert current[..|current| - 1] == scores[name];
      scores := scores[name := current];
      if Sum(current) == POINTS_TO_WIN {
        winner := Some(name);
      }
      player := Next(player);
      UpdatePlayerDetails();
      UpdateKeepsWellFormed(rounds, value);
      UpdateRounds(value);
    }

    /**
     * The state change of `cancel_last_score` as written: the list of the
     * player whose turn it now is loses its last points (nothing if empty),
     * then the turn passes, and the details and rounds follow.
     */
    method CancelLastScore()
      requires Valid()
      modifies this
      ensures Valid()
      ensures var name := Name(old(player));
              var s := old(scores[Name(player)]);
              scores == old(scores)[name := if s == [] then [] else s[..|s| - 1]]
      ensures id == old(id) && winner == old(winner) && player == Next(old(player))
      ensures rounds == RoundsAfterRemove(old(rounds))
    {
      var name := Name(player);
      var current := scores[name];
      if current != [] {
        SumOfPrefix(current);
        current := current[..|current| - 1];
      }
      scores := scores[name := current];
      player := Next(player);
      UpdatePlayerDetails();
      RemoveKeepsWellFormed(rounds);
      RemoveLastRoundPoints();
    }

    /**
     * The cancel `cancel_last_score` evidently intends: the turn goes back
     * first, so the player who threw last loses their last points.
     */
    method CancelLastScoreIntended()
      requires Valid()
      modifies this
      ensures Valid()
      ensures var name := Name(Next(old(player)));
              var s := old(scores[Name(Next(player))]);
              scores == old(scores)[name := if s == [] then [] else s[..|s| - 1]]
      ensures id == old(id) && winner == old(winner) && player == Next(old(player))
      ensures rounds == RoundsAfterRemove(old(rounds))
    {
      player := Next(player);
      var name := Name(player);
      var current := scores[name];
      if current != [] {
        SumOfPrefix(current);
        current := current[..|current| - 1];
      }
      scores := scores[name := current];
      UpdatePlayerDetails();
      RemoveKeepsWellFormed(rounds);
      RemoveLastRoundPoints();
    }
  }

  /**
   * Counting then cancelling as written: the rounds come back, but the points
   * stay on the thrower's list and the other player loses their last points.
   */
  method CountThenCancel(game: Game, points: i32)
    requires game.Valid()
    requires Sum(game.scores[Name(game.player)]) + AsU16(points) <= POINTS_TO_WIN
    requires CanUpdateRounds(game.rounds)
    modifies game
    ensures game.Valid()
    ensures game.rounds == old(game.rounds) && game.player == old(game.player)
    ensures game.scores[Name(game.player)] == old(game.scores[Name(game.player)]) + [AsU16(points)]
    ensures var other := old(game.scores[Name(Next(game.player))]);
            game.scores[Name(Next(game.player))] == if other == [] then [] else other[..|other| - 1]
  {
    RemoveUndoesUpdate(game.rounds, AsU16(points));
    game.CountPoints(points);
    game.CancelLastScore();
  }

  /** The as-written cancel on a new game keeps Player1's 20 points while the round is gone. */
  method CountThenCancelOnNewGame()
  {
    var game := new Game(0);
    CountThenCancel(game, 20);
    assert game.scores[Name(One)] == [20] && game.rounds == [];
  }

  /** Appending to one list and then dropping its last entry gives back the same lists. */
  lemma RestoreEntry(scores: map<string, seq<u16>>, name: string, v: u16)
    requires name in scores
    ensures var after := scores[name := scores[name] + [v]];
            after[name := after[name][..|after[name]| - 1]] == scores
  {
    assert (scores[name] + [v])[..|scores[name]|] == scores[name];
  }

  /** Counting then cancelling with the intended cancel restores the whole game but the winner. */
  method CountThenCancelIntended(game: Game, points: i32)
    requires game.Valid()
    requires Sum(game.scores[Name(game.player)]) + AsU16(points) <= POINTS_TO_WIN
    requires CanUpdateRounds(game.rounds)
    modifies game
    ensures game.Valid()
    ensures game.rounds == old(game.rounds) && game.player == old(game.player)
    ensures game.scores == old(game.scores)
    ensures game.playerDetails == old(game.playerDetails) && game.playerPointsToWin == old(game.playerPointsToWin)
  {
    RemoveUndoesUpdate(game.rounds, AsU16(points));
    RestoreEntry(game.scores, Name(game.player), AsU16(points));
    NextTwiceIsIdentity(game.player);
    game.CountPoints(points);
    game.CancelLastScoreIntended();
  }
}
