/**
 * The gateway repository's game reconstruction (gateway/src/repo.rs): a new
 * game, and a stored game rebuilt by replaying its score rows. The database
 * is a parameter: what `dataspine::insert_game` and `dataspine::find_game`
 * answer is passed in.
 */
module GatewayRepo {
  import opened Ints
  import opened Outcomes
  import opened ScoreTrackerLib
  import opened GatewayReferee

  /** A stored score row as the replay reads it. */
  datatype ScoreRow = ScoreRow(playerName: string, score: i32, turnNumber: i32)

  const GAME_NOT_FOUND_MESSAGE: string := "Game not found"

  /** `create_game`: player One to throw, and no throws for either player. */
  method CreateGame(insertedId: Result<Uuid, Error>) returns (r: Result<Game, Error>)
    ensures insertedId.Err? ==> r == Err(insertedId.error)
    ensures insertedId.Ok? ==>
              r.Ok? && fresh(r.value) && r.value.id == insertedId.value
              && r.value.playerNumber == One && r.value.player1Scores == [] && r.value.player2Scores == []
  {
    var id :- insertedId;
    var game := new Game(id, One, [], []);
    r := Ok(game);
  }

  /** The rows with the given player name, in their stored order. */
  function KeepPlayer(rows: seq<ScoreRow>, name: string): seq<ScoreRow> {
    if rows == [] then []
    else KeepPlayer(rows[..|rows| - 1], name) + if rows[|rows| - 1].playerName == name then [rows[|rows| - 1]] else []
  }

  /** The rows with turn number `t`, in their order. */
  function WithTurn(rows: seq<ScoreRow>, t: int): seq<ScoreRow> {
    if rows == [] then []
    else WithTurn(rows[..|rows| - 1], t) + TurnPart(rows[|rows| - 1], t)
  }

  predicate SortedByTurn(rows: seq<ScoreRow>) {
    forall i, j :: 0 <= i < j < |rows| ==> rows[i].turnNumber <= rows[j].turnNumber
  }

  /** `row` placed after every row whose turn number is not larger. */
  function Insert(sorted: seq<ScoreRow>, row: ScoreRow): seq<ScoreRow> {
    if sorted == [] || sorted[|sorted| - 1].turnNumber <= row.turnNumber then sorted + [row]
    else Insert(sorted[..|sorted| - 1], row) + [sorted[|sorted| - 1]]
  }

  lemma DropLastAppend<T>(s: seq<T>)
    requires s != []
    ensures s[..|s| - 1] + [s[|s| - 1]] == s
  {
  }

  /** Inserting adds the row and loses nothing. */
  lemma {:induction false} InsertPermutes(sorted: seq<ScoreRow>, row: ScoreRow)
    ensures multiset(Insert(sorted, row)) == multiset(sorted) + multiset{row}
    decreases |sorted|
  {
    if !(sorted == [] || sorted[|sorted| - 1].turnNumber <= row.turnNumber) {
      InsertPermutes(sorted[..|sorted| - 1], row);
      DropLastAppend(sorted);
    }
  }

  /**
   * The rows by turn number: an insertion sort standing in for
   * `sort_by_key(turn_number)`, stable as that sort is.
   */
  function SortByTurn(rows: seq<ScoreRow>): seq<ScoreRow> {
    if rows == [] then [] else Insert(SortByTurn(rows[..|rows| - 1]), rows[|rows| - 1])
  }

  lemma {:induction false} InsertKeepsSorted(sorted: seq<ScoreRow>, row: ScoreRow)
    requires SortedByTurn(sorted)
    ensures SortedByTurn(Insert(sorted, row))
    decreases |sorted|
  {
    if !(sorted == [] || sorted[|sorted| - 1].turnNumber <= row.turnNumber) {
      var last := sorted[|sorted| - 1];
      var front := sorted[..|sorted| - 1];
      InsertKeepsSorted(front, row);
      InsertPermutes(front, row);
      var r := Insert(front, row);
      forall i | 0 <= i < |r|
        ensures r[i].turnNumber <= last.turnNumber
      {
        assert r[i] in multiset(front) + multiset{row};
        if r[i] in multiset(front) {
          var k :| 0 <= k < |front| && front[k] == r[i];
          assert sorted[k] == r[i];
        }
      }
    }
  }

  /** The row alone when it has turn number `t`, nothing otherwise. */
  function TurnPart(row: ScoreRow, t: int): seq<ScoreRow> {
    if row.turnNumber == t then [row] else []
  }

  lemma WithTurnAppend(rows: seq<ScoreRow>, row: ScoreRow, t: int)
    ensures WithTurn(rows + [row], t) == WithTurn(rows, t) + TurnPart(row, t)
  {
    assert (rows + [row])[..|rows|] == rows;
  }

  lemma SwapEmpty<T>(a: seq<T>, b: seq<T>, c: seq<T>)
    requires b == [] || c == []
    ensures a + b + c == a + c + b
  {
  }

  /**
   * Inserting a row places it after every row of its own turn number, so the
   * rows of each turn number keep their order.
   */
  lemma {:induction false} InsertKeepsTurnOrder(sorted: seq<ScoreRow>, row: ScoreRow, t: int)
    ensures WithTurn(Insert(sorted, row), t) == WithTurn(sorted, t) + TurnPart(row, t)
    decreases |sorted|
  {
    if sorted == [] || sorted[|sorted| - 1].turnNumber <= row.turnNumber {
      WithTurnAppend(sorted, row, t);
    } else {
      var last := sorted[|sorted| - 1];
      var front := sorted[..|sorted| - 1];
      var inserted := Insert(front, row);
      assert Insert(sorted, row) == inserted + [last];
      InsertKeepsTurnOrder(front, row, t);
      WithTurnAppend(inserted, last, t);
      WithTurnAppend(front, last, t);
      DropLastAppend(sorted);
      SwapEmpty(WithTurn(front, t), TurnPart(row, t), TurnPart(last, t));
    }
  }

  lemma {:induction false} SortByTurnIsSorted(rows: seq<ScoreRow>)
    ensures SortedByTurn(SortByTurn(rows))
  {
    if rows != [] {
      SortByTurnIsSorted(rows[..|rows| - 1]);
      InsertKeepsSorted(SortByTurn(rows[..|rows| - 1]), rows[|rows| - 1]);
    }
  }

  lemma {:induction false} SortByTurnPermutes(rows: seq<ScoreRow>)
    ensures multiset(SortByTurn(rows)) == multiset(rows)
  {
    if rows != [] {
      SortByTurnPermutes(rows[..|rows| - 1]);
      InsertPermutes(SortByTurn(rows[..|rows| - 1]), rows[|rows| - 1]);
      DropLastAppend(rows);
    }
  }

  lemma {:induction false} SortByTurnKeepsTurnOrder(rows: seq<ScoreRow>, t: int)
    ensures WithTurn(SortByTurn(rows), t) == WithTurn(rows, t)
  {
    if rows != [] {
      var front := rows[..|rows| - 1];
      var row := rows[|rows| - 1];
      SortByTurnKeepsTurnOrder(front, t);
      InsertKeepsTurnOrder(SortByTurn(front), row, t);
      WithTurnAppend(front, row, t);
      DropLastAppend(rows);
    }
  }

  /**
   * The sort orders the rows by turn number, keeps every row, and keeps the
   * order of the rows that share a turn number.
   */
  lemma SortByTurnIsStableSort(rows: seq<ScoreRow>)
    ensures SortedByTurn(SortByTurn(rows))
    ensures multiset(SortByTurn(rows)) == multiset(rows)
    ensures forall t :: WithTurn(SortByTurn(rows), t) == WithTurn(rows, t)
  {
    SortByTurnIsSorted(rows);
    SortByTurnPermutes(rows);
    forall t
      ensures WithTurn(SortByTurn(rows), t) == WithTurn(rows, t)
    {
      SortByTurnKeepsTurnOrder(rows, t);
    }
  }

  /** Every row's score converts to a `u8`. */
  predicate ScoresFitU8(rows: seq<ScoreRow>) {
    forall i :: 0 <= i < |rows| ==> 0 <= rows[i].score < U8_LIMIT
  }

  /**
   * `scores` is the replay of `values` through `add_score` from an empty
   * vector: one throw per value, in order, each an overflow exactly when it
   * would take the counted total before it past `limit`.
   */
  ghost predicate ReplayOf(scores: seq<PlayerScore>, values: seq<u8>, limit: nat) {
    |scores| == |values| && forall i :: 0 <= i < |scores| ==> ReplayedAt(scores, values, limit, i)
  }

  /** Throw `i` has the `i`th value and overflows exactly when it would pass `limit`. */
  ghost predicate ReplayedAt(scores: seq<PlayerScore>, values: seq<u8>, limit: nat, i: nat)
    requires i < |scores| == |values|
  {
    scores[i].score.points == values[i]
    && (scores[i].Overflow? <==> Counted(scores[..i]) + values[i] > limit)
  }

  /** The scores of `rows` as `u8`s (each exact when it fits). */
  function Values(rows: seq<ScoreRow>): (vs: seq<u8>)
    ensures |vs| == |rows|
    ensures forall i :: 0 <= i < |rows| && 0 <= rows[i].score < U8_LIMIT ==> vs[i] == rows[i].score
  {
    seq(|rows|, i requires 0 <= i < |rows| => AsU8(rows[i].score))
  }

  /** One more `add_score` extends a replay by one value. */
  lemma ReplayStep(scores: seq<PlayerScore>, values: seq<u8>, limit: nat, next: seq<PlayerScore>, v: u8)
    requires ReplayOf(scores, values, limit)
    requires |next| == |scores| + 1 && next[..|scores|] == scores
    requires next[|scores|].score.points == v
    requires next[|scores|].Overflow? <==> Counted(scores) + v > limit
    ensures ReplayOf(next, values + [v], limit)
  {
    forall i | 0 <= i < |next|
      ensures ReplayedAt(next, values + [v], limit, i)
    {
      if i < |scores| {
        assert next[..i] == next[..|scores|][..i];
        assert ReplayedAt(scores, values, limit, i);
      }
    }
  }

  /** Exactly the rows naming the player are kept. */
  lemma {:induction false} KeepPlayerKeepsExactlyThePlayer(rows: seq<ScoreRow>, name: string)
    ensures forall row :: row in KeepPlayer(rows, name) <==> row in rows && row.playerName == name
  {
    if rows != [] {
      KeepPlayerKeepsExactlyThePlayer(rows[..|rows| - 1], name);
      assert rows == rows[..|rows| - 1] + [rows[|rows| - 1]];
    }
  }

  /** Sorting the kept rows keeps only rows of that player. */
  lemma SortedKeptRowsHaveName(rows: seq<ScoreRow>, name: string)
    ensures forall i :: 0 <= i < |SortByTurn(KeepPlayer(rows, name))| ==>
              SortByTurn(KeepPlayer(rows, name))[i].playerName == name
  {
    var kept := KeepPlayer(rows, name);
    var sorted := SortByTurn(kept);
    SortByTurnIsStableSort(kept);
    KeepPlayerKeepsExactlyThePlayer(rows, name);
    forall i | 0 <= i < |sorted|
      ensures sorted[i].playerName == name
    {
      assert sorted[i] in multiset(kept);
    }
  }

  lemma KeepPlayerAppend(rows: seq<ScoreRow>, row: ScoreRow, name: string)
    ensures KeepPlayer(rows + [row], name) == KeepPlayer(rows, name) + if row.playerName == name then [row] else []
  {
    assert (rows + [row])[..|rows|] == rows;
  }

  lemma KeepPlayerPrefix(rows: seq<ScoreRow>, i: int, name: string)
    requires 0 <= i < |rows|
    ensures KeepPlayer(rows[..i + 1], name)
            == KeepPlayer(rows[..i], name) + if rows[i].playerName == name then [rows[i]] else []
  {
    assert rows[..i + 1] == rows[..i] + [rows[i]];
    KeepPlayerAppend(rows[..i], rows[i], name);
  }

  /** Rows that all name one player are all kept for it and none for another. */
  lemma {:induction false} KeepPlayerOfOnePlayer(rows: seq<ScoreRow>, name: string, other: string)
    requires forall i :: 0 <= i < |rows| ==> rows[i].playerName == name
    requires other != name
    ensures KeepPlayer(rows, name) == rows && KeepPlayer(rows, other) == []
  {
    if rows != [] {
      KeepPlayerOfOnePlayer(rows[..|rows| - 1], name, other);
      assert rows == rows[..|rows| - 1] + [rows[|rows| - 1]];
    }
  }

  /**
   * One `if score.player_name == ...name()` of `find_game`'s loop: the row's
   * score is added to this player's vector when the row names this player.
   */
  method ReplayRowFor(scores: seq<PlayerScore>, ghost kept: seq<ScoreRow>, row: ScoreRow, name: string)
    returns (next: seq<PlayerScore>)
    requires ReplayOf(scores, Values(kept), MAX_GAME_SCORE) && Counted(scores) <= MAX_GAME_SCORE
    requires 0 <= row.score < U8_LIMIT
    ensures ReplayOf(next, Values(kept + if row.playerName == name then [row] else []), MAX_GAME_SCORE)
    ensures Counted(next) <= MAX_GAME_SCORE
  {
    next := scores;
    if row.playerName == name {
      var value: u8 := row.score;
      next := AddScore(scores, Score.Score(value), GameScore(MAX_GAME_SCORE));
      assert Values(kept + [row]) == Values(kept) + [value];
      ReplayStep(scores, Values(kept), MAX_GAME_SCORE, next, value);
    } else {
      assert kept + [] == kept;
    }
  }

  /** One turn of the `read_game` loop: the row's score goes to its player's throws. */
  method ReplayNextRow(scores: seq<ScoreRow>, i: nat, player1Scores: seq<PlayerScore>, player2Scores: seq<PlayerScore>)
    returns (next1: seq<PlayerScore>, next2: seq<PlayerScore>)
    requires i < |scores| && 0 <= scores[i].score < U8_LIMIT
    requires ReplayOf(player1Scores, Values(KeepPlayer(scores[..i], Name(One))), MAX_GAME_SCORE)
    requires ReplayOf(player2Scores, Values(KeepPlayer(scores[..i], Name(Two))), MAX_GAME_SCORE)
    requires Counted(player1Scores) <= MAX_GAME_SCORE && Counted(player2Scores) <= MAX_GAME_SCORE
    ensures ReplayOf(next1, Values(KeepPlayer(scores[..i + 1], Name(One))), MAX_GAME_SCORE)
    ensures ReplayOf(next2, Values(KeepPlayer(scores[..i + 1], Name(Two))), MAX_GAME_SCORE)
    ensures Counted(next1) <= MAX_GAME_SCORE && Counted(next2) <= MAX_GAME_SCORE
  {
    KeepPlayerPrefix(scores, i, Name(One));
    KeepPlayerPrefix(scores, i, Name(Two));
    next1 := ReplayRowFor(player1Scores, KeepPlayer(scores[..i], Name(One)), scores[i], Name(One));
    next2 := ReplayRowFor(player2Scores, KeepPlayer(scores[..i], Name(Two)), scores[i], Name(Two));
  }

  /**
   * `find_game`'s loop: each row's score read as a `u8` (a failure ends the
   * load) and added through `add_score` with a limit of 301 to the vector of
   * the player the row names.
   */
  method ReplayRows(scores: seq<ScoreRow>) returns (r: Result<(seq<PlayerScore>, seq<PlayerScore>), Error>)
    ensures r.Ok? <==> ScoresFitU8(scores)
    ensures r.Err? ==> r.error == UnexpectedError(INT_CONVERSION_FAILED)
    ensures r.Ok? ==>
              ReplayOf(r.value.0, Values(KeepPlayer(scores, Name(One))), MAX_GAME_SCORE)
              && ReplayOf(r.value.1, Values(KeepPlayer(scores, Name(Two))), MAX_GAME_SCORE)
              && Counted(r.value.0) <= MAX_GAME_SCORE && Counted(r.value.1) <= MAX_GAME_SCORE
  {
    var player1Scores: seq<PlayerScore> := [];
    var player2Scores: seq<PlayerScore> := [];
    for i := 0 to |scores|
      invariant ScoresFitU8(scores[..i])
      invariant ReplayOf(player1Scores, Values(KeepPlayer(scores[..i], Name(One))), MAX_GAME_SCORE)
      invariant ReplayOf(player2Scores, Values(KeepPlayer(scores[..i], Name(Two))), MAX_GAME_SCORE)
      invariant Counted(player1Scores) <= MAX_GAME_SCORE && Counted(player2Scores) <= MAX_GAME_SCORE
    {
      var score := scores[i];
      if !(0 <= score.score < U8_LIMIT) {
        return Err(UnexpectedError(INT_CONVERSION_FAILED));
      }
      player1Scores, player2Scores := ReplayNextRow(scores, i, player1Scores, player2Scores);
    }
    assert scores[..|scores|] == scores;
    r := Ok((player1Scores, player2Scores));
  }

  /**
   * `find_game`: a store error is passed on and a missing game is
   * `NotFound("Game not found")`. Otherwise only the rows of "Player1" are
   * kept, sorted by turn number and replayed in that order through
   * `add_score` with a limit of 301; a score that is not a `u8` fails the
   * whole load. Player2's vector therefore stays empty, and the turn is
   * One's exactly when both vectors are equally long.
   */
  method FindGame(found: Result<Option<(Uuid, seq<ScoreRow>)>, Error>) returns (r: Result<Game, Error>)
    ensures found.Err? ==> r == Err(found.error)
    ensures found.Ok? && found.value.None? ==> r == Err(NotFound(GAME_NOT_FOUND_MESSAGE))
    ensures found.Ok? && found.value.Some? ==>
              var rows := SortByTurn(KeepPlayer(found.value.value.1, Name(One)));
              (r.Ok? <==> ScoresFitU8(rows))
              && (r.Err? ==> r.error == UnexpectedError(INT_CONVERSION_FAILED))
              && (r.Ok? ==>
                    fresh(r.value) && r.value.id == found.value.value.0
                    && ReplayOf(r.value.player1Scores, Values(rows), MAX_GAME_SCORE)
                    && Counted(r.value.player1Scores) <= MAX_GAME_SCORE
                    && r.value.player2Scores == []
                    && (r.value.playerNumber == One <==> |r.value.player1Scores| == |r.value.player2Scores|))
  {
    var option :- found;
    if option.None? {
      return Err(NotFound(GAME_NOT_FOUND_MESSAGE));
    }
    var (id, stored) := option.value;
    var scores := SortByTurn(KeepPlayer(stored, "Player1"));
    SortedKeptRowsHaveName(stored, "Player1");
    KeepPlayerOfOnePlayer(scores, Name(One), Name(Two));
    var replayed :- ReplayRows(scores);
    var (player1Scores, player2Scores) := replayed;
    var playerNumber := if |player1Scores| == |player2Scores| then One else Two;
    var game := new Game(id, playerNumber, player1Scores, player2Scores);
    r := Ok(game);
  }
  /**
   * `find_game` as its loop evidently means it: without the "Player1"
   * filter, so the `PlayerNumber::Two` branch receives Player2's rows.
   */
  method FindGameIntended(found: Result<Option<(Uuid, seq<ScoreRow>)>, Error>) returns (r: Result<Game, Error>)
    ensures found.Err? ==> r == Err(found.error)
    ensures found.Ok? && found.value.None? ==> r == Err(NotFound(GAME_NOT_FOUND_MESSAGE))
    ensures found.Ok? && found.value.Some? ==>
              var rows := SortByTurn(found.value.value.1);
              (r.Ok? <==> ScoresFitU8(rows))
              && (r.Err? ==> r.error == UnexpectedError(INT_CONVERSION_FAILED))
              && (r.Ok? ==>
                    fresh(r.value) && r.value.id == found.value.value.0
                    && ReplayOf(r.value.player1Scores, Values(KeepPlayer(rows, Name(One))), MAX_GAME_SCORE)
                    && ReplayOf(r.value.player2Scores, Values(KeepPlayer(rows, Name(Two))), MAX_GAME_SCORE)
                    && Counted(r.value.player1Scores) <= MAX_GAME_SCORE
                    && Counted(r.value.player2Scores) <= MAX_GAME_SCORE
                    && (r.value.playerNumber == One <==> |r.value.player1Scores| == |r.value.player2Scores|))
  {
    var option :- found;
    if option.None? {
      return Err(NotFound(GAME_NOT_FOUND_MESSAGE));
    }
    var (id, stored) := option.value;
    var scores := SortByTurn(stored);
    var replayed :- ReplayRows(scores);
    var (player1Scores, player2Scores) := replayed;
    var playerNumber := if |player1Scores| == |player2Scores| then One else Two;
    var game := new Game(id, playerNumber, player1Scores, player2Scores);
    r := Ok(game);
  }

  /**
   * One stored Player2 throw of 20: `find_game` as written loads no throw
   * for Player2 and keeps the turn at One; the intended load holds the 20
   * and gives the turn to Two.
   */
  method FindGameDropsPlayer2Throw(id: Uuid) returns (asWritten: Result<Game, Error>, intended: Result<Game, Error>)
    ensures asWritten.Ok? && asWritten.value.player2Scores == [] && asWritten.value.player1Scores == []
    ensures asWritten.value.playerNumber == One
    ensures intended.Ok? && |intended.value.player2Scores| == 1
            && intended.value.player2Scores[0].score.points == 20
    ensures intended.value.playerNumber == Two
  {
    var row := ScoreRow("Player2", 20, 1);
    assert SortByTurn([row]) == [row];
    assert KeepPlayer([row], Name(One)) == [];
    assert KeepPlayer([row], Name(Two)) == [row];
    asWritten := FindGame(Ok(Some((id, [row]))));
    intended := FindGameIntended(Ok(Some((id, [row]))));
    assert ReplayedAt(intended.value.player2Scores, Values([row]), MAX_GAME_SCORE, 0);
  }

}
