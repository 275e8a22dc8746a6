# Darts scoring core, modelled in Dafny

This project models the scoring logic of a darts repository. The repository holds
several overlapping takes on the same two-player game of 301, where each player starts
at 301 points and must reach zero exactly. A throw that would take a player past the
limit is a bust ("overthrow" or "overflow"): it is recorded but not counted. Each
source file is modelled as written, in its own Dafny module. The model does not merge
these takes into one design.

- **Value types** (`playground` crate): `Score` (0..=180 points per turn), `Number` and
  `PositiveInteger` (never zero, with a range iterator), `Points`, `PointsLimit`
  (never zero), `PlayerScore` (regular or overthrow) and `PlayerNumber` (One or Two,
  with its `i32` round trip).
- **Per-player accumulation with the bust rule**: the `Player` class, and the two
  `AddScore`/`total_game_score` score trackers over a vector of throws.
- **History-replay state**: `GameState` rebuilds its players by replaying the whole
  list of stored throws after every push or pop. The playground `Referee` orders its
  store calls around that state.
- **Gateway**: a two-player referee that updates per-player vectors in memory and
  then saves or deletes by turn number. Its repository rebuilds a game by replaying
  stored rows.
- **Mock game service**: an in-memory state machine over two point lists and rounds of
  at most two points. It has no bust rule: points above 100 are labelled as overthrows
  in the rounds, but they are still counted in the lists, the points to win and the
  winner test.
- **Front ends and storage**: parsing a typed score such as `20+5+60`, the scoreboard
  numbers, grouping throws into rounds for display, and the error and point
  mappings. It also covers the storage row of a throw and its round trip.

Store calls become a call log (`Store.calls`), and what a store answers is a method
parameter. Integers keep their Rust widths as subset types (`u8`, `u16`, `i32`,
`usize`) in `ints.dfy`. Rust's `as` casts are written out as `AsU8`, `AsU16` and
`AsI32`. Arithmetic that would panic on overflow in Rust is excluded by a
precondition.

## Model

| member | source | states |
|---|---|---|
| Score.Init | playground/src/score.rs:26-28 | the initial score holds 0 points |
| Score.New | playground/src/score.rs:30-36 | succeeds exactly for 0..=180 and then holds the given points; otherwise `InvalidArgument` with the "maximum number of points" message |
| Score.AssignPoints | playground/src/score.rs:11-24 | accepts exactly what `New` accepts and then holds those points; on rejection the score is unchanged and the error is `New`'s |
| Score.NewByAssignment | playground/src/score.rs:30-36 | `new` written as `init` then `assign_points` agrees with `New` on every input |
| Score.NewIsBounded | playground/src/score.rs:6-36 | every accepted score holds at most 180 points |
| Score.NewAcceptsBounds | playground/src/score.rs:47-59 | 0 and 180 are both accepted |
| Score.NewRejectsOverLimitMessage | playground/src/score.rs:61-76 | 181 is rejected with exactly "The maximum number of points allowed is 180. Given: 181" |
| Number.Number.Value | playground/src/number.rs:36-38 | the value of a `Number` is never zero |
| Number.New | playground/src/number.rs:24-30 | fails exactly on 0, with "Number must be greater than 0"; otherwise the value is the argument |
| Number.One | playground/src/number.rs:32-34 | `one()` is what `new(1)` builds |
| Number.Increment | playground/src/number.rs:40-42 | adds one below `usize::MAX` and saturates at it, so the value never wraps to zero |
| Number.ToI32 | playground/src/number.rs:13-17 | the cast keeps values up to `i32::MAX` and otherwise agrees with the value modulo 2^32 |
| Number.OrderFollowsValue | playground/src/number.rs:4 | derived equality and order are those of the value, and the order is total |
| PositiveInteger.PositiveInteger.Value | playground/src/positive_integer.rs:88-90 | the value is never zero |
| PositiveInteger.New | playground/src/positive_integer.rs:61-69 | fails exactly on 0 with `InvalidArgument`; otherwise the value is the argument |
| PositiveInteger.One | playground/src/positive_integer.rs:71-73 | `one()` is what `new(1)` builds |
| PositiveInteger.TryFromI32 | playground/src/positive_integer.rs:30-39 | a negative input is `Unexpected` with its text, 0 is `InvalidArgument`, and a positive input gives that value |
| PositiveInteger.TryToI32 | playground/src/positive_integer.rs:82-86 | fails with `FailedPrecondition` exactly when the value exceeds `i32::MAX`; otherwise it is the value |
| PositiveInteger.TryIntoI32 | playground/src/positive_integer.rs:45-52 | fails with `Unexpected` on the same overflow; otherwise `TryFromI32` reads the result back to the same integer |
| PositiveInteger.PositiveIntegersRange.constructor | playground/src/positive_integer.rs:75-80 | a new range has yielded nothing and will yield 1..=n |
| PositiveInteger.PositiveIntegersRange.Next | playground/src/positive_integer.rs:16-24 | yields the next remaining value in order; once exhausted it returns `None` and leaves the iterator unchanged |
| PositiveInteger.Range | playground/src/positive_integer.rs:75-80 | `range(n)` is a fresh iterator whose remaining values are exactly 1, 2, ..., n |
| Points.Default | playground/src/points.rs:3 | the default points are 0 |
| Points.FromU16 | playground/src/points.rs:12-16 | converting a `u16` to `Points` and back gives the same `u16` |
| Points.IntoI32 | playground/src/points.rs:24-28 | the `i32` conversion equals the inner `u16` value |
| Points.FromIntoRoundTrip | playground/src/points.rs:12-22 | `Points` to `u16` and back is the identity too |
| Points.LessIsStrictTotalOrder | playground/src/points.rs:3 | the derived order is irreflexive, transitive and total on distinct values |
| PointsLimit.New | playground/src/points_limit.rs:22-31 | fails exactly on zero points with "Points limit cannot be zero"; a built limit holds its points and never zero |
| PointsLimit.TryFromU16 | playground/src/points_limit.rs:6-12 | accepts exactly the nonzero values, keeping them, with `new`'s error otherwise |
| PointsLimit.TryFromPoints | playground/src/points_limit.rs:14-20 | accepts exactly the nonzero points, keeping them, with `new`'s error otherwise |
| PlayerScore.PlayerScore.ScoreOf | playground/src/player_score.rs:18-23 | returns the wrapped score, whichever variant holds it |
| PlayerScore.NewRegular | playground/src/player_score.rs:10-12 | `regular(s)` is regular and wraps `s` |
| PlayerScore.NewOverthrow | playground/src/player_score.rs:14-16 | `overthrow(s)` is an overthrow and wraps `s` |
| PlayerScore.ExactlyOneKind | playground/src/player_score.rs:25-31 | exactly one of `is_regular` and `is_overthrow` holds |
| PlayerNumber.All | playground/src/player_number.rs:10-12 | `[One, Two]` in that order, holding every player number |
| PlayerNumber.Name | playground/src/player_number.rs:14-19 | the name is "Player" followed by the player's `i32` number |
| PlayerNumber.NextPlayerNumber | playground/src/player_number.rs:21-26 | the next player is always the other one |
| PlayerNumber.NextTwiceIsIdentity | playground/src/player_number.rs:21-26 | passing the turn twice gives it back |
| PlayerNumber.TryFromI32 | playground/src/player_number.rs:32-44 | accepts exactly 1 and 2; any other value is `Unexpected("Invalid player number: …")` |
| PlayerNumber.ToI32 | playground/src/player_number.rs:47-54 | `try_from(i32::from(p)) == p` for every player |
| PlayerNumber.TryFromThenIntoI32 | playground/src/player_number.rs:32-54 | whatever `try_from` accepts, `i32::from` gives back unchanged |
| Player.GamePoints | playground/src/player.rs:27 | a regular entry adds its points to the total and an overthrow adds nothing |
| Player.RegularTotalAtMostAllPoints | playground/src/player.rs:16-30 | the counted total never exceeds the sum of all points entered |
| Player.Player.Limit | playground/src/player.rs:33 | the truncating `as u16` cast keeps every limit that fits in a `u16` |
| Player.Player.constructor | playground/src/player.rs:36-48 | a new player has its number and limit, no points and no scores |
| Player.Player.AddScore | playground/src/player.rs:16-30 | changes nothing once the player has won; otherwise it appends one entry, an overthrow exactly when the total plus the score exceeds the limit; `points` stays the regular total and never passes the limit |
| Player.Player.AddPlayerScore | playground/src/game_state.rs:43-54 | the classified entry is appended and `points` stays the regular total |
| Player.Player.CountedPoints | playground/src/player.rs:54-57 | `points()` is the total of the regular entries only |
| Player.Player.PointsToWin | playground/src/player.rs:59-64 | points to win plus points is the limit, and it is zero exactly when the player has won |
| Player.Player.LastScore | playground/src/player.rs:66-68 | `None` exactly when there are no scores; otherwise the last entry recorded |
| ScoreTracker.PlayerScore.IntoInner | playground/src/score_tracker.rs:40-45 | the points thrown, whichever the variant |
| ScoreTracker.NewScore | playground/src/score_tracker.rs:32-34 | a counted throw of exactly those points |
| ScoreTracker.NewOverthrow | playground/src/score_tracker.rs:36-38 | a bust of exactly those points |
| ScoreTracker.NewGameScore | playground/src/score_tracker.rs:48-56 | `GameScore::new(x).value() == x` |
| ScoreTracker.FoldIsCounted | playground/src/score_tracker.rs:80-92 | the fold from any accumulator adds exactly the points of the counted throws |
| ScoreTracker.CountedAppend | playground/src/score_tracker.rs:64-78 | pushing a throw adds what that throw counts and nothing else |
| ScoreTracker.TotalGameScore | playground/src/score_tracker.rs:80-92 | the total is the sum of the `Score` throws; overthrows count 0 |
| ScoreTracker.AddScore | playground/src/score_tracker.rs:64-78 | pushes exactly one throw and returns it; the earlier throws are kept; a bust exactly when total plus throw exceeds the game score; a total within the limit stays within it |
| ScoreTrackerLib.NewScore | score_tracker/src/lib.rs:20-24 | `Score::new(x)` holds `x` |
| ScoreTrackerLib.NewGameScore | score_tracker/src/lib.rs:26-30 | `GameScore::new(x)` holds `x` |
| ScoreTrackerLib.CountedFromFront | score_tracker/src/lib.rs:83-90 | the counted total is the same whether peeled from the front or the back |
| ScoreTrackerLib.FoldIsCounted | score_tracker/src/lib.rs:83-90 | the fold from any accumulator adds exactly the counted total |
| ScoreTrackerLib.TotalGameScore | score_tracker/src/lib.rs:83-90 | the total counts only the `Score` throws |
| ScoreTrackerLib.AddScore | score_tracker/src/lib.rs:46-60 | pushes exactly one throw after the unchanged prefix; it is an `Overflow` exactly when total plus throw exceeds the game score; a total within the limit stays within it |
| ScoreTrackerLib.Sub | score_tracker/src/lib.rs:38-44 | the difference plus the subtrahend is the minuend, given `b <= a` |
| ScoreTrackerLib.PartialCmp | score_tracker/src/lib.rs:68-72 | always comparable, ordered by the inner values |
| ScoreTrackerLib.EqIsIdentity | score_tracker/src/lib.rs:62-66 | the hand-written equality is structural equality |
| ScoreTrackerLib.PartialCmpConsistent | score_tracker/src/lib.rs:62-72 | the comparison answers `Equal` exactly on equal scores and is antisymmetric |
| ScoreTrackerLib.SubUndoesAdd | score_tracker/src/lib.rs:38-44 | subtracting what was added gives back the original score |
| Round.Load | playground/src/round.rs:19-49 | every loaded field is read back by its accessor |
| Round.LoadIsLossless | playground/src/round.rs:23-37 | two loads are equal exactly when their parameters are |
| ScoreDetails.Load | playground/src/score_details.rs:19-45 | the id, player number and score are kept and read back by their accessors |
| ScoreDetails.LoadForgetsGameAndRound | playground/src/score_details.rs:23-37 | two loads agree exactly when their kept fields do, whatever the game id and round number |
| GameState.EachDetailAddsOneScore | playground/src/game_state.rs:43-54 | each replayed throw adds exactly one score to exactly one player |
| GameState.ViewsBounded | playground/src/game_state.rs:43-54 | no replayed player counts more points than the whole history holds |
| GameState.LoadablePrefix | playground/src/game_state.rs:81-84 | a prefix of a replayable history is replayable, so a pop can always reload |
| GameState.ReplayThrow | playground/src/game_state.rs:43-54 | one pass of the loop: the throw goes to the player at index `player_number` if there is one, otherwise to a new player with that number and limit 301 |
| GameState.Replay | playground/src/game_state.rs:43-54 | the loop builds fresh, valid, distinct players equal to the as-written replay of the history |
| GameState.AsWrittenMisroutesThirdThrow | playground/src/game_state.rs:43-54 | after throws by players 1, 2 and 1, player 1's second throw is credited to player 2 |
| GameState.ByNumberGroupsThrows | playground/src/game_state.rs:43-54 | the replay by player number gives each player exactly its own throws, in order |
| GameState.ReplayThrowByNumber | playground/src/game_state.rs:43-54 | the corrected loop body looks the thrower up by number |
| GameState.ReplayByNumber | playground/src/game_state.rs:43-54 | the corrected loop gives every player exactly its own throws |
| GameState.GameState.Load | playground/src/game_state.rs:35-67 | keeps the game id and history verbatim; the tracker gets 2 players, a limit of 301 and fresh players built by the replay as written |
| GameState.GameState.LoadByNumber | playground/src/game_state.rs:35-67 | the corrected load of the first finding: the same id, history and settings, with every player holding exactly its own throws |
| GameState.GameState.LastScoreDetail | playground/src/game_state.rs:31-33 | `None` exactly on an empty history; otherwise its last throw |
| GameState.GameState.Reload | playground/src/game_state.rs:91-96 | a fresh state loaded from the same id and history, its players the as-written replay |
| GameState.GameState.PushScoreDetails | playground/src/game_state.rs:86-89 | the history gains the throw at its end and is reloaded; the game id is unchanged |
| GameState.GameState.PopScoreDetail | playground/src/game_state.rs:81-84 | the history loses its last throw (nothing when empty) and is reloaded; the game id is unchanged |
| GameState.PopUndoesPush | playground/src/game_state.rs:81-89 | `push_score_details` then `pop_score_detail` on the pushed state gives the old id and history, reloaded as written |
| Referee.CancelLastScore | playground/src/referee.rs:57-80 | an empty history fails with "Empty scores list" and deletes nothing; otherwise the last throw's id is deleted and then the throw is popped; store errors are passed on |
| Referee.CountScore | playground/src/referee.rs:82-114 | no last score fails with "No last score" before any insert; otherwise the thrower's last score is inserted with its number and round, and the history gains exactly the stored throw |
| Referee.StartGame | playground/src/referee.rs:116-128 | a preview is inserted, and the state has its id and an empty history |
| GatewayReferee.Next | gateway/src/referee.rs:47-52 | as written, `next` leaves the player number unchanged |
| GatewayReferee.Previous | gateway/src/referee.rs:54-59 | as written, `previous` leaves the player number unchanged |
| GatewayReferee.NextIntended | gateway/src/referee.rs:47-52 | the intended turn change always moves to the other player |
| GatewayReferee.NextIntendedTwice | gateway/src/referee.rs:47-59 | intended turn changes alternate the two players |
| GatewayReferee.NextAsWrittenKeepsTurn | gateway/src/referee.rs:47-52 | after `next`, player One keeps the turn, where the intended change passes it to Two |
| GatewayReferee.Name | gateway/src/referee.rs:61-66 | "Player1" for One and "Player2" for Two |
| GatewayReferee.NameIsInjective | gateway/src/referee.rs:61-66 | different players have different names |
| GatewayReferee.NewGame | gateway/src/referee.rs:104-113 | the store's new game or its error, after one create call |
| GatewayReferee.CountScore | gateway/src/referee.rs:115-153 | appends the throw to the current player's vector, a bust exactly past 301, leaving the other vector and the turn unchanged; then saves it under turn number "length after the append + 1" (which must fit a `u8`); store errors are passed on |
| GatewayReferee.CancelScore | gateway/src/referee.rs:155-192 | takes the turn number from the length before the pop plus 1; pops the current player's last throw (nothing when empty); then deletes by that turn number; the turn is unchanged |
| GatewayRepo.CreateGame | gateway/src/repo.rs:15-27 | a fresh game with the store's id, player One to throw and no throws for either player |
| GatewayRepo.SortByTurnIsStableSort | gateway/src/repo.rs:43 | the sort orders by turn number, keeps every row, and keeps the order of rows with equal turn numbers |
| GatewayRepo.KeepPlayerKeepsExactlyThePlayer | gateway/src/repo.rs:38-41 | the filter keeps exactly the rows naming the player |
| GatewayRepo.SortedKeptRowsHaveName | gateway/src/repo.rs:38-43 | after filtering and sorting, every row names the kept player |
| GatewayRepo.KeepPlayerOfOnePlayer | gateway/src/repo.rs:38-41 | rows that all name one player keep every row for that player and none for any other |
| GatewayRepo.ReplayRowFor | gateway/src/repo.rs:49-59 | one pass of the loop adds the row's score through `add_score` exactly when the row names this player |
| GatewayRepo.ReplayRows | gateway/src/repo.rs:49-59 | succeeds exactly when every score fits a `u8`; each player's vector is the replay of that player's rows through `add_score` with limit 301 |
| GatewayRepo.FindGameIntended | gateway/src/repo.rs:31-73 | the corrected load of the third finding: without the "Player1" filter, each vector is the replay of its own player's rows in turn order, and the turn is One's exactly when both have the same length |
| GatewayRepo.FindGameDropsPlayer2Throw | gateway/src/repo.rs:38-57 | one stored Player2 throw of 20: as written, both vectors are empty and the turn is One's; the intended load gives Player2 the 20 and the turn to Two |
| GatewayRepo.FindGame | gateway/src/repo.rs:31-73 | store errors pass on; a missing game is `NotFound("Game not found")`; otherwise Player1's rows are replayed in turn order, Player2's vector is empty, and the turn is One's exactly when both vectors have the same length |
| GamesService.Name | api_mock/src/games_service.rs:35-40 | "Player1" for One and "Player2" for Two |
| GamesService.Next | api_mock/src/games_service.rs:42-47 | the next player is always the other one |
| GamesService.NextTwiceIsIdentity | api_mock/src/games_service.rs:42-47 | passing the turn twice gives it back |
| GamesService.Point.IntoInner | api_mock/src/games_service.rs:62-68 | the points, whichever the kind |
| GamesService.PointOf | api_mock/src/games_service.rs:324-349 | the point keeps its value and is an overthrow exactly above 100 |
| GamesService.UpdateKeepsWellFormed | api_mock/src/games_service.rs:324-349 | adding a point keeps rounds numbered 1, 2, …, each with 1 or 2 points and all but the last full |
| GamesService.RemoveKeepsWellFormed | api_mock/src/games_service.rs:312-322 | removing a point keeps the rounds well formed |
| GamesService.RemoveUndoesUpdate | api_mock/src/games_service.rs:312-349 | `remove_last_round_points` after `update_rounds` gives back the same well-formed rounds |
| GamesService.Game.constructor | api_mock/src/games_service.rs:161-183 | a created game has player One, no rounds, no winner, two empty lists, and 301 points to win for both players |
| GamesService.Game.UpdatePlayerDetails | api_mock/src/games_service.rs:285-310 | each player's points to win is 301 minus the sum of its list, points above 100 (labelled overthrows) included; the current player's value is copied out; nothing else changes |
| GamesService.Game.RemoveLastRoundPoints | api_mock/src/games_service.rs:312-322 | the rounds become `RoundsAfterRemove` of the old rounds; nothing else changes |
| GamesService.Game.UpdateRounds | api_mock/src/games_service.rs:324-349 | the rounds become `RoundsAfterUpdate` of the old rounds; nothing else changes |
| GamesService.Game.CountPoints | api_mock/src/games_service.rs:132-144 | the points join the current player's list; that player wins exactly when the list sums to 301; the turn passes; the details and rounds follow and stay valid |
| GamesService.Game.CancelLastScore | api_mock/src/games_service.rs:95-104 | as written, the list of the player whose turn it is loses its last points; then the turn passes and the last round point is removed |
| GamesService.Game.CancelLastScoreIntended | api_mock/src/games_service.rs:95-104 | the turn goes back first, so the player who threw last loses their last points |
| GamesService.CountThenCancel | api_mock/src/games_service.rs:95-144 | a count then the as-written cancel restores the rounds and the turn, but the thrower keeps the points and the other player loses their last ones |
| GamesService.CountThenCancelIntended | api_mock/src/games_service.rs:95-144 | a count then the intended cancel restores lists, details, turn and rounds |
| ApiGame.Split | api/src/game.rs:288-289 | at least one piece, and no piece contains '+' |
| ApiGame.JoinSplit | api/src/game.rs:288-289 | joining the pieces with '+' gives back the input |
| ApiGame.SplitJoin | api/src/game.rs:288-289 | splitting pieces joined by '+' gives back the pieces when none holds a '+' |
| ApiGame.ParseU8 | api/src/game.rs:290 | a piece parses exactly when it is non-empty, all digits, and at most 255; the result is its value |
| ApiGame.ParseU8OfNatToString | api/src/game.rs:290 | the decimal text of a `u8` parses back to it |
| ApiGame.ParseAll | api/src/game.rs:290-291 | succeeds exactly when every piece parses, giving their values in order |
| ApiGame.ParseInputScore | api/src/game.rs:283-297 | "" is `Ok(0)`; otherwise `Ok` exactly when every '+'-separated piece is a `u8`, holding their sum, and `Err(())` when some piece is not |
| ApiGame.ParseInputScoreOfSum | api/src/game.rs:283-297 | values written in decimal and joined by '+' parse to their sum |
| ApiGame.EmptyPieceRejects | api/src/game.rs:288-295 | any empty piece, such as a leading, trailing or doubled '+' makes, rejects the input |
| ApiGame.Newest | api/src/game.rs:145-156 | a player's points listed newest first |
| ApiGame.Left | api/src/game.rs:140-143 | the points left plus the counted total is 301 |
| ApiGame.ScoreboardOf | api/src/game.rs:136-159 | the turn's player name; for each player, 301 minus the regular total, and the throws in reverse order |
| ApiGame.RoundsHeader | api/src/game.rs:65-70 | the header counts down from Player1's throw count to 1 |
| ApiGame.PaddingCell | api/src/game.rs:72-76 | an empty cell exactly when the two rows differ in length; otherwise nothing |
| ApiConvert.PointOf | api/src/convert.rs:55-68 | a regular score becomes kind `Score` and an overthrow kind `Overthrow`; the value is the score's points |
| ApiConvert.StatusOf | api/src/convert.rs:79-89 | each error kind gets its own status code, store and unexpected errors are internal, and the message is carried over |
| ApiConvert.PlayerName | api/src/convert.rs:49 | "Player" followed by the decimal number |
| ApiConvert.PlayerNameIsInjective | api/src/convert.rs:49 | different numbers give different names |
| ApiConvert.PlayerDetailsOf | api/src/convert.rs:46-53 | the name from the player's number, and points to win that add up with the points to the limit |
| ApiConvert.SortDescending | api/src/convert.rs:122 | the sort keeps exactly the same rounds |
| ApiConvert.SortIsDescending | api/src/convert.rs:122 | rounds with distinct numbers come out in strictly descending order |
| ApiConvert.Group | api/src/convert.rs:105-109 | one group per distinct round number, holding that round's points in input order |
| ApiConvert.GroupedRounds | api/src/convert.rs:111-120 | one display round per group, with that group's number and points |
| ApiConvert.RoundsHoldEveryThrow | api/src/convert.rs:104-123 | rounds that each hold their number's throws and cover every number hold every throw once in total |
| ApiConvert.Rounds | api/src/convert.rs:104-123 | newest round first; each round holds exactly the points of its throws in input order; every round number appears; there are as many points as throws |
| DataspineRepo.TryIntoU16 | dataspine/src/repo.rs:137 | succeeds exactly for 0..=65535, keeping the value |
| DataspineRepo.TryIntoUsize | dataspine/src/repo.rs:124-125 | succeeds exactly for non-negative values, keeping the value |
| DataspineRepo.PlayerScoreOf | dataspine/src/repo.rs:136-148 | points outside `u16` fail first; then "regular" and "overthrow" pick the variant and `Score::new` checks 180; any other kind is "Invalid points kind" |
| DataspineRepo.RoundOf | dataspine/src/repo.rs:113-134 | succeeds exactly when both numbers are at least 1 and the score reads; errors in source order (negative numbers, score, zero numbers) |
| DataspineRepo.ItemOf | dataspine/src/repo.rs:150-163 | the kind string and points from the player score, and both numbers cast to `i32` |
| DataspineRepo.RoundOfItemOf | dataspine/src/repo.rs:113-163 | a round whose numbers fit an `i32` is stored and read back unchanged |
| DataspineRepo.ItemOfRoundOf | dataspine/src/repo.rs:113-163 | a row that reads as a round is stored back unchanged |
| DataspineRepo.RoundsOf | dataspine/src/repo.rs:95-98 | all or nothing: every row converts in order, or the first failing row's error |
| DataspineRepo.RoundsOfItems | dataspine/src/repo.rs:95-163 | rounds stored as a column are read back unchanged |

## Left out

- Async handlers, gRPC and HTTP plumbing, the HTML text, SQL and connection handling, and server start-up. The stores are a call log, and their answers are parameters.
- The `RwLock<HashMap<Uuid, Game>>` of the mock service and its proto conversions. One `Game` is modelled, and its id is a parameter because it is random.
- UUID text, timestamps (`create_time`, `update_time`) and `Number`'s `Display`. `Number::new_unchecked` is left out because it is `unsafe` and unchecked.
- The `ScoreTracker` struct and the `Game` aggregate, whose source is not part of this model. `GameState` keeps the parameters it would load the tracker from. `new_turn`, `player`, `players` and `winner` only forward to it, so they are left out, and the playground referee takes the player `new_turn` returns as a parameter.
- `Points::new`, `Points::zero`, `+` on `Points` and `PlayerScore::game_points` are used by playground/src/player.rs but defined in no modelled file. They get plain `u16` meaning.
- playground/src/game_state.rs passes a `usize` where playground/src/player.rs expects a `Number`. The model converts it, and `Loadable` requires every player number to be nonzero.
- GameState.GameState.Load: `Loadable` requires the counted points of the whole history to stay below 65536. Rust would panic only when one player's `u16` total overflows, if `add_player_score` adds with plain `u16` `+`, as assumed below. `Reload`, `PushScoreDetails`, `PopScoreDetail` and `LoadByNumber` inherit this bound.
- dataspine/src/repo.rs and api/src/convert.rs use a `Round` with `Number` round and player numbers, which playground/src/round.rs lacks. That shape is `NumberedRound`.
- `Vec` pushes, pops, filters and in-place sorts are modelled as methods and functions that return the new sequence. Both sorts are insertion sorts over sequences, with a stable-order or strict-order lemma, and are not the standard library's algorithms.
- Player.Player.AddScore: requires the `u16` total plus the score not to overflow, where Rust would panic.
- Player.Player.AddPlayerScore: `Player::add_player_score`, called at playground/src/game_state.rs:45 and :51, is defined in no source file; playground/src/player.rs defines only `add_score`. It is given the meaning the replay needs: the already classified entry is appended and its game points are added with plain `u16` `+`, with no limit check. The `u16` overflow of that sum is a precondition.
- `PlayerScore::into_inner` and `GameScore::value`, called at api/src/game.rs:140-155, are defined in no source file; score_tracker/src/lib.rs declares neither. ApiGame.Newest gives `into_inner` the meaning "the throw's points, whichever the variant", and ApiGame.Left gives `value` the meaning "the inner `u16`".
- ScoreTracker.AddScore: the `u16` fold overflow (a panic in Rust) is excluded by a precondition.
- ScoreTrackerLib.AddScore: the same `u16` fold overflow is excluded by a precondition.
- GatewayReferee.CountScore: inherits the `u16` fold-overflow precondition of ScoreTrackerLib.AddScore for the current player's vector.
- ScoreTrackerLib.Sub: requires `b <= a` instead of modelling the `u16` underflow panic.
- ApiGame.ParseInputScore: requires the parsed pieces to sum below 256 instead of modelling the `u8` overflow panic. Rust's `parse::<u8>` also accepts a leading '+', which cannot occur in a piece after splitting on '+'.
- ApiGame.Left: requires the counted total to be at most 301, where the `u16` subtraction would panic.
- GamesService.Game.CountPoints: requires the list to stay at most 301 (the `u16` subtraction in `update_player_details`) and the round number not to overflow `u16`.
- GamesService.Game.UpdatePlayerDetails: requires both lists to sum to at most 301, the `u16` underflow being a panic.
- GamesService.Game.CancelLastScore: the winner is not reset, as in the source.
- ApiConvert.Rounds: requires every round number to fit an `i32`, where `try_into().unwrap()` would panic.
- ApiConvert.StatusOf: the source's `match` has no arm for `Error::AlreadyExists`, so that variant is excluded by a precondition.
- DataspineRepo.RoundOfItemOf: also requires the score to be at most 180, which every `Score::new` guarantees but the datatype alone does not.
- The rest of `TryFrom<GameRow> for Game`: the player count, the points limit and the aggregate the rounds are loaded into.
- GatewayReferee.CountScore: `next` is used as written, so the turn never passes. GatewayReferee.CancelScore uses `previous` the same way. `NextIntended` states the evident intent, and `NextAsWrittenKeepsTurn` shows the difference.
- `GameState::load` is kept as written: it replays the history by index, so a player can hold another player's throws (the first finding). `LoadByNumber` is the corrected load beside it, and `reload`, `push_score_details` and `pop_score_detail` keep the source's behaviour.
- `GatewayRepo.FindGame` keeps only "Player1" rows, exactly as written, so the loop's Player2 branch never runs (the third finding). `GatewayRepo.FindGameIntended` is the corrected load beside it.

## Findings

| source | as written | input that shows it | evidently intended | confidence | as-written member | corrected member |
|---|---|---|---|---|---|---|
| playground/src/game_state.rs:43-54 | the loop finds the thrower's player at index `player_number` of the players vector, but player numbers start at 1 | throws by players 1, 2, 1: the third throw goes to the player at index 1, which is player 2 | each throw goes to the player with that number | not executed | GameState.AsWrittenMisroutesThirdThrow | GameState.ByNumberGroupsThrows |
| api_mock/src/games_service.rs:95-101 | `cancel_last_score` pops the list of the player whose turn it is now, then passes the turn | a new game, count 20, then cancel: Player1 keeps `[20]` while the rounds are empty again | the last thrower loses their last points | not executed | GamesService.CountThenCancel | GamesService.CountThenCancelIntended |
| gateway/src/repo.rs:38-57 | the stored rows are filtered to "Player1" before the loop that fills both players' vectors, so its `PlayerNumber::Two` branch never runs | one stored row by "Player2" of 20 points at turn 1: both vectors come back empty and the turn is One's | both players' rows are replayed, as the loop, the vector capacities and the turn rule assume | not executed | GatewayRepo.FindGameDropsPlayer2Throw | GatewayRepo.FindGameIntended |
