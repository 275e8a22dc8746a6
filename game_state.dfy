/**
 * `GameState` (playground/src/game_state.rs): a game's stored throws and the
 * players rebuilt from them by replaying the whole list on every load.
 *
 * `ScoreTracker` is not part of this model: the state keeps the parameters it
 * would be loaded from (the player count, the points limit and the replayed
 * players), and the operations that only forward to it (`new_turn`, `player`,
 * `players`, `winner`) are left out.
 */
module GameState {
  import opened Ints
  import opened Outcomes
  import opened Errors
  import N = Number
  import opened PlayerScore
  import opened ScoreDetails
  import P = Player
  import S = Score
  import Pt = Points

  const PLAYERS_NUMBER: usize := 2
  const POINTS_LIMIT: u16 := 301

  /** What one replayed player holds: its number and its scores, oldest first. */
  datatype PlayerView = PlayerView(number: nat, scores: seq<PlayerScore>)

  ghost function View(p: P.Player): PlayerView
    reads p
  {
    PlayerView(p.number.Value(), p.scores)
  }

  ghost function Views(ps: seq<P.Player>): (vs: seq<PlayerView>)
    reads ps
    ensures |vs| == |ps|
    ensures forall i :: 0 <= i < |ps| ==> vs[i] == View(ps[i])
  {
    seq(|ps|, i requires 0 <= i < |ps| reads ps => View(ps[i]))
  }

  ghost predicate Distinct(ps: seq<P.Player>) {
    forall j, k :: 0 <= j < k < |ps| ==> ps[j] != ps[k]
  }

  /** The counted points of all the throws in `details`, whoever threw them. */
  function DetailsTotal(details: seq<ScoreDetails>): nat {
    if details == [] then 0
    else DetailsTotal(details[..|details| - 1]) + P.GamePoints(details[|details| - 1].playerScore)
  }

  /**
   * A history `load` can replay: every player number can become a `Number`,
   * and the counted points of the whole history stay below 65536, so no
   * player's `u16` total can overflow whichever player the throws go to.
   */
  predicate Loadable(details: seq<ScoreDetails>) {
    (forall i :: 0 <= i < |details| ==> details[i].playerNumber != 0)
    && DetailsTotal(details) < U16_LIMIT
  }

  /**
   * One pass of `load`'s loop as written: the throw goes to the player at
   * index `player_number` if there is one, otherwise to a new player with
   * that number pushed at the end.
   */
  function Step(views: seq<PlayerView>, d: ScoreDetails): seq<PlayerView> {
    if d.playerNumber < |views| then
      views[d.playerNumber := PlayerView(views[d.playerNumber].number,
                                         views[d.playerNumber].scores + [d.playerScore])]
    else
      views + [PlayerView(d.playerNumber, [d.playerScore])]
  }

  /** The players `load` builds from `details`, as written. */
  function AsWritten(details: seq<ScoreDetails>): seq<PlayerView> {
    if details == [] then [] else Step(AsWritten(details[..|details| - 1]), details[|details| - 1])
  }

  /** The number of scores held by all the players together. */
  function ScoreCount(views: seq<PlayerView>): nat {
    if views == [] then 0 else ScoreCount(views[..|views| - 1]) + |views[|views| - 1].scores|
  }

  lemma {:induction false} ScoreCountAppend(views: seq<PlayerView>, v: PlayerView)
    ensures ScoreCount(views + [v]) == ScoreCount(views) + |v.scores|
  {
    assert (views + [v])[..|views|] == views;
  }

  lemma {:induction false} ScoreCountUpdate(views: seq<PlayerView>, k: nat, v: PlayerView)
    requires k < |views|
    ensures ScoreCount(views[k := v]) + |views[k].scores| == ScoreCount(views) + |v.scores|
    decreases |views|
  {
    var last := |views| - 1;
    if k == last {
      assert views[k := v][..last] == views[..last];
    } else {
      assert views[k := v][..last] == views[..last][k := v];
      ScoreCountUpdate(views[..last], k, v);
    }
  }

  /** Each replayed throw adds exactly one score to exactly one player. */
  lemma {:induction false} EachDetailAddsOneScore(details: seq<ScoreDetails>)
    ensures ScoreCount(AsWritten(details)) == |details|
  {
    if details != [] {
      var prefix := details[..|details| - 1];
      var d := details[|details| - 1];
      var views := AsWritten(prefix);
      EachDetailAddsOneScore(prefix);
      if d.playerNumber < |views| {
        ScoreCountUpdate(views, d.playerNumber,
                         PlayerView(views[d.playerNumber].number, views[d.playerNumber].scores + [d.playerScore]));
      } else {
        ScoreCountAppend(views, PlayerView(d.playerNumber, [d.playerScore]));
      }
    }
  }

  /** No replayed player counts more points than the whole history holds. */
  lemma {:induction false} ViewsBounded(details: seq<ScoreDetails>)
    ensures forall j :: 0 <= j < |AsWritten(details)| ==>
              P.RegularTotal(AsWritten(details)[j].scores) <= DetailsTotal(details)
  {
    if details != [] {
      var prefix := details[..|details| - 1];
      var d := details[|details| - 1];
      ViewsBounded(prefix);
      var views := AsWritten(prefix);
      forall j | 0 <= j < |AsWritten(details)|
        ensures P.RegularTotal(AsWritten(details)[j].scores) <= DetailsTotal(details)
      {
        var s := AsWritten(details)[j].scores;
        if j < |views| && (j != d.playerNumber || d.playerNumber >= |views|) {
          assert s == views[j].scores;
        } else {
          var before := if j < |views| then views[j].scores else [];
          assert s == before + [d.playerScore];
          assert s[..|s| - 1] == before;
        }
      }
    }
  }

  /** A prefix of a history counts no more points than the history. */
  lemma {:induction false} DetailsTotalPrefix(details: seq<ScoreDetails>, i: nat)
    requires i <= |details|
    ensures DetailsTotal(details[..i]) <= DetailsTotal(details)
    decreases |details|
  {
    if i < |details| {
      var prefix := details[..|details| - 1];
      assert details[..i] == prefix[..i];
      DetailsTotalPrefix(prefix, i);
    } else {
      assert details[..i] == details;
    }
  }

  /** A prefix of a replayable history is replayable. */
  lemma LoadablePrefix(details: seq<ScoreDetails>, i: nat)
    requires Loadable(details) && i <= |details|
    ensures Loadable(details[..i])
  {
    DetailsTotalPrefix(details, i);
  }

  /** `load`'s loop body: one throw replayed onto the players built so far. */
  method ReplayThrow(players: seq<P.Player>, d: ScoreDetails) returns (next: seq<P.Player>)
    requires Distinct(players)
    requires forall p | p in players :: p.Valid() && p.pointsLimit.Value() == POINTS_LIMIT
    requires d.playerNumber != 0
    requires forall j :: 0 <= j < |players| ==>
               P.RegularTotal(players[j].scores) + P.GamePoints(d.playerScore) < U16_LIMIT
    modifies players
    ensures Distinct(next)
    ensures forall p | p in next :: (p in players || fresh(p))
              && p.Valid() && p.pointsLimit.Value() == POINTS_LIMIT
    ensures Views(next) == Step(old(Views(players)), d)
  {
    if d.playerNumber < |players| {
      var player := players[d.playerNumber];
      player.AddPlayerScore(d.playerScore);
      next := players;
    } else {
      var player := new P.Player(N.Number(d.playerNumber), N.Number(POINTS_LIMIT));
      player.AddPlayerScore(d.playerScore);
      next := players + [player];
    }
  }

  /** `load`'s loop: the players rebuilt from the whole history, as written. */
  method Replay(details: seq<ScoreDetails>) returns (players: seq<P.Player>)
    requires Loadable(details)
    ensures Distinct(players)
    ensures forall p | p in players :: fresh(p) && p.Valid() && p.pointsLimit.Value() == POINTS_LIMIT
    ensures Views(players) == AsWritten(details)
  {
    players := [];
    for i := 0 to |details|
      invariant Distinct(players)
      invariant forall p | p in players :: fresh(p) && p.Valid() && p.pointsLimit.Value() == POINTS_LIMIT
      invariant Views(players) == AsWritten(details[..i])
    {
      assert details[..i + 1][..i] == details[..i];
      ViewsBounded(details[..i]);
      DetailsTotalPrefix(details, i + 1);
      assert forall j :: 0 <= j < |players| ==> fresh(players[j]) by {
        forall j | 0 <= j < |players| ensures fresh(players[j]) {
          assert players[j] in players;
        }
      }
      players := ReplayThrow(players, details[i]);
    }
    assert details[..|details|] == details;
  }

  /** The scores in `details` thrown by player `n`, oldest first. */
  function ScoresOf(details: seq<ScoreDetails>, n: nat): seq<PlayerScore> {
    if details == [] then []
    else
      var d := details[|details| - 1];
      ScoresOf(details[..|details| - 1], n) + if d.playerNumber == n then [d.playerScore] else []
  }

  /**
   * Counterexample to the as-written replay: after throws by players 1, 2 and
   * 1, player 1's second throw is credited to the player at index 1, which is
   * player 2, and player 1 keeps only its first throw.
   */
  lemma AsWrittenMisroutesThirdThrow()
    ensures var first := Regular(S.Score(Pt.Points(20)));
            var second := Regular(S.Score(Pt.Points(5)));
            var third := Regular(S.Score(Pt.Points(60)));
            var details := [ScoreDetails(1, 1, first), ScoreDetails(2, 2, second), ScoreDetails(3, 1, third)];
            AsWritten(details) == [PlayerView(1, [first]), PlayerView(2, [second, third])]
            && ScoresOf(details, 1) == [first, third] && ScoresOf(details, 2) == [second]
  {
    var first := Regular(S.Score(Pt.Points(20)));
    var second := Regular(S.Score(Pt.Points(5)));
    var third := Regular(S.Score(Pt.Points(60)));
    var details := [ScoreDetails(1, 1, first), ScoreDetails(2, 2, second), ScoreDetails(3, 1, third)];
    var one := [ScoreDetails(1, 1, first)];
    var two := one + [ScoreDetails(2, 2, second)];
    assert details[..2] == two && two[..1] == one && one[..0] == [];
    assert AsWritten(one) == [PlayerView(1, [first])];
    assert AsWritten(two) == [PlayerView(1, [first]), PlayerView(2, [second])];
    assert ScoresOf(one, 1) == [first] && ScoresOf(one, 2) == [];
    assert AsWritten(details) == Step(AsWritten(two), ScoreDetails(3, 1, third));
    assert [second] + [third] == [second, third];
    assert ScoresOf(two, 1) == [first] && ScoresOf(two, 2) == [second];
  }

  /** The first player in `views` with number `n`, if any. */
  function IndexOf(views: seq<PlayerView>, n: nat): (r: Option<nat>)
    ensures r.Some? ==> r.value < |views| && views[r.value].number == n
    ensures r.Some? ==> forall j :: 0 <= j < r.value ==> views[j].number != n
    ensures r.None? ==> forall j :: 0 <= j < |views| ==> views[j].number != n
  {
    if views == [] then None
    else if views[0].number == n then Some(0)
    else match IndexOf(views[1..], n)
      case None => None
      case Some(k) => Some(k + 1)
  }

  /** One pass of the intended loop: the throw goes to the player with its number. */
  function StepByNumber(views: seq<PlayerView>, d: ScoreDetails): seq<PlayerView> {
    match IndexOf(views, d.playerNumber)
    case Some(k) => views[k := PlayerView(d.playerNumber, views[k].scores + [d.playerScore])]
    case None => views + [PlayerView(d.playerNumber, [d.playerScore])]
  }

  /** The intended replay: players looked up by number, not by index. */
  function ByNumber(details: seq<ScoreDetails>): seq<PlayerView> {
    if details == [] then [] else StepByNumber(ByNumber(details[..|details| - 1]), details[|details| - 1])
  }

  /** No two players share a number. */
  ghost predicate DistinctNumbers(views: seq<PlayerView>) {
    forall j, k :: 0 <= j < k < |views| ==> views[j].number != views[k].number
  }

  /** Every player holds exactly the throws of its number, in order. */
  ghost predicate OwnThrows(views: seq<PlayerView>, details: seq<ScoreDetails>) {
    forall j :: 0 <= j < |views| ==> views[j].scores == ScoresOf(details, views[j].number)
  }

  /** Every number that threw has a player. */
  ghost predicate CoversThrowers(views: seq<PlayerView>, details: seq<ScoreDetails>) {
    forall n: nat :: ScoresOf(details, n) != [] ==> IndexOf(views, n).Some?
  }

  /** Every player has thrown. */
  ghost predicate NoIdlePlayer(views: seq<PlayerView>) {
    forall j :: 0 <= j < |views| ==> views[j].scores != []
  }

  /**
   * `views` is the history grouped by player: one player per number that
   * threw, each holding exactly its own throws in order.
   */
  ghost predicate GroupedBy(views: seq<PlayerView>, details: seq<ScoreDetails>) {
    DistinctNumbers(views) && OwnThrows(views, details)
    && CoversThrowers(views, details) && NoIdlePlayer(views)
  }

  lemma ScoresOfAppend(prefix: seq<ScoreDetails>, d: ScoreDetails, n: nat)
    ensures ScoresOf(prefix + [d], n) == ScoresOf(prefix, n) + if d.playerNumber == n then [d.playerScore] else []
  {
    assert (prefix + [d])[..|prefix|] == prefix;
  }

  /** A throw by player `m` adds to `m`'s throws and to no one else's. */
  lemma ScoresOfStep(prefix: seq<ScoreDetails>, d: ScoreDetails)
    ensures forall n: nat :: ScoresOf(prefix + [d], n)
              == ScoresOf(prefix, n) + if d.playerNumber == n then [d.playerScore] else []
  {
    forall n: nat
      ensures ScoresOf(prefix + [d], n) == ScoresOf(prefix, n) + if d.playerNumber == n then [d.playerScore] else []
    {
      ScoresOfAppend(prefix, d, n);
    }
  }

  /** Updating the found player keeps the numbers and so their lookups. */
  lemma SameNumbersSameLookups(views: seq<PlayerView>, next: seq<PlayerView>, n: nat)
    requires |next| == |views|
    requires forall j :: 0 <= j < |views| ==> next[j].number == views[j].number
    ensures IndexOf(next, n) == IndexOf(views, n)
  {
    if views != [] {
      SameNumbersSameLookups(views[1..], next[1..], n);
    }
  }

  /** The step that finds the thrower keeps the views grouped by player. */
  lemma StepToKnownPlayerKeepsGrouping(views: seq<PlayerView>, prefix: seq<ScoreDetails>, d: ScoreDetails, k: nat)
    requires GroupedBy(views, prefix)
    requires IndexOf(views, d.playerNumber) == Some(k)
    ensures GroupedBy(StepByNumber(views, d), prefix + [d])
  {
    var m := d.playerNumber;
    var details := prefix + [d];
    var next := views[k := PlayerView(m, views[k].scores + [d.playerScore])];
    assert StepByNumber(views, d) == next;
    ScoresOfStep(prefix, d);
    assert forall j :: 0 <= j < |views| ==> next[j].number == views[j].number;
    assert DistinctNumbers(next);
    assert OwnThrows(next, details);
    assert NoIdlePlayer(next);
    forall n: nat | ScoresOf(details, n) != []
      ensures IndexOf(next, n).Some?
    {
      SameNumbersSameLookups(views, next, n);
    }
  }

  /** A player appended with a new number keeps the numbers distinct. */
  lemma AppendNewNumberKeepsDistinct(views: seq<PlayerView>, v: PlayerView)
    requires DistinctNumbers(views)
    requires IndexOf(views, v.number) == None
    ensures DistinctNumbers(views + [v])
  {
  }

  /** An appended player keeps every earlier lookup and can be looked up itself. */
  lemma AppendKeepsLookups(views: seq<PlayerView>, v: PlayerView, n: nat)
    requires IndexOf(views, n).Some? || n == v.number
    ensures IndexOf(views + [v], n).Some?
  {
    var next := views + [v];
    if IndexOf(views, n).Some? {
      assert next[IndexOf(views, n).value].number == n;
    } else {
      assert next[|views|].number == n;
    }
  }

  /** A new player holding just the throw has exactly its own throws, and the others keep theirs. */
  lemma NewPlayerOwnThrows(views: seq<PlayerView>, prefix: seq<ScoreDetails>, d: ScoreDetails)
    requires OwnThrows(views, prefix) && CoversThrowers(views, prefix)
    requires IndexOf(views, d.playerNumber) == None
    ensures OwnThrows(views + [PlayerView(d.playerNumber, [d.playerScore])], prefix + [d])
  {
    var next := views + [PlayerView(d.playerNumber, [d.playerScore])];
    assert ScoresOf(prefix, d.playerNumber) == [];
    forall j | 0 <= j < |next|
      ensures next[j].scores == ScoresOf(prefix + [d], next[j].number)
    {
      ScoresOfAppend(prefix, d, next[j].number);
      if j < |views| {
        assert views[j].number != d.playerNumber;
      }
    }
  }

  /** The step that adds a new player keeps the views grouped by player. */
  lemma StepToNewPlayerKeepsGrouping(views: seq<PlayerView>, prefix: seq<ScoreDetails>, d: ScoreDetails)
    requires GroupedBy(views, prefix)
    requires IndexOf(views, d.playerNumber) == None
    ensures GroupedBy(StepByNumber(views, d), prefix + [d])
  {
    var m := d.playerNumber;
    var details := prefix + [d];
    var v := PlayerView(m, [d.playerScore]);
    var next := views + [v];
    assert StepByNumber(views, d) == next;
    AppendNewNumberKeepsDistinct(views, v);
    NewPlayerOwnThrows(views, prefix, d);
    ScoresOfStep(prefix, d);
    forall n: nat | ScoresOf(details, n) != []
      ensures IndexOf(next, n).Some?
    {
      AppendKeepsLookups(views, v, n);
    }
  }

  /** The intended replay gives every player exactly its own throws. */
  lemma {:induction false} ByNumberGroupsThrows(details: seq<ScoreDetails>)
    ensures GroupedBy(ByNumber(details), details)
  {
    if details != [] {
      var prefix := details[..|details| - 1];
      ByNumberGroupsThrows(prefix);
      var views := ByNumber(prefix);
      var d := details[|details| - 1];
      match IndexOf(views, d.playerNumber)
      case Some(k) => StepToKnownPlayerKeepsGrouping(views, prefix, d, k);
      case None => StepToNewPlayerKeepsGrouping(views, prefix, d);
      assert prefix + [details[|details| - 1]] == details;
    }
  }

  /** One player's counted points never exceed those of the whole history. */
  lemma {:induction false} ScoresOfBounded(details: seq<ScoreDetails>, n: nat)
    ensures P.RegularTotal(ScoresOf(details, n)) <= DetailsTotal(details)
  {
    if details != [] {
      var prefix := details[..|details| - 1];
      var d := details[|details| - 1];
      ScoresOfBounded(prefix, n);
      var s := ScoresOf(details, n);
      if d.playerNumber == n {
        assert s[..|s| - 1] == ScoresOf(prefix, n);
      } else {
        assert s == ScoresOf(prefix, n);
      }
    }
  }

  /** The first player with number `n`, or `|players|` when there is none. */
  method FindByNumber(players: seq<P.Player>, n: nat) returns (k: nat)
    ensures k <= |players|
    ensures k < |players| <==> IndexOf(Views(players), n).Some?
    ensures k < |players| ==> IndexOf(Views(players), n) == Some(k)
  {
    k := 0;
    while k < |players| && players[k].number.Value() != n
      invariant k <= |players|
      invariant forall j :: 0 <= j < k ==> players[j].number.Value() != n
    {
      k := k + 1;
    }
    if k < |players| {
      assert IndexOf(Views(players), n) == Some(k);
    } else {
      assert IndexOf(Views(players), n) == None;
    }
  }

  /** The intended loop body: the thrower is looked up by number. */
  method ReplayThrowByNumber(players: seq<P.Player>, d: ScoreDetails) returns (next: seq<P.Player>)
    requires Distinct(players)
    requires forall p | p in players :: p.Valid() && p.pointsLimit.Value() == POINTS_LIMIT
    requires d.playerNumber != 0
    requires forall j :: 0 <= j < |players| ==>
               P.RegularTotal(players[j].scores) + P.GamePoints(d.playerScore) < U16_LIMIT
    modifies players
    ensures Distinct(next)
    ensures forall p | p in next :: (p in players || fresh(p))
              && p.Valid() && p.pointsLimit.Value() == POINTS_LIMIT
    ensures Views(next) == StepByNumber(old(Views(players)), d)
  {
    var k := FindByNumber(players, d.playerNumber);
    if k < |players| {
      var player := players[k];
      player.AddPlayerScore(d.playerScore);
      next := players;
    } else {
      var player := new P.Player(N.Number(d.playerNumber), N.Number(POINTS_LIMIT));
      player.AddPlayerScore(d.playerScore);
      next := players + [player];
    }
  }

  lemma ByNumberStep(details: seq<ScoreDetails>, i: nat)
    requires i < |details|
    ensures ByNumber(details[..i + 1]) == StepByNumber(ByNumber(details[..i]), details[i])
  {
    assert details[..i + 1][..i] == details[..i];
  }

  /** Before throw `i`, no player's regular total leaves too little room for it in a `u16`. */
  lemma NextThrowFits(details: seq<ScoreDetails>, i: nat)
    requires Loadable(details) && i < |details|
    ensures forall j :: 0 <= j < |ByNumber(details[..i])| ==>
              P.RegularTotal(ByNumber(details[..i])[j].scores) + P.GamePoints(details[i].playerScore) < U16_LIMIT
  {
    var views := ByNumber(details[..i]);
    assert details[..i + 1][..i] == details[..i];
    ByNumberGroupsThrows(details[..i]);
    DetailsTotalPrefix(details, i + 1);
    forall j | 0 <= j < |views|
      ensures P.RegularTotal(views[j].scores) <= DetailsTotal(details[..i])
    {
      assert OwnThrows(views, details[..i]);
      ScoresOfBounded(details[..i], views[j].number);
    }
  }

  /** The intended loop: each player rebuilt from exactly its own throws. */
  method ReplayByNumber(details: seq<ScoreDetails>) returns (players: seq<P.Player>)
    requires Loadable(details)
    ensures Distinct(players)
    ensures forall p | p in players :: fresh(p) && p.Valid() && p.pointsLimit.Value() == POINTS_LIMIT
    ensures Views(players) == ByNumber(details)
    ensures GroupedBy(Views(players), details)
  {
    players := [];
    for i := 0 to |details|
      invariant Distinct(players)
      invariant forall p | p in players :: fresh(p) && p.Valid() && p.pointsLimit.Value() == POINTS_LIMIT
      invariant Views(players) == ByNumber(details[..i])
    {
      NextThrowFits(details, i);
      ByNumberStep(details, i);
      assert forall j :: 0 <= j < |players| ==> fresh(players[j]) by {
        forall j | 0 <= j < |players| ensures fresh(players[j]) {
          assert players[j] in players;
        }
      }
      players := ReplayThrowByNumber(players, details[i]);
    }
    assert details[..|details|] == details;
    ByNumberGroupsThrows(details);
  }

  /** `LoadScoreTrackerParameters`: what `load` hands to the score tracker. */
  datatype LoadScoreTrackerParameters =
    LoadScoreTrackerParameters(playersNumber: usize, pointsLimit: u16, players: seq<P.Player>)

  class GameState {
    var gameId: Uuid
    var scoreDetails: seq<ScoreDetails>
    var scoreTracker: LoadScoreTrackerParameters

    /**
     * The tracker was loaded from this very history, with the fixed game
     * settings and the players that `load`'s loop builds from it as written.
     */
    ghost predicate Valid()
      reads this, scoreTracker.players
    {
      Loadable(scoreDetails)
      && scoreTracker.playersNumber == PLAYERS_NUMBER
      && scoreTracker.pointsLimit == POINTS_LIMIT
      && Views(scoreTracker.players) == AsWritten(scoreDetails)
    }

    constructor Loaded(gameId: Uuid, scoreDetails: seq<ScoreDetails>, scoreTracker: LoadScoreTrackerParameters)
      ensures this.gameId == gameId && this.scoreDetails == scoreDetails && this.scoreTracker == scoreTracker
    {
      this.gameId := gameId;
      this.scoreDetails := scoreDetails;
      this.scoreTracker := scoreTracker;
    }

    /**
     * `GameState::load`: keeps the game id and the history verbatim and
     * replays the history, as written, into fresh players with a limit of 301.
     */
    static method Load(gameId: Uuid, details: seq<ScoreDetails>) returns (r: Result<GameState, Error>)
      requires Loadable(details)
      ensures r.Ok? && fresh(r.value) && r.value.Valid()
      ensures r.value.gameId == gameId && r.value.scoreDetails == details
      ensures Views(r.value.scoreTracker.players) == AsWritten(details)
      ensures forall p | p in r.value.scoreTracker.players :: fresh(p) && p.Valid()
                && p.pointsLimit.Value() == POINTS_LIMIT
    {
      var players := Replay(details);
      var state := new GameState.Loaded(gameId, details,
                                        LoadScoreTrackerParameters(PLAYERS_NUMBER, POINTS_LIMIT, players));
      r := Ok(state);
    }

    /**
     * `load` with the corrected replay: the same id, history and settings,
     * but each throw goes to the player with its number, so every player
     * holds exactly its own throws.
     */
    static method LoadByNumber(gameId: Uuid, details: seq<ScoreDetails>) returns (r: Result<GameState, Error>)
      requires Loadable(details)
      ensures r.Ok? && fresh(r.value)
      ensures r.value.gameId == gameId && r.value.scoreDetails == details
      ensures r.value.scoreTracker.playersNumber == PLAYERS_NUMBER
              && r.value.scoreTracker.pointsLimit == POINTS_LIMIT
      ensures forall p | p in r.value.scoreTracker.players :: fresh(p) && p.Valid()
                && p.pointsLimit.Value() == POINTS_LIMIT
      ensures Views(r.value.scoreTracker.players) == ByNumber(details)
      ensures GroupedBy(Views(r.value.scoreTracker.players), details)
    {
      var players := ReplayByNumber(details);
      var state := new GameState.Loaded(gameId, details,
                                        LoadScoreTrackerParameters(PLAYERS_NUMBER, POINTS_LIMIT, players));
      r := Ok(state);
    }

    /** `GameState::game_id`. */
    function GameId(): Uuid
      reads this
    {
      gameId
    }

    /** `GameState::last_score_detail`: the most recent throw, if any. */
    function LastScoreDetail(): (r: Option<ScoreDetails>)
      reads this
      ensures r.None? <==> scoreDetails == []
      ensures r.Some? ==> r.value == scoreDetails[|scoreDetails| - 1]
    {
      if scoreDetails == [] then None else Some(scoreDetails[|scoreDetails| - 1])
    }

    /** `GameState::reload`: `load` again from this state's id and history. */
    method Reload() returns (r: Result<GameState, Error>)
      requires Loadable(scoreDetails)
      ensures r.Ok? && fresh(r.value) && r.value.Valid()
      ensures r.value.gameId == gameId && r.value.scoreDetails == scoreDetails
    {
      r := Load(gameId, scoreDetails);
    }

    /** `GameState::push_score_details`: one more throw at the end, then a reload. */
    method PushScoreDetails(d: ScoreDetails) returns (r: Result<GameState, Error>)
      requires Loadable(scoreDetails + [d])
      modifies this
      ensures gameId == old(gameId) && scoreDetails == old(scoreDetails) + [d]
      ensures r.Ok? && fresh(r.value) && r.value.Valid()
      ensures r.value.gameId == old(gameId) && r.value.scoreDetails == old(scoreDetails) + [d]
    {
      scoreDetails := scoreDetails + [d];
      r := Reload();
    }

    /** `GameState::pop_score_detail`: the last throw dropped (none if empty), then a reload. */
    method PopScoreDetail() returns (r: Result<GameState, Error>)
      requires Loadable(scoreDetails)
      modifies this
      ensures gameId == old(gameId)
      ensures old(scoreDetails) == [] ==> scoreDetails == []
      ensures old(scoreDetails) != [] ==> scoreDetails == old(scoreDetails)[..|old(scoreDetails)| - 1]
      ensures r.Ok? && fresh(r.value) && r.value.Valid()
      ensures r.value.gameId == old(gameId) && r.value.scoreDetails == scoreDetails
    {
      if scoreDetails != [] {
        LoadablePrefix(scoreDetails, |scoreDetails| - 1);
        scoreDetails := scoreDetails[..|scoreDetails| - 1];
      }
      r := Reload();
    }
  }

  /**
   * Pushing a throw and then popping it from the pushed state gives a state
   * with the same id and history as before, and the players loaded from it.
   */
  method PopUndoesPush(state: GameState, d: ScoreDetails) returns (r: Result<GameState, Error>)
    requires Loadable(state.scoreDetails + [d])
    modifies state
    ensures r.Ok? && r.value.Valid()
    ensures r.value.gameId == old(state.gameId) && r.value.scoreDetails == old(state.scoreDetails)
    ensures Views(r.value.scoreTracker.players) == AsWritten(old(state.scoreDetails))
  {
    var pushed := state.PushScoreDetails(d);
    assert (old(state.scoreDetails) + [d])[..|old(state.scoreDetails)|] == old(state.scoreDetails);
    r := pushed.value.PopScoreDetail();
  }
}
