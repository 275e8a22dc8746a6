/**
 * The gRPC front end's conversions (api/src/convert.rs): a game's stored
 * throws grouped into numbered rounds for display, newest round first; a
 * player score as a display point; a player's details; and the error kinds
 * as gRPC status codes.
 *
 * Timestamps, UUID text and the `Game` aggregate itself are not part of this
 * model; `rounds` takes the aggregate's list of numbered throws.
 */
module ApiConvert {
  import opened Ints
  import opened Text
  import E = Errors
  import PS = PlayerScore
  import NR = NumberedRound
  import P = Player

  /** `rpc::PointKind`. */
  datatype PointKind = Score | Overthrow

  /** `rpc::Point`. */
  datatype Point = Point(kind: PointKind, value: nat)

  /** `rpc::Round`. */
  datatype RpcRound = RpcRound(number: i32, points: seq<Point>)

  /** `rpc::PlayerDetails`. */
  datatype PlayerDetails = PlayerDetails(name: string, pointsToWin: nat)

  /** The gRPC status codes the errors map to. */
  datatype Code = FailedPrecondition | InvalidArgument | NotFound | Internal

  datatype Status = Status(code: Code, message: string)

  /** `PlayerScore::to_rpc`: the kind follows the variant, the value is the score's points. */
  function PointOf(ps: PS.PlayerScore): (p: Point)
    ensures p.kind == Score <==> ps.IsRegular()
    ensures p.kind == Overthrow <==> ps.IsOverthrow()
    ensures p.value == ps.ScoreOf().points.value
  {
    match ps
    case Regular(score) => Point(Score, score.points.value)
    case Overthrow(score) => Point(Overthrow, score.points.value)
  }

  /**
   * `Error::to_rpc`: client mistakes keep their own code, store and unexpected
   * failures are internal, and the message is carried over. The source has no
   * arm for `AlreadyExists`.
   */
  function StatusOf(e: E.Error): (s: Status)
    requires !e.AlreadyExists?
    ensures s.message == e.message
    ensures s.code == Internal <==> e.Repo? || e.Unexpected?
    ensures s.code == FailedPrecondition <==> e.FailedPrecondition?
    ensures s.code == InvalidArgument <==> e.InvalidArgument?
    ensures s.code == NotFound <==> e.NotFound?
  {
    match e
    case FailedPrecondition(description) => Status(FailedPrecondition, description)
    case InvalidArgument(description) => Status(InvalidArgument, description)
    case NotFound(description) => Status(NotFound, description)
    case Repo(report) => Status(Internal, report)
    case Unexpected(report) => Status(Internal, report)
  }

  /** `format!("Player{}", number)`. */
  function PlayerName(number: nat): (name: string)
    ensures |name| > 6 && name[..6] == "Player"
    ensures AllDigits(name[6..]) && DigitsValue(name[6..]) == number
  {
    DigitsValueOfNatToString(number);
    assert ("Player" + NatToString(number))[6..] == NatToString(number);
    "Player" + NatToString(number)
  }

  /** Different players get different names. */
  lemma PlayerNameIsInjective(a: nat, b: nat)
    ensures PlayerName(a) == PlayerName(b) <==> a == b
  {
    if PlayerName(a) == PlayerName(b) {
      assert PlayerName(a)[6..] == PlayerName(b)[6..];
    }
  }

  /** `&Player::to_rpc`: the name from the player's number, and its points to win. */
  function PlayerDetailsOf(player: P.Player): (d: PlayerDetails)
    reads player
    requires player.points.value <= player.Limit()
    ensures d.name == PlayerName(player.number.Value())
    ensures d.pointsToWin + player.points.value == player.Limit()
  {
    PlayerDetails(PlayerName(player.Number().Value()), player.PointsToWin().value)
  }

  /** A throw's round number. */
  function Num(r: NR.NumberedRound): nat {
    r.number.Value()
  }

  /** The round numbers that occur among the throws. */
  function Numbers(throws: seq<NR.NumberedRound>): set<nat> {
    if throws == [] then {} else Numbers(throws[..|throws| - 1]) + {Num(throws[|throws| - 1])}
  }

  /** The display points of the throws of round `n`, in their order. */
  function PointsOf(throws: seq<NR.NumberedRound>, n: int): seq<Point> {
    if throws == [] then []
    else
      var last := throws[|throws| - 1];
      PointsOf(throws[..|throws| - 1], n) + if Num(last) == n then [PointOf(last.playerScore)] else []
  }

  /** The round numbers are exactly the numbers of the throws. */
  lemma {:induction false} NumbersAreTheThrowsNumbers(throws: seq<NR.NumberedRound>)
    ensures forall n :: n in Numbers(throws) <==> exists i :: 0 <= i < |throws| && Num(throws[i]) == n
  {
    if throws != [] {
      var front := throws[..|throws| - 1];
      NumbersAreTheThrowsNumbers(front);
      forall n | n in Numbers(front)
        ensures exists i :: 0 <= i < |throws| && Num(throws[i]) == n
      {
        var i :| 0 <= i < |front| && Num(front[i]) == n;
        assert throws[i] == front[i];
      }
      forall n | exists i :: 0 <= i < |throws| && Num(throws[i]) == n
        ensures n in Numbers(throws)
      {
        var i :| 0 <= i < |throws| && Num(throws[i]) == n;
        if i < |front| {
          assert front[i] == throws[i];
        }
      }
    }
  }

  /** A round number that no throw has has no points. */
  lemma {:induction false} PointsOfAbsentNumber(throws: seq<NR.NumberedRound>, n: int)
    requires n !in Numbers(throws)
    ensures PointsOf(throws, n) == []
  {
    if throws != [] {
      PointsOfAbsentNumber(throws[..|throws| - 1], n);
    }
  }

  predicate Distinct(keys: seq<nat>) {
    forall i, j :: 0 <= i < j < |keys| ==> keys[i] != keys[j]
  }

  /** How many points the rounds numbered `keys` hold between them. */
  function Count(throws: seq<NR.NumberedRound>, keys: seq<nat>): nat {
    if keys == [] then 0 else |PointsOf(throws, keys[0])| + Count(throws, keys[1..])
  }

  /** One more throw adds one point to the count exactly when its round is among the keys. */
  lemma {:induction false} CountOfOneMore(throws: seq<NR.NumberedRound>, x: NR.NumberedRound, keys: seq<nat>)
    requires Distinct(keys)
    ensures Count(throws + [x], keys) == Count(throws, keys) + if Num(x) in keys then 1 else 0
  {
    assert (throws + [x])[..|throws|] == throws;
    if keys != [] {
      assert Distinct(keys[1..]);
      CountOfOneMore(throws, x, keys[1..]);
      assert keys == [keys[0]] + keys[1..];
      if Num(x) == keys[0] {
        assert Num(x) !in keys[1..];
      }
    }
  }

  /** Rounds covering every round number hold every throw once. */
  lemma {:induction false} CountIsThrowCount(throws: seq<NR.NumberedRound>, keys: seq<nat>)
    requires Distinct(keys)
    requires forall n :: n in Numbers(throws) ==> n in keys
    ensures Count(throws, keys) == |throws|
  {
    if throws == [] {
      CountOfNone(keys);
    } else {
      var front := throws[..|throws| - 1];
      var x := throws[|throws| - 1];
      CountIsThrowCount(front, keys);
      CountOfOneMore(front, x, keys);
      assert front + [x] == throws;
    }
  }

  lemma {:induction false} CountOfNone(keys: seq<nat>)
    ensures Count([], keys) == 0
  {
    if keys != [] {
      CountOfNone(keys[1..]);
    }
  }

  /** Round `r` sorts before round `s` in `sort_by(|a, b| b.number.cmp(&a.number))`. */
  predicate StrictlyDescending(rounds: seq<RpcRound>) {
    forall i, j :: 0 <= i < j < |rounds| ==> rounds[i].number > rounds[j].number
  }

  /** `round` placed after every round whose number is not smaller. */
  function InsertDescending(sorted: seq<RpcRound>, round: RpcRound): (r: seq<RpcRound>)
    ensures multiset(r) == multiset(sorted) + multiset{round}
  {
    if sorted == [] || sorted[|sorted| - 1].number >= round.number then sorted + [round]
    else
      var last := sorted[|sorted| - 1];
      assert sorted == sorted[..|sorted| - 1] + [last];
      InsertDescending(sorted[..|sorted| - 1], round) + [last]
  }

  /**
   * The rounds by descending round number: an insertion sort standing in for
   * `sort_by`, with the same result on the distinct numbers grouping yields.
   */
  function SortDescending(rounds: seq<RpcRound>): (r: seq<RpcRound>)
    ensures multiset(r) == multiset(rounds)
  {
    if rounds == [] then []
    else
      var front := rounds[..|rounds| - 1];
      assert rounds == front + [rounds[|rounds| - 1]];
      InsertDescending(SortDescending(front), rounds[|rounds| - 1])
  }

  lemma {:induction false} InsertKeepsDescending(sorted: seq<RpcRound>, round: RpcRound)
    requires StrictlyDescending(sorted)
    requires forall i :: 0 <= i < |sorted| ==> sorted[i].number != round.number
    ensures StrictlyDescending(InsertDescending(sorted, round))
    decreases |sorted|
  {
    if !(sorted == [] || sorted[|sorted| - 1].number >= round.number) {
      var last := sorted[|sorted| - 1];
      var front := sorted[..|sorted| - 1];
      InsertKeepsDescending(front, round);
      var r := InsertDescending(front, round);
      forall i | 0 <= i < |r|
        ensures r[i].number > last.number
      {
        assert r[i] in multiset(front) + multiset{round};
        if r[i] in multiset(front) {
          var k :| 0 <= k < |front| && front[k] == r[i];
          assert sorted[k] == r[i];
        }
      }
    }
  }

  /** Sorting rounds with distinct numbers puts them in strictly descending order. */
  lemma {:induction false} SortIsDescending(rounds: seq<RpcRound>)
    requires forall i, j :: 0 <= i < j < |rounds| ==> rounds[i].number != rounds[j].number
    ensures StrictlyDescending(SortDescending(rounds))
  {
    if rounds != [] {
      var front := rounds[..|rounds| - 1];
      var last := rounds[|rounds| - 1];
      SortIsDescending(front);
      var sorted := SortDescending(front);
      forall i | 0 <= i < |sorted|
        ensures sorted[i].number != last.number
      {
        assert sorted[i] in multiset(front);
        var k :| 0 <= k < |front| && front[k] == sorted[i];
        assert rounds[k] == sorted[i];
      }
      InsertKeepsDescending(sorted, last);
    }
  }

  /** The total number of points across the rounds. */
  function TotalPoints(rounds: seq<RpcRound>): nat {
    if rounds == [] then 0 else |rounds[0].points| + TotalPoints(rounds[1..])
  }

  function RoundNumbers(rounds: seq<RpcRound>): (keys: seq<nat>)
    requires forall k :: 0 <= k < |rounds| ==> rounds[k].number >= 0
    ensures |keys| == |rounds| && forall k :: 0 <= k < |rounds| ==> keys[k] == rounds[k].number
  {
    if rounds == [] then [] else [rounds[0].number as nat] + RoundNumbers(rounds[1..])
  }

  /** Rounds holding each round's points give the count of their numbers. */
  lemma {:induction false} TotalPointsIsCount(throws: seq<NR.NumberedRound>, rounds: seq<RpcRound>)
    requires forall k :: 0 <= k < |rounds| ==> rounds[k].number >= 0
    requires forall k :: 0 <= k < |rounds| ==> rounds[k].points == PointsOf(throws, rounds[k].number)
    ensures TotalPoints(rounds) == Count(throws, RoundNumbers(rounds))
  {
    if rounds != [] {
      TotalPointsIsCount(throws, rounds[1..]);
    }
  }

  /**
   * One `into_grouping_map_by` step: the throw's point joins its round's
   * group, which is opened (and its number remembered) on the round's first
   * throw.
   */
  method GroupThrow(groups: map<nat, seq<Point>>, order: seq<nat>, ghost done: seq<NR.NumberedRound>,
                    round: NR.NumberedRound) returns (groups': map<nat, seq<Point>>, order': seq<nat>)
    requires Distinct(order) && forall n :: n in order <==> n in groups
    requires forall n :: n in groups <==> n in Numbers(done)
    requires forall n :: n in groups ==> groups[n] == PointsOf(done, n)
    ensures Distinct(order') && forall n :: n in order' <==> n in groups'
    ensures forall n :: n in groups' <==> n in Numbers(done + [round])
    ensures forall n :: n in groups' ==> groups'[n] == PointsOf(done + [round], n)
  {
    assert (done + [round])[..|done|] == done;
    var n := round.number.Value();
    var point := PointOf(round.playerScore);
    if n in groups {
      groups' := groups[n := groups[n] + [point]];
      order' := order;
    } else {
      PointsOfAbsentNumber(done, n);
      groups' := groups[n := [point]];
      order' := order + [n];
    }
  }

  /** The facts `into_grouping_map_by` leaves: one group per round number, holding that round's points. */
  ghost predicate GroupsOf(throws: seq<NR.NumberedRound>, groups: map<nat, seq<Point>>, order: seq<nat>) {
    Distinct(order) && (forall n :: n in order <==> n in groups)
    && (forall n :: n in groups <==> n in Numbers(throws))
    && (forall n :: n in groups ==> groups[n] == PointsOf(throws, n))
  }

  /** `into_grouping_map_by(|r| r.number().value()).collect()`, with its keys in first-seen order. */
  method Group(throws: seq<NR.NumberedRound>) returns (groups: map<nat, seq<Point>>, order: seq<nat>)
    ensures Distinct(order) && forall n :: n in order <==> n in groups
    ensures forall n :: n in groups <==> n in Numbers(throws)
    ensures forall n :: n in groups ==> groups[n] == PointsOf(throws, n)
  {
    groups, order := map[], [];
    for i := 0 to |throws|
      invariant Distinct(order) && forall n :: n in order <==> n in groups
      invariant forall n :: n in groups <==> n in Numbers(throws[..i])
      invariant forall n :: n in groups ==> groups[n] == PointsOf(throws[..i], n)
    {
      assert throws[..i + 1] == throws[..i] + [throws[i]];
      groups, order := GroupThrow(groups, order, throws[..i], throws[i]);
    }
    assert throws[..|throws|] == throws;
  }

  /** The groups as display rounds, in key order. */
  function GroupedRounds(groups: map<nat, seq<Point>>, order: seq<nat>): (rounds: seq<RpcRound>)
    requires forall k :: 0 <= k < |order| ==> order[k] in groups && order[k] <= I32_MAX
    ensures |rounds| == |order|
    ensures forall k :: 0 <= k < |order| ==> rounds[k] == RpcRound(order[k], groups[order[k]])
  {
    seq(|order|, k requires 0 <= k < |order| => RpcRound(order[k], groups[order[k]]))
  }

  /** Every round of a reordering of the groups is one of the groups. */
  lemma ReorderedGroupsAreGroups(throws: seq<NR.NumberedRound>, groups: map<nat, seq<Point>>, order: seq<nat>,
                                 rounds: seq<RpcRound>)
    requires GroupsOf(throws, groups, order)
    requires forall k :: 0 <= k < |order| ==> order[k] in groups && order[k] <= I32_MAX
    requires multiset(rounds) == multiset(GroupedRounds(groups, order))
    ensures forall k :: 0 <= k < |rounds| ==>
              rounds[k].number in Numbers(throws) && rounds[k].points == PointsOf(throws, rounds[k].number)
  {
    var grouped := GroupedRounds(groups, order);
    forall k | 0 <= k < |rounds|
      ensures rounds[k].number in groups && rounds[k].points == groups[rounds[k].number]
    {
      assert rounds[k] in multiset(grouped);
    }
  }

  /** A reordering of the groups still has a round for every round number. */
  lemma ReorderedGroupsCoverNumbers(throws: seq<NR.NumberedRound>, groups: map<nat, seq<Point>>, order: seq<nat>,
                                    rounds: seq<RpcRound>)
    requires GroupsOf(throws, groups, order)
    requires forall k :: 0 <= k < |order| ==> order[k] in groups && order[k] <= I32_MAX
    requires multiset(rounds) == multiset(GroupedRounds(groups, order))
    ensures forall n :: n in Numbers(throws) ==> exists k :: 0 <= k < |rounds| && rounds[k].number == n
  {
    var grouped := GroupedRounds(groups, order);
    forall n | n in Numbers(throws)
      ensures exists k :: 0 <= k < |rounds| && rounds[k].number == n
    {
      var j :| 0 <= j < |order| && order[j] == n;
      assert grouped[j] in multiset(rounds);
    }
  }

  /** Rounds with distinct numbers, one per round number, each holding its points, hold every throw once. */
  lemma RoundsHoldEveryThrow(throws: seq<NR.NumberedRound>, rounds: seq<RpcRound>)
    requires StrictlyDescending(rounds)
    requires forall k :: 0 <= k < |rounds| ==>
               rounds[k].number in Numbers(throws) && rounds[k].points == PointsOf(throws, rounds[k].number)
    requires forall n :: n in Numbers(throws) ==> exists k :: 0 <= k < |rounds| && rounds[k].number == n
    ensures TotalPoints(rounds) == |throws|
  {
    var keys := RoundNumbers(rounds);
    forall n | n in Numbers(throws)
      ensures n in keys
    {
      var k :| 0 <= k < |rounds| && rounds[k].number == n;
      assert keys[k] == n;
    }
    CountIsThrowCount(throws, keys);
    TotalPointsIsCount(throws, rounds);
  }

  /**
   * `rounds`: one round per distinct round number among the throws, holding
   * the points of exactly that round's throws in their order, newest round
   * first; every throw lands in exactly one round.
   */
  method Rounds(throws: seq<NR.NumberedRound>) returns (rounds: seq<RpcRound>)
    requires forall i :: 0 <= i < |throws| ==> throws[i].number.Value() <= I32_MAX
    ensures StrictlyDescending(rounds)
    ensures forall k :: 0 <= k < |rounds| ==>
              rounds[k].number in Numbers(throws) && rounds[k].points == PointsOf(throws, rounds[k].number)
    ensures forall n :: n in Numbers(throws) ==> exists k :: 0 <= k < |rounds| && rounds[k].number == n
    ensures TotalPoints(rounds) == |throws|
  {
    var groups, order := Group(throws);
    NumbersAreTheThrowsNumbers(throws);
    forall k | 0 <= k < |order|
      ensures order[k] in groups && order[k] <= I32_MAX
    {
      assert order[k] in groups;
      var i :| 0 <= i < |throws| && Num(throws[i]) == order[k];
    }
    var grouped := GroupedRounds(groups, order);
    rounds := SortDescending(grouped);
    SortIsDescending(grouped);
    ReorderedGroupsAreGroups(throws, groups, order, rounds);
    ReorderedGroupsCoverNumbers(throws, groups, order, rounds);
    RoundsHoldEveryThrow(throws, rounds);
  }
}
