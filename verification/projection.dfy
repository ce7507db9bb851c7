/**
 The player projection score of app.py: the weighted blend of expected
 points, form, points per game and fixture ease (`weighted_score`), the
 choice between it and the raw `ep_next` (the projection mode), and the
 price shown in millions.
 */
module Projection {
  import opened Coercion
  import opened FixtureEase

  /** One row of the player table: the columns the score and the price read. */
  datatype Player = Player(id: int, team: int, epNext: Value, form: Value, pointsPerGame: Value, nowCost: int)

  /** The four coerced inputs of the weighted score. */
  datatype Inputs = Inputs(epNext: real, form: real, ppg: real, avgDiff: real)

  /** The label of the projection mode that uses `ep_next` alone; every other
      label selects the weighted score. */
  const RawMode: string := "Raw FPL ep_next"

  function Score(x: Inputs): real {
    0.5 * x.epNext + 0.3 * x.form + 0.2 * x.ppg + 0.2 * x.avgDiff
  }

  function Add(x: Inputs, y: Inputs): Inputs {
    Inputs(x.epNext + y.epNext, x.form + y.form, x.ppg + y.ppg, x.avgDiff + y.avgDiff)
  }

  function Scale(k: real, x: Inputs): Inputs {
    Inputs(k * x.epNext, k * x.form, k * x.ppg, k * x.avgDiff)
  }

  predicate AtMost(x: Inputs, y: Inputs) {
    x.epNext <= y.epNext && x.form <= y.form && x.ppg <= y.ppg && x.avgDiff <= y.avgDiff
  }

  /** The score is linear in its four inputs and has no constant term. */
  lemma ScoreLinear(x: Inputs, y: Inputs, k: real)
    ensures Score(Add(x, y)) == Score(x) + Score(y)
    ensures Score(Scale(k, x)) == k * Score(x)
    ensures Score(Inputs(0.0, 0.0, 0.0, 0.0)) == 0.0
  {
  }

  /** The score never decreases when any input grows, and strictly grows when
      any single input strictly grows. */
  lemma ScoreMonotone(x: Inputs, y: Inputs)
    requires AtMost(x, y)
    ensures Score(x) <= Score(y)
    ensures x != y ==> Score(x) < Score(y)
  {
  }

  /** The inputs `weighted_score` reads for a player. */
  function PlayerInputs(p: Player, fixtures: seq<Fixture>, horizon: int, parse: Parser): Inputs {
    Inputs(SafeFloat(p.epNext, parse), SafeFloat(p.form, parse), SafeFloat(p.pointsPerGame, parse),
           TeamAvgDiff(fixtures, p.team, horizon, parse))
  }

  function PlayerScore(p: Player, fixtures: seq<Fixture>, horizon: int, parse: Parser): real {
    Score(PlayerInputs(p, fixtures, horizon, parse))
  }

  /** With every rating the player's team faces on the 1..5 scale, the
      fixture term adds between 0.2 and 1.0 to the statistics part; a team
      without fixtures in the window gets exactly 0.6. */
  lemma PlayerScoreRange(p: Player, fixtures: seq<Fixture>, horizon: int, parse: Parser)
    requires forall f :: f in fixtures && Involves(f, p.team) ==>
      1.0 <= SafeFloat(SideDifficulty(f, p.team), parse) <= 5.0
    ensures var base := Score(Inputs(SafeFloat(p.epNext, parse), SafeFloat(p.form, parse), SafeFloat(p.pointsPerGame, parse), 0.0));
      base + 0.2 <= PlayerScore(p, fixtures, horizon, parse) <= base + 1.0
    ensures EaseEntries(fixtures, p.team, horizon, parse) == [] ==>
      PlayerScore(p, fixtures, horizon, parse)
      == Score(Inputs(SafeFloat(p.epNext, parse), SafeFloat(p.form, parse), SafeFloat(p.pointsPerGame, parse), 0.0)) + 0.6
  {
    TeamAvgDiffInRange(fixtures, p.team, horizon, parse);
  }

  /** Row `j` is the first row whose id is `pid`. */
  predicate FirstRow(players: seq<Player>, pid: int, j: int) {
    0 <= j < |players| && players[j].id == pid && forall k :: 0 <= k < j ==> players[k].id != pid
  }

  /** At most one row is the first with a given id. */
  lemma FirstRowUnique(players: seq<Player>, pid: int, i: int)
    requires FirstRow(players, pid, i)
    ensures forall j :: FirstRow(players, pid, j) ==> j == i
  {
  }

  /** A stat `float()` cannot convert scores exactly as a stat of 0 would,
      and leaves the other stats' contributions untouched. */
  lemma UnconvertibleStatScoresAsZero(p: Player, fixtures: seq<Fixture>, horizon: int, parse: Parser)
    requires PyFloat(p.form, parse).None?
    ensures PlayerScore(p, fixtures, horizon, parse) == PlayerScore(p.(form := Num(0.0)), fixtures, horizon, parse)
    ensures PlayerScore(p, fixtures, horizon, parse)
      == 0.5 * SafeFloat(p.epNext, parse) + 0.2 * SafeFloat(p.pointsPerGame, parse)
         + 0.2 * TeamAvgDiff(fixtures, p.team, horizon, parse)
  {
  }

  /** `players.loc[players["id"] == pid].iloc[0]`: the first row with that id. */
  function FirstWithId(players: seq<Player>, pid: int): (r: Option<nat>)
    ensures r.Some? ==> FirstRow(players, pid, r.value)
    ensures r.None? <==> forall j :: 0 <= j < |players| ==> players[j].id != pid
  {
    if |players| == 0 then None
    else if players[0].id == pid then Some(0)
    else match FirstWithId(players[1..], pid)
      case None => None
      case Some(i) => Some(i + 1)
  }

  /** `weighted_score(pid)`: the score of the first row with id `pid`; `None`
      when no row has that id (`.iloc[0]` raises IndexError). */
  function WeightedScore(players: seq<Player>, pid: int, fixtures: seq<Fixture>, horizon: int, parse: Parser): (r: Option<real>)
    ensures r.None? <==> forall j :: 0 <= j < |players| ==> players[j].id != pid
    ensures forall j :: FirstRow(players, pid, j) ==> r == Some(PlayerScore(players[j], fixtures, horizon, parse))
  {
    match FirstWithId(players, pid)
    case None => None
    case Some(i) =>
      FirstRowUnique(players, pid, i);
      Some(PlayerScore(players[i], fixtures, horizon, parse))
  }

  /** The `score` column: `safe_float(ep_next)` per row in the raw mode,
      otherwise `weighted_score` of each row's id. */
  function AssignScores(players: seq<Player>, fixtures: seq<Fixture>, horizon: int, mode: string, parse: Parser): (scores: seq<real>)
    ensures |scores| == |players|
    ensures mode == RawMode ==> forall i :: 0 <= i < |players| ==> scores[i] == SafeFloat(players[i].epNext, parse)
    ensures mode != RawMode ==> forall i :: 0 <= i < |players| ==>
      WeightedScore(players, players[i].id, fixtures, horizon, parse) == Some(scores[i])
  {
    seq(|players|, i requires 0 <= i < |players| =>
      if mode == RawMode then SafeFloat(players[i].epNext, parse)
      else WeightedScore(players, players[i].id, fixtures, horizon, parse).value)
  }

  /** In the raw mode the scores do not depend on the fixtures or the horizon. */
  lemma RawModeIgnoresFixtures(players: seq<Player>, fixtures: seq<Fixture>, fixtures': seq<Fixture>,
                               horizon: int, horizon': int, parse: Parser)
    ensures AssignScores(players, fixtures, horizon, RawMode, parse) == AssignScores(players, fixtures', horizon', RawMode, parse)
  {
  }

  predicate UniqueIds(players: seq<Player>) {
    forall i, j :: 0 <= i < j < |players| ==> players[i].id != players[j].id
  }

  /** With distinct ids, each row in the weighted mode gets the score of its
      own statistics and its own team's fixtures. */
  lemma WeightedModeOwnRow(players: seq<Player>, fixtures: seq<Fixture>, horizon: int, mode: string, parse: Parser)
    requires mode != RawMode
    requires UniqueIds(players)
    ensures forall i :: 0 <= i < |players| ==>
      AssignScores(players, fixtures, horizon, mode, parse)[i] == PlayerScore(players[i], fixtures, horizon, parse)
  {
    var scores := AssignScores(players, fixtures, horizon, mode, parse);
    forall i | 0 <= i < |players|
      ensures scores[i] == PlayerScore(players[i], fixtures, horizon, parse)
    {
      assert FirstRow(players, players[i].id, i);
      assert WeightedScore(players, players[i].id, fixtures, horizon, parse) == Some(PlayerScore(players[i], fixtures, horizon, parse));
    }
  }

  /** Rows sharing an id share the weighted score of the first of them, even
      when their own statistics differ. */
  lemma WeightedModeSharedId(players: seq<Player>, fixtures: seq<Fixture>, horizon: int, mode: string, parse: Parser, i: nat, j: nat)
    requires mode != RawMode
    requires i < j < |players|
    requires FirstRow(players, players[j].id, i)
    ensures AssignScores(players, fixtures, horizon, mode, parse)[j] == PlayerScore(players[i], fixtures, horizon, parse)
  {
    assert WeightedScore(players, players[j].id, fixtures, horizon, parse) == Some(PlayerScore(players[i], fixtures, horizon, parse));
  }

  /** `now_cost / 10`: the price in millions from the feed's tenths. */
  function PriceMillions(nowCost: int): (price: real)
    ensures price * 10.0 == nowCost as real
    ensures nowCost >= 0 ==> price >= 0.0
  {
    nowCost as real / 10.0
  }

  /** The conversion keeps the order of prices and loses nothing. */
  lemma PriceMillionsOrder(c: int, c': int)
    ensures c <= c' <==> PriceMillions(c) <= PriceMillions(c')
    ensures PriceMillions(c) == PriceMillions(c') ==> c == c'
  {
  }
}
