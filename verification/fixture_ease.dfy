/**
 The fixture-ease window of `weighted_score` (app.py): the fixtures a team
 plays in, taken in list order, cut to the first `horizon` of them, each
 turned into an ease `6 - difficulty` on the team's own side, and averaged
 (3.0 when there is nothing to average).
 */
module FixtureEase {
  import opened Coercion

  /** One row of the fixture table. */
  datatype Fixture = Fixture(teamH: int, teamA: int, teamHDifficulty: Value, teamADifficulty: Value)

  predicate Involves(f: Fixture, team: int) {
    f.teamH == team || f.teamA == team
  }

  /** `next_fix`: the rows whose home or away team is `team`, in table order. */
  function Matching(fixtures: seq<Fixture>, team: int): (r: seq<Fixture>)
    ensures |r| <= |fixtures|
    ensures forall i :: 0 <= i < |r| ==> Involves(r[i], team)
    ensures forall f :: f in r <==> f in fixtures && Involves(f, team)
  {
    if |fixtures| == 0 then []
    else if Involves(fixtures[0], team) then [fixtures[0]] + Matching(fixtures[1..], team)
    else Matching(fixtures[1..], team)
  }

  /** The difficulty rating the team faces: the rating of the side it plays
      on; the home rating wins when it is listed on both sides. */
  function SideDifficulty(f: Fixture, team: int): (d: Value)
    ensures Involves(f, team) ==>
      (f.teamH == team && d == f.teamHDifficulty) || (f.teamA == team && d == f.teamADifficulty)
    ensures f.teamH == team ==> d == f.teamHDifficulty
  {
    if f.teamH == team then f.teamHDifficulty else f.teamADifficulty
  }

  /** The same fixture listed with home and away sides exchanged. */
  function Swap(f: Fixture): Fixture {
    Fixture(f.teamA, f.teamH, f.teamADifficulty, f.teamHDifficulty)
  }

  /** The rating a team faces belongs to its side, not to the listing: for a
      fixture between two different teams, exchanging the sides changes
      neither whether the team plays nor the rating it faces. */
  lemma SideDifficultySwap(f: Fixture, team: int)
    requires f.teamH != f.teamA
    ensures Involves(Swap(f), team) <==> Involves(f, team)
    ensures Involves(f, team) ==> SideDifficulty(Swap(f), team) == SideDifficulty(f, team)
  {
  }

  /** Ease of a difficulty rating. It reverses the 1..5 scale: the easiest
      rating (1) gives the largest ease (5), and ease and difficulty are
      each other's image. */
  function EaseOf(d: real): (e: real)
    ensures 1.0 <= d <= 5.0 <==> 1.0 <= e <= 5.0
    ensures e == 5.0 <==> d == 1.0
    ensures e == 1.0 <==> d == 5.0
  {
    6.0 - d
  }

  /** A harder rating never gives a larger ease, and converting twice gives
      the rating back. */
  lemma EaseOfAntitone(d: real, d': real)
    ensures d <= d' <==> EaseOf(d') <= EaseOf(d)
    ensures EaseOf(EaseOf(d)) == d
  {
  }

  /** The ease one fixture contributes for `team`. */
  function FixtureEaseFor(f: Fixture, team: int, parse: Parser): real {
    EaseOf(SafeFloat(SideDifficulty(f, team), parse))
  }

  /** Number of indices `range(horizon)` yields that exist in a list of
      `available` rows. */
  function WindowSize(horizon: int, available: nat): nat {
    if horizon <= 0 then 0 else if horizon < available then horizon else available
  }

  function Eases(fixtures: seq<Fixture>, team: int, parse: Parser): seq<real> {
    seq(|fixtures|, i requires 0 <= i < |fixtures| => FixtureEaseFor(fixtures[i], team, parse))
  }

  /** `diffs` of `weighted_score`: one ease per matching fixture among the
      first `horizon`; there are min(horizon, #matching) of them (none for a
      non-positive horizon), and entry i comes from the i-th matching fixture. */
  function EaseEntries(fixtures: seq<Fixture>, team: int, horizon: int, parse: Parser): (r: seq<real>)
    ensures |r| <= |Matching(fixtures, team)|
    ensures horizon <= 0 ==> |r| == 0
    ensures horizon > 0 ==> |r| <= horizon
    ensures |r| < |Matching(fixtures, team)| ==> |r| == horizon || horizon <= 0
    ensures forall i :: 0 <= i < |r| ==>
      r[i] == 6.0 - SafeFloat(SideDifficulty(Matching(fixtures, team)[i], team), parse)
  {
    var next := Matching(fixtures, team);
    Eases(next[..WindowSize(horizon, |next|)], team, parse)
  }

  /** The loop of `weighted_score`: for gw in 0..horizon, read row gw of the
      matching fixtures; a missing row (IndexError) is skipped. It collects
      exactly `EaseEntries`. */
  method CollectDiffs(fixtures: seq<Fixture>, team: int, horizon: int, parse: Parser) returns (diffs: seq<real>)
    ensures diffs == EaseEntries(fixtures, team, horizon, parse)
  {
    var next := Matching(fixtures, team);
    diffs := [];
    var gw := 0;
    while gw < horizon
      invariant 0 <= gw
      invariant gw <= horizon || gw == 0
      invariant diffs == Eases(next[..WindowSize(gw, |next|)], team, parse)
    {
      if gw < |next| {
        var fdr := if next[gw].teamH == team then next[gw].teamHDifficulty else next[gw].teamADifficulty;
        diffs := diffs + [6.0 - SafeFloat(fdr, parse)];
      }
      gw := gw + 1;
    }
  }

  function Sum(xs: seq<real>): real {
    if |xs| == 0 then 0.0 else Sum(xs[..|xs| - 1]) + xs[|xs| - 1]
  }

  /** `np.mean(diffs) if diffs else 3.0`. */
  function AvgDiff(diffs: seq<real>): (r: real)
    ensures |diffs| == 0 ==> r == 3.0
    ensures |diffs| > 0 ==> r * (|diffs| as real) == Sum(diffs)
  {
    if |diffs| == 0 then 3.0 else Sum(diffs) / (|diffs| as real)
  }

  /** `avg_diff` of a team over the horizon. */
  function TeamAvgDiff(fixtures: seq<Fixture>, team: int, horizon: int, parse: Parser): real {
    AvgDiff(EaseEntries(fixtures, team, horizon, parse))
  }

  /** Filtering keeps list order: it distributes over concatenation. */
  lemma {:induction false} MatchingAppend(a: seq<Fixture>, b: seq<Fixture>, team: int)
    ensures Matching(a + b, team) == Matching(a, team) + Matching(b, team)
  {
    if |a| == 0 {
      assert a + b == b;
    } else {
      assert (a + b)[1..] == a[1..] + b;
      MatchingAppend(a[1..], b, team);
    }
  }

  /** A one-row table is kept exactly when the team plays in it. */
  lemma MatchingSingle(f: Fixture, team: int)
    ensures Matching([f], team) == if Involves(f, team) then [f] else []
  {
  }

  /** Each fixture occurs in `next_fix` as often as in the table when the team
      plays in it, and not at all otherwise. */
  lemma {:induction false} MatchingCount(fixtures: seq<Fixture>, team: int, f: Fixture)
    ensures multiset(Matching(fixtures, team))[f] == if Involves(f, team) then multiset(fixtures)[f] else 0
  {
    if |fixtures| > 0 {
      assert fixtures == [fixtures[0]] + fixtures[1..];
      MatchingCount(fixtures[1..], team, f);
    }
  }

  /** Filtering twice is filtering once. */
  lemma {:induction false} MatchingIdempotent(fixtures: seq<Fixture>, team: int)
    ensures Matching(Matching(fixtures, team), team) == Matching(fixtures, team)
  {
    if |fixtures| > 0 {
      MatchingIdempotent(fixtures[1..], team);
      if Involves(fixtures[0], team) {
        var m := Matching(fixtures, team);
        assert m[0] == fixtures[0];
        assert m[1..] == Matching(fixtures[1..], team);
      }
    }
  }

  /** Rows the team does not play in have no effect on its average. */
  lemma IrrelevantFixtures(fixtures: seq<Fixture>, team: int, horizon: int, parse: Parser)
    ensures TeamAvgDiff(Matching(fixtures, team), team, horizon, parse) == TeamAvgDiff(fixtures, team, horizon, parse)
  {
    MatchingIdempotent(fixtures, team);
  }

  /** A longer horizon only appends entries: the shorter window is a prefix. */
  lemma HorizonPrefix(fixtures: seq<Fixture>, team: int, h: int, h': int, parse: Parser)
    requires h <= h'
    ensures EaseEntries(fixtures, team, h, parse) <= EaseEntries(fixtures, team, h', parse)
  {
  }

  /** Once the window is full, later fixtures are never looked at. */
  lemma LaterFixturesIgnored(fixtures: seq<Fixture>, later: seq<Fixture>, team: int, horizon: int, parse: Parser)
    requires horizon <= |Matching(fixtures, team)|
    ensures EaseEntries(fixtures + later, team, horizon, parse) == EaseEntries(fixtures, team, horizon, parse)
  {
    MatchingAppend(fixtures, later, team);
    var m := Matching(fixtures, team);
    var n := WindowSize(horizon, |m|);
    assert (m + Matching(later, team))[..n] == m[..n];
  }

  lemma {:induction false} SumBounds(xs: seq<real>, lo: real, hi: real)
    requires forall i :: 0 <= i < |xs| ==> lo <= xs[i] <= hi
    ensures (|xs| as real) * lo <= Sum(xs) <= (|xs| as real) * hi
  {
    if |xs| > 0 {
      SumBounds(xs[..|xs| - 1], lo, hi);
    }
  }

  /** The average lies within any bounds all entries lie within; the default
      3.0 is used when there are no entries. */
  lemma AvgDiffBounds(diffs: seq<real>, lo: real, hi: real)
    requires lo <= 3.0 <= hi
    requires forall i :: 0 <= i < |diffs| ==> lo <= diffs[i] <= hi
    ensures lo <= AvgDiff(diffs) <= hi
  {
    if |diffs| > 0 {
      SumBounds(diffs, lo, hi);
      var n := |diffs| as real;
      var r := AvgDiff(diffs);
      assert r * n == Sum(diffs);
      assert n * lo <= r * n <= n * hi;
    }
  }

  /** With every rating the team faces on the 1..5 scale, every entry and
      the team's average lie in [1, 5]. */
  lemma TeamAvgDiffInRange(fixtures: seq<Fixture>, team: int, horizon: int, parse: Parser)
    requires forall f :: f in fixtures && Involves(f, team) ==>
      1.0 <= SafeFloat(SideDifficulty(f, team), parse) <= 5.0
    ensures forall e :: e in EaseEntries(fixtures, team, horizon, parse) ==> 1.0 <= e <= 5.0
    ensures 1.0 <= TeamAvgDiff(fixtures, team, horizon, parse) <= 5.0
  {
    var diffs := EaseEntries(fixtures, team, horizon, parse);
    var m := Matching(fixtures, team);
    forall i | 0 <= i < |diffs|
      ensures 1.0 <= diffs[i] <= 5.0
    {
      assert m[i] in m;
    }
    AvgDiffBounds(diffs, 1.0, 5.0);
  }
}
