/** The player statistics of `useStats`: season totals, the gamification
    XP, level and progress bar, the overall rating and the match history,
    all computed from the list of one player's appearances. */
module Stats {
  import opened Wrappers

  /** The joined `matches` row of one appearance. */
  datatype MatchInfo = MatchInfo(
    date: string,
    opponent: string,
    result: Option<string>,  // 'W', 'D', 'L', or null before the match is played
    homeScore: Option<int>,  // null until the match has a score
    awayScore: Option<int>)

  /** One row of the `appearances` query. */
  datatype Appearance = Appearance(
    goals: nat,
    assists: nat,
    cleanSheet: bool,
    motm: bool,
    fixture: MatchInfo)

  /** The `players` row linked to the signed-in user; `memberships` holds,
      per team membership, the joined team's name (null when absent). */
  datatype Player = Player(
    id: string,
    firstName: string,
    lastName: string,
    position: string,
    memberships: seq<Option<string>>)

  datatype PlayerStats = PlayerStats(
    apps: nat,
    goals: nat,
    assists: nat,
    motm: nat,
    xp: nat,
    level: nat,
    progress: real,
    overall: nat)

  /** The `playerStats` value: the player record, a team label and the stats. */
  datatype PlayerCard = PlayerCard(player: Player, teamName: string, stats: PlayerStats)

  /** What the history shows in its performance column. */
  datatype Performance = Scored(goals: nat) | CleanSheet | NoPerformance

  datatype HistoryEntry = HistoryEntry(
    opponent: string,
    date: string,
    result: string,
    score: (Option<int>, Option<int>),
    performance: Performance)

  const ClubMember: string := "Club Member"
  const NoResult: string := "-"
  const Win: string := "W"

  // ---------------------------------------------------------------------
  // Totals: `reduce` folds from the left, so the sum of a sequence is the
  // sum of all but its last element plus the last one.

  function GoalsOf(a: Appearance): nat { a.goals }
  function AssistsOf(a: Appearance): nat { a.assists }
  function WinOf(a: Appearance): nat { if a.fixture.result == Some(Win) then 1 else 0 }

  function SumOf(apps: seq<Appearance>, f: Appearance -> nat): (r: nat)
    ensures forall i :: 0 <= i < |apps| ==> f(apps[i]) <= r
    ensures r == 0 <==> forall i :: 0 <= i < |apps| ==> f(apps[i]) == 0
    ensures (forall i :: 0 <= i < |apps| ==> f(apps[i]) <= 1) ==> r <= |apps|
  {
    if apps == [] then 0 else SumOf(apps[..|apps| - 1], f) + f(apps[|apps| - 1])
  }

  /** Summing a concatenation sums each part: the total over a season is
      the total over any split of it. */
  lemma {:induction false} SumOfAppend(a: seq<Appearance>, b: seq<Appearance>, f: Appearance -> nat)
    ensures SumOf(a + b, f) == SumOf(a, f) + SumOf(b, f)
    decreases |b|
  {
    if b != [] {
      var n := |b| - 1;
      assert (a + b)[..|a + b| - 1] == a + b[..n];
      SumOfAppend(a, b[..n], f);
    } else {
      assert a + b == a;
    }
  }

  /** `apps.reduce((sum, a) => sum + a.goals, 0)`. */
  function TotalGoals(apps: seq<Appearance>): (r: nat)
    ensures forall i :: 0 <= i < |apps| ==> apps[i].goals <= r
    ensures r == 0 <==> forall i :: 0 <= i < |apps| ==> apps[i].goals == 0
  {
    SumOf(apps, GoalsOf)
  }

  /** `apps.reduce((sum, a) => sum + a.assists, 0)`. */
  function TotalAssists(apps: seq<Appearance>): (r: nat)
    ensures forall i :: 0 <= i < |apps| ==> apps[i].assists <= r
    ensures r == 0 <==> forall i :: 0 <= i < |apps| ==> apps[i].assists == 0
  {
    SumOf(apps, AssistsOf)
  }

  /** The number of appearances whose match result is exactly 'W'. */
  function TotalWins(apps: seq<Appearance>): (r: nat)
    ensures r <= |apps|
    ensures r == 0 <==> forall i :: 0 <= i < |apps| ==> apps[i].fixture.result != Some(Win)
  {
    SumOf(apps, WinOf)
  }

  /** The appearances whose man-of-the-match flag is set, in their order. */
  function MotmAppearances(apps: seq<Appearance>): (r: seq<Appearance>)
    ensures |r| <= |apps|
    ensures forall a :: a in r ==> a in apps && a.motm
    ensures r == [] <==> forall i :: 0 <= i < |apps| ==> !apps[i].motm
  {
    if apps == [] then []
    else
      var last := apps[|apps| - 1];
      MotmAppearances(apps[..|apps| - 1]) + (if last.motm then [last] else [])
  }

  /** `apps.filter(a => a.motm).length`. */
  function TotalMotm(apps: seq<Appearance>): (r: nat)
    ensures r <= |apps|
    ensures r == 0 <==> forall i :: 0 <= i < |apps| ==> !apps[i].motm
  {
    |MotmAppearances(apps)|
  }

  /** The indices of the appearances flagged man of the match. */
  ghost function MotmIndices(apps: seq<Appearance>): set<nat>
  {
    set i: nat | i < |apps| && apps[i].motm
  }

  /** The MOTM total counts exactly the flagged appearances. */
  lemma {:induction false} TotalMotmCountsFlags(apps: seq<Appearance>)
    ensures TotalMotm(apps) == |MotmIndices(apps)|
    decreases |apps|
  {
    if apps != [] {
      var n := |apps| - 1;
      var init := apps[..n];
      TotalMotmCountsFlags(init);
      if apps[n].motm {
        assert MotmIndices(apps) == MotmIndices(init) + {n};
      } else {
        assert MotmIndices(apps) == MotmIndices(init);
      }
    } else {
      assert MotmIndices(apps) == {};
    }
  }

  // ---------------------------------------------------------------------
  // XP, level, progress and the overall rating.

  /** The closed form of the XP score: 100 per appearance, 50 per goal,
      200 per man-of-the-match award and 50 per win. */
  function XpFormula(apps: seq<Appearance>): (xp: nat)
    ensures xp % 50 == 0
    ensures xp >= 100 * |apps|
  {
    var k := 2 * |apps| + TotalGoals(apps) + 4 * TotalMotm(apps) + TotalWins(apps);
    assert (50 * k) % 50 == 0;
    50 * k
  }

  /** The `forEach` loop that accumulates the XP score. */
  method ComputeXp(apps: seq<Appearance>) returns (xp: nat)
    ensures xp == 100 * |apps| + 50 * TotalGoals(apps) + 200 * TotalMotm(apps) + 50 * TotalWins(apps)
    ensures xp == XpFormula(apps)
  {
    xp := 0;
    var i := 0;
    while i < |apps|
      invariant 0 <= i <= |apps|
      invariant xp == 100 * i + 50 * TotalGoals(apps[..i]) + 200 * TotalMotm(apps[..i])
                      + 50 * TotalWins(apps[..i])
    {
      var a := apps[i];
      xp := xp + 100;
      xp := xp + a.goals * 50;
      xp := xp + (if a.motm then 1 else 0) * 200;
      if a.fixture.result == Some(Win) {
        xp := xp + 50;
      }
      assert apps[..i + 1][..i] == apps[..i];
      i := i + 1;
    }
    assert apps[..i] == apps;
  }

  /** `Math.floor(xp / 1000) + 1`: one level per full thousand XP. */
  function Level(xp: nat): (level: nat)
    ensures level >= 1
    ensures (level - 1) * 1000 <= xp < level * 1000
  {
    xp / 1000 + 1
  }

  /** Gaining XP never lowers the level. */
  lemma LevelMonotone(x: nat, y: nat)
    requires x <= y
    ensures Level(x) <= Level(y)
  {
  }

  /** `(xp % 1000) / 10`, a floating-point percentage of the current level. */
  function Progress(xp: nat): (p: real)
    ensures 0.0 <= p < 100.0
  {
    (xp % 1000) as real / 10.0
  }

  /** Because XP is a multiple of 50, the progress bar moves in whole
      steps of five percent. */
  lemma ProgressStepsOfFive(xp: nat)
    requires xp % 50 == 0
    ensures Progress(xp) == (5 * ((xp % 1000) / 50)) as real
    ensures (xp % 1000) % 50 == 0
  {
  }

  /** Base rating 60 plus a performance bonus capped at 39. */
  function Overall(totalGoals: nat, totalMotm: nat, totalApps: nat): (overall: nat)
    ensures 60 <= overall <= 99
    ensures overall == 99 <==> 2 * totalGoals + 5 * totalMotm + totalApps >= 39
    ensures overall < 99 ==> overall - 60 == 2 * totalGoals + 5 * totalMotm + totalApps
  {
    var bonus := 2 * totalGoals + 5 * totalMotm + totalApps;
    60 + (if bonus < 39 then bonus else 39)
  }

  /** The stats block of `playerStats`, as a function of the appearances. */
  function StatsFor(apps: seq<Appearance>): (s: PlayerStats)
    ensures s.apps == |apps| && s.motm <= s.apps
    ensures s.goals == TotalGoals(apps) && s.assists == TotalAssists(apps) && s.motm == TotalMotm(apps)
    ensures s.xp == XpFormula(apps) && s.level == Level(s.xp) && s.progress == Progress(s.xp)
    ensures s.overall == Overall(s.goals, s.motm, s.apps)
    ensures s.level >= 1 && 0.0 <= s.progress < 100.0 && 60 <= s.overall <= 99
    ensures s.xp % 50 == 0 && s.xp >= 100 * s.apps
    ensures s.progress == (5 * ((s.xp % 1000) / 50)) as real
  {
    var xp := XpFormula(apps);
    ProgressStepsOfFive(xp);
    PlayerStats(
      |apps|, TotalGoals(apps), TotalAssists(apps), TotalMotm(apps),
      xp, Level(xp), Progress(xp),
      Overall(TotalGoals(apps), TotalMotm(apps), |apps|))
  }

  /** `team_memberships[0]?.teams?.name || 'Club Member'`. */
  function TeamName(memberships: seq<Option<string>>): (name: string)
    ensures name != ""
    ensures (|memberships| > 0 && memberships[0].Some? && memberships[0].value != "") ==>
              name == memberships[0].value
    ensures (|memberships| == 0 || memberships[0] == None || memberships[0] == Some("")) ==>
              name == ClubMember
  {
    if |memberships| > 0 && memberships[0].Some? && memberships[0].value != "" then
      memberships[0].value
    else
      ClubMember
  }

  // ---------------------------------------------------------------------
  // Match history.

  function EntryOf(a: Appearance): HistoryEntry
  {
    HistoryEntry(
      a.fixture.opponent,
      a.fixture.date,
      if a.fixture.result.Some? && a.fixture.result.value != "" then a.fixture.result.value else NoResult,
      (a.fixture.homeScore, a.fixture.awayScore),
      if a.goals > 0 then Scored(a.goals) else if a.cleanSheet then CleanSheet else NoPerformance)
  }

  /** `apps.map(...)`: one entry per appearance, in the same order. */
  function MatchHistory(apps: seq<Appearance>): (h: seq<HistoryEntry>)
    ensures |h| == |apps|
    ensures forall i :: 0 <= i < |apps| ==>
      && h[i].opponent == apps[i].fixture.opponent
      && h[i].date == apps[i].fixture.date
      && h[i].score == (apps[i].fixture.homeScore, apps[i].fixture.awayScore)
      && h[i].result != ""
      && ((apps[i].fixture.result.Some? && apps[i].fixture.result.value != "") ==>
            h[i].result == apps[i].fixture.result.value)
      && ((apps[i].fixture.result == None || apps[i].fixture.result == Some("")) ==>
            h[i].result == NoResult)
      && (h[i].performance.Scored? <==> apps[i].goals > 0)
      && (h[i].performance.Scored? ==> h[i].performance.goals == apps[i].goals)
      && (h[i].performance == CleanSheet <==> apps[i].goals == 0 && apps[i].cleanSheet)
      && (h[i].performance == NoPerformance <==> apps[i].goals == 0 && !apps[i].cleanSheet)
  {
    seq(|apps|, i requires 0 <= i < |apps| => EntryOf(apps[i]))
  }

  // ---------------------------------------------------------------------
  // The component state of `useStats`.

  class StatsView {
    var loading: bool
    var playerStats: Option<PlayerCard>
    var matchHistory: seq<HistoryEntry>

    constructor ()
      ensures loading && playerStats == None && matchHistory == []
    {
      loading := true;
      playerStats := None;
      matchHistory := [];
    }

    /** `fetchMyStats` with the two queries as inputs: `player` is the
        linked player row (None when there is none) and `apps` the data of
        the appearances query (None when the query returned no data, so
        that reading its length throws and the handler swallows it). */
    method FetchMyStats(player: Option<Player>, apps: Option<seq<Appearance>>)
      modifies this
      ensures !loading
      ensures player.None? || apps.None? ==>
        playerStats == old(playerStats) && matchHistory == old(matchHistory)
      ensures player.Some? && apps.Some? ==>
        && playerStats == Some(PlayerCard(player.value, TeamName(player.value.memberships), StatsFor(apps.value)))
        && matchHistory == MatchHistory(apps.value)
    {
      loading := true;
      if player.None? {
        loading := false;
        return;
      }
      if apps.None? {
        loading := false;
        return;
      }
      var a := apps.value;
      var totalApps := |a|;
      var totalGoals := TotalGoals(a);
      var totalAssists := TotalAssists(a);
      var totalMotm := TotalMotm(a);
      var xp := ComputeXp(a);
      var level := Level(xp);
      var progress := Progress(xp);
      var overall := Overall(totalGoals, totalMotm, totalApps);
      var stats := PlayerStats(totalApps, totalGoals, totalAssists, totalMotm, xp, level, progress, overall);
      playerStats := Some(PlayerCard(player.value, TeamName(player.value.memberships), stats));
      matchHistory := MatchHistory(a);
      loading := false;
    }

    /** `fetchMyStats` as the file has it: `useUser()` exposes no `user`,
        so reading `user.value` throws before any query is sent; the
        handler swallows the error and only `loading` changes, whatever the
        player and appearance data would have been. */
    method FetchMyStatsAsWritten(player: Option<Player>, apps: Option<seq<Appearance>>)
      modifies this
      ensures !loading
      ensures playerStats == old(playerStats) && matchHistory == old(matchHistory)
    {
      loading := true;
      // `user.value` throws a TypeError here; the `finally` block runs.
      loading := false;
    }
  }
}
