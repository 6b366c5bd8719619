/**
 * The stat compiler: from a first-shot-data snapshot it drops the preseason
 * games, credits each game's first score and first shot attempt to the player
 * they name, and packages every rostered player's counters into rows, keeping
 * the rows with any activity, sorted by first scores, highest first.
 */
module StatCompiler {
  import opened Outcomes
  import opened Seqs
  import opened Types
  import GameCollector

  /* Where a player sits: the team's index and the player's index in its roster. */

  datatype Loc = Loc(team: nat, slot: nat)

  predicate ValidLoc(teams: seq<Team>, loc: Loc)
  {
    loc.team < |teams| && loc.slot < |teams[loc.team].roster|
  }

  /** `a` comes before `b` in the team-then-roster order of the search. */
  predicate Before(a: Loc, b: Loc)
  {
    a.team < b.team || (a.team == b.team && a.slot < b.slot)
  }

  function PlayerId(p: Player): string
  {
    p.id
  }

  /**
   * The player the search finds: the first with that id, teams in order and
   * each roster in order; nothing when no rostered player has it.
   */
  function LocatePlayer(teams: seq<Team>, id: string): (r: Option<Loc>)
    ensures r.Some? ==> ValidLoc(teams, r.value) && teams[r.value.team].roster[r.value.slot].id == id
    ensures r.Some? ==> forall t, s :: 0 <= t < |teams| && 0 <= s < |teams[t].roster| && Before(Loc(t, s), r.value) ==>
      teams[t].roster[s].id != id
    ensures r.None? ==> forall t, s :: 0 <= t < |teams| && 0 <= s < |teams[t].roster| ==> teams[t].roster[s].id != id
  {
    if teams == [] then None
    else match FirstWithId(teams[0].roster, PlayerId, id)
      case Some(s) => Some(Loc(0, s))
      case None =>
        match LocatePlayer(teams[1..], id)
        case None => None
        case Some(l) => Some(Loc(l.team + 1, l.slot))
  }

  /** `a` is `b` except, at most, for the players' bet counters. */
  predicate SameButStats(a: seq<Team>, b: seq<Team>)
  {
    && |a| == |b|
    && forall t :: 0 <= t < |a| ==>
      && a[t] == b[t].(roster := a[t].roster)
      && |a[t].roster| == |b[t].roster|
      && forall s :: 0 <= s < |a[t].roster| ==> a[t].roster[s] == b[t].roster[s].(betStats := a[t].roster[s].betStats)
  }

  lemma SameButStatsTrans(a: seq<Team>, b: seq<Team>, c: seq<Team>)
    requires SameButStats(a, b) && SameButStats(b, c)
    ensures SameButStats(a, c)
  {
  }

  lemma {:induction false} IndexSameIds(a: seq<Player>, b: seq<Player>, id: string)
    requires |a| == |b| && forall s :: 0 <= s < |a| ==> a[s].id == b[s].id
    ensures FirstWithId(a, PlayerId, id) == FirstWithId(b, PlayerId, id)
  {
    if a != [] {
      IndexSameIds(a[1..], b[1..], id);
    }
  }

  /** The search depends on ids alone, so changing counters never moves what it finds. */
  lemma {:induction false} LocateSameButStats(a: seq<Team>, b: seq<Team>, id: string)
    requires SameButStats(a, b)
    ensures LocatePlayer(a, id) == LocatePlayer(b, id)
  {
    if a != [] {
      IndexSameIds(a[0].roster, b[0].roster, id);
      assert SameButStats(a[1..], b[1..]) by {
        forall t | 0 <= t < |a| - 1 ensures a[1..][t] == a[t + 1] && b[1..][t] == b[t + 1] { }
      }
      LocateSameButStats(a[1..], b[1..], id);
    }
  }

  function PlayerAt(teams: seq<Team>, loc: Loc): Player
    requires ValidLoc(teams, loc)
  {
    teams[loc.team].roster[loc.slot]
  }

  /** The write through the pointer the search returns: one player replaced, in place. */
  function SetPlayer(teams: seq<Team>, loc: Loc, p: Player): seq<Team>
    requires ValidLoc(teams, loc)
  {
    teams[loc.team := teams[loc.team].(roster := teams[loc.team].roster[loc.slot := p])]
  }

  /* Counters */

  /** A `uint8` counter after `n` increments, each wrapping 255 around to 0. */
  function IncN(x: uint8, n: nat): uint8
  {
    if n == 0 then x else Inc8(IncN(x, n - 1))
  }

  /** `n` wrapping increments add `n` modulo 256. */
  lemma {:induction false} IncNWraps(x: uint8, n: nat)
    ensures IncN(x, n) as int == (x as int + n) % 256
  {
    if n > 0 {
      IncNWraps(x, n - 1);
      var y := x as int + n - 1;
      assert (y % 256 + 1) % 256 == (y + 1) % 256;
    }
  }

  /** A counter after `count` increments when `credited`, untouched otherwise. */
  function Tallied(x: uint8, credited: bool, count: nat): uint8
  {
    if credited then IncN(x, count) else x
  }

  /* Crediting the first score */

  predicate FirstScoresCreditable(games: seq<Game>)
  {
    forall i :: 0 <= i < |games| ==> Creditable(games[i].trackedEvents.firstScore)
  }

  lemma {:induction false} FirstScoresPrefix(games: seq<Game>)
    requires FirstScoresCreditable(games) && games != []
    ensures FirstScoresCreditable(games[..|games| - 1])
    ensures Creditable(games[|games| - 1].trackedEvents.firstScore)
  {
    var front := games[..|games| - 1];
    forall i | 0 <= i < |front| ensures Creditable(front[i].trackedEvents.firstScore) {
      assert front[i] == games[i];
    }
  }

  /** Game `g` credits its first score to player id `pid`. */
  predicate ScoresFirst(g: Game, pid: string)
  {
    var fs := g.trackedEvents.firstScore;
    Present(fs) && |fs.participants| > 0 && CreditedAthlete(fs) == pid
  }

  function CountFirstScores(games: seq<Game>, pid: string): nat
  {
    if games == [] then 0
    else CountFirstScores(games[..|games| - 1], pid) + (if ScoresFirst(games[|games| - 1], pid) then 1 else 0)
  }

  function WithFirstPoint(p: Player): Player
  {
    p.(betStats := p.betStats.(firstPointsMade := Inc8(p.betStats.firstPointsMade)))
  }

  /** One pass of `calculateFirstScore`'s loop. */
  function CreditFirstScore(teams: seq<Team>, g: Game): seq<Team>
    requires Creditable(g.trackedEvents.firstScore)
  {
    var fs := g.trackedEvents.firstScore;
    if !Present(fs) then teams
    else match LocatePlayer(teams, CreditedAthlete(fs))
      case None => teams
      case Some(loc) => SetPlayer(teams, loc, WithFirstPoint(PlayerAt(teams, loc)))
  }

  /** One pass changes bet counters and nothing else. */
  lemma CreditFirstScoreFrame(teams: seq<Team>, g: Game)
    requires Creditable(g.trackedEvents.firstScore)
    ensures SameButStats(CreditFirstScore(teams, g), teams)
  {
  }

  /**
   * One pass on one player: a game without a first score, or whose scorer is on
   * no roster, changes nothing; otherwise exactly the first player with the
   * scorer's id gains one first score.
   */
  lemma CreditFirstScoreAt(teams: seq<Team>, g: Game, t: nat, s: nat)
    requires Creditable(g.trackedEvents.firstScore)
    requires t < |teams| && s < |teams[t].roster|
    ensures |CreditFirstScore(teams, g)| == |teams| && s < |CreditFirstScore(teams, g)[t].roster|
    ensures CreditFirstScore(teams, g)[t].roster[s] ==
      if ScoresFirst(g, teams[t].roster[s].id) && LocatePlayer(teams, teams[t].roster[s].id) == Some(Loc(t, s))
      then WithFirstPoint(teams[t].roster[s])
      else teams[t].roster[s]
  {
  }

  /** A game with no first score, or one credited to an id on no roster, changes nothing. */
  lemma CreditFirstScoreSkips(teams: seq<Team>, g: Game)
    requires Creditable(g.trackedEvents.firstScore)
    requires !Present(g.trackedEvents.firstScore) || LocatePlayer(teams, CreditedAthlete(g.trackedEvents.firstScore)).None?
    ensures CreditFirstScore(teams, g) == teams
  {
  }

  function FoldFirstScore(teams: seq<Team>, games: seq<Game>): seq<Team>
    requires FirstScoresCreditable(games)
  {
    if games == [] then teams
    else CreditFirstScore(FoldFirstScore(teams, games[..|games| - 1]), games[|games| - 1])
  }

  /** `calculateFirstScore` changes bet counters and nothing else. */
  lemma {:induction false} FirstScoreFrame(teams: seq<Team>, games: seq<Game>)
    requires FirstScoresCreditable(games)
    ensures SameButStats(FoldFirstScore(teams, games), teams)
  {
    if games != [] {
      var front := games[..|games| - 1];
      FirstScoresPrefix(games);
      FirstScoreFrame(teams, front);
      var m := FoldFirstScore(teams, front);
      CreditFirstScoreFrame(m, games[|games| - 1]);
      SameButStatsTrans(CreditFirstScore(m, games[|games| - 1]), m, teams);
    }
  }

  /** One more game carries a player's first-score tally forward. */
  lemma FirstScoreStep(teams: seq<Team>, m: seq<Team>, g: Game, t: nat, s: nat, count: nat)
    requires Creditable(g.trackedEvents.firstScore)
    requires SameButStats(m, teams)
    requires t < |teams| && s < |teams[t].roster|
    requires
      var p := teams[t].roster[s];
      m[t].roster[s] == p.(betStats := p.betStats.(firstPointsMade :=
        Tallied(p.betStats.firstPointsMade, LocatePlayer(teams, p.id) == Some(Loc(t, s)), count)))
    ensures |CreditFirstScore(m, g)| == |teams| && s < |CreditFirstScore(m, g)[t].roster|
    ensures
      var p := teams[t].roster[s];
      CreditFirstScore(m, g)[t].roster[s] == p.(betStats := p.betStats.(firstPointsMade :=
        Tallied(p.betStats.firstPointsMade, LocatePlayer(teams, p.id) == Some(Loc(t, s)), count + if ScoresFirst(g, p.id) then 1 else 0)))
  {
    var p, q := teams[t].roster[s], m[t].roster[s];
    assert q.id == p.id;
    LocateSameButStats(m, teams, p.id);
    CreditFirstScoreAt(m, g, t, s);
    if LocatePlayer(teams, p.id) == Some(Loc(t, s)) && ScoresFirst(g, p.id) {
      assert CreditFirstScore(m, g)[t].roster[s] == WithFirstPoint(q);
      assert IncN(p.betStats.firstPointsMade, count + 1) == Inc8(IncN(p.betStats.firstPointsMade, count));
    } else {
      assert CreditFirstScore(m, g)[t].roster[s] == q;
    }
  }

  /**
   * After `calculateFirstScore`, the first player with a given id has gained one
   * first score per game scored first by that id, and nothing else of it has
   * changed; any other player with that id is untouched.
   */
  lemma {:induction false} FirstScoreTally(teams: seq<Team>, games: seq<Game>, t: nat, s: nat)
    requires FirstScoresCreditable(games)
    requires t < |teams| && s < |teams[t].roster|
    ensures |FoldFirstScore(teams, games)| == |teams| && s < |FoldFirstScore(teams, games)[t].roster|
    ensures
      var p := teams[t].roster[s];
      FoldFirstScore(teams, games)[t].roster[s] == p.(betStats := p.betStats.(firstPointsMade :=
        Tallied(p.betStats.firstPointsMade, LocatePlayer(teams, p.id) == Some(Loc(t, s)), CountFirstScores(games, p.id))))
  {
    if games != [] {
      var front, last := games[..|games| - 1], games[|games| - 1];
      FirstScoresPrefix(games);
      FirstScoreTally(teams, front, t, s);
      FirstScoreFrame(teams, front);
      FirstScoreStep(teams, FoldFirstScore(teams, front), last, t, s, CountFirstScores(front, teams[t].roster[s].id));
    }
  }

  /* Crediting the first shot attempt */

  predicate FirstShotsCreditable(games: seq<Game>)
  {
    forall i :: 0 <= i < |games| ==> Creditable(games[i].trackedEvents.firstShotAttempt)
  }

  lemma {:induction false} FirstShotsPrefix(games: seq<Game>)
    requires FirstShotsCreditable(games) && games != []
    ensures FirstShotsCreditable(games[..|games| - 1])
    ensures Creditable(games[|games| - 1].trackedEvents.firstShotAttempt)
  {
    var front := games[..|games| - 1];
    forall i | 0 <= i < |front| ensures Creditable(front[i].trackedEvents.firstShotAttempt) {
      assert front[i] == games[i];
    }
  }

  /** Game `g` credits its first shot attempt to player id `pid`. */
  predicate ShootsFirst(g: Game, pid: string)
  {
    var fsa := g.trackedEvents.firstShotAttempt;
    Present(fsa) && |fsa.participants| > 0 && CreditedAthlete(fsa) == pid
  }

  /** ... and that first attempt is flagged as a scoring play. */
  predicate ScoresOnFirstShot(g: Game, pid: string)
  {
    ShootsFirst(g, pid) && g.trackedEvents.firstShotAttempt.scoringPlay
  }

  function CountFirstShots(games: seq<Game>, pid: string): nat
  {
    if games == [] then 0
    else CountFirstShots(games[..|games| - 1], pid) + (if ShootsFirst(games[|games| - 1], pid) then 1 else 0)
  }

  function CountScoringFirstShots(games: seq<Game>, pid: string): nat
  {
    if games == [] then 0
    else CountScoringFirstShots(games[..|games| - 1], pid) + (if ScoresOnFirstShot(games[|games| - 1], pid) then 1 else 0)
  }

  function WithFirstShot(p: Player, scored: bool): Player
  {
    var attempted := p.betStats.(firstShotAttempts := Inc8(p.betStats.firstShotAttempts));
    p.(betStats := if scored then attempted.(scoreOnFirstAttempt := Inc8(attempted.scoreOnFirstAttempt)) else attempted)
  }

  /** One pass of `calculateFirstShotAttempt`'s loop. */
  function CreditFirstShot(teams: seq<Team>, g: Game): seq<Team>
    requires Creditable(g.trackedEvents.firstShotAttempt)
  {
    var fsa := g.trackedEvents.firstShotAttempt;
    if !Present(fsa) then teams
    else match LocatePlayer(teams, CreditedAthlete(fsa))
      case None => teams
      case Some(loc) => SetPlayer(teams, loc, WithFirstShot(PlayerAt(teams, loc), fsa.scoringPlay))
  }

  lemma CreditFirstShotFrame(teams: seq<Team>, g: Game)
    requires Creditable(g.trackedEvents.firstShotAttempt)
    ensures SameButStats(CreditFirstShot(teams, g), teams)
  {
  }

  /**
   * One pass on one player: exactly the first player with the shooter's id gains
   * one first shot attempt, and one score on first attempt when the play scored.
   */
  lemma CreditFirstShotAt(teams: seq<Team>, g: Game, t: nat, s: nat)
    requires Creditable(g.trackedEvents.firstShotAttempt)
    requires t < |teams| && s < |teams[t].roster|
    ensures |CreditFirstShot(teams, g)| == |teams| && s < |CreditFirstShot(teams, g)[t].roster|
    ensures CreditFirstShot(teams, g)[t].roster[s] ==
      if ShootsFirst(g, teams[t].roster[s].id) && LocatePlayer(teams, teams[t].roster[s].id) == Some(Loc(t, s))
      then WithFirstShot(teams[t].roster[s], g.trackedEvents.firstShotAttempt.scoringPlay)
      else teams[t].roster[s]
  {
  }

  /** A game with no first shot attempt, or one credited to an id on no roster, changes nothing. */
  lemma CreditFirstShotSkips(teams: seq<Team>, g: Game)
    requires Creditable(g.trackedEvents.firstShotAttempt)
    requires !Present(g.trackedEvents.firstShotAttempt) || LocatePlayer(teams, CreditedAthlete(g.trackedEvents.firstShotAttempt)).None?
    ensures CreditFirstShot(teams, g) == teams
  {
  }

  function FoldFirstShot(teams: seq<Team>, games: seq<Game>): seq<Team>
    requires FirstShotsCreditable(games)
  {
    if games == [] then teams
    else CreditFirstShot(FoldFirstShot(teams, games[..|games| - 1]), games[|games| - 1])
  }

  /** `calculateFirstShotAttempt` changes bet counters and nothing else. */
  lemma {:induction false} FirstShotFrame(teams: seq<Team>, games: seq<Game>)
    requires FirstShotsCreditable(games)
    ensures SameButStats(FoldFirstShot(teams, games), teams)
  {
    if games != [] {
      var front := games[..|games| - 1];
      FirstShotsPrefix(games);
      FirstShotFrame(teams, front);
      var m := FoldFirstShot(teams, front);
      CreditFirstShotFrame(m, games[|games| - 1]);
      SameButStatsTrans(CreditFirstShot(m, games[|games| - 1]), m, teams);
    }
  }

  /** One more game carries a player's first-shot tallies forward. */
  lemma FirstShotStep(teams: seq<Team>, m: seq<Team>, g: Game, t: nat, s: nat, attempts: nat, scores: nat)
    requires Creditable(g.trackedEvents.firstShotAttempt)
    requires SameButStats(m, teams)
    requires t < |teams| && s < |teams[t].roster|
    requires
      var p := teams[t].roster[s];
      var first := LocatePlayer(teams, p.id) == Some(Loc(t, s));
      m[t].roster[s] == p.(betStats := p.betStats.(
        firstShotAttempts := Tallied(p.betStats.firstShotAttempts, first, attempts),
        scoreOnFirstAttempt := Tallied(p.betStats.scoreOnFirstAttempt, first, scores)))
    ensures |CreditFirstShot(m, g)| == |teams| && s < |CreditFirstShot(m, g)[t].roster|
    ensures
      var p := teams[t].roster[s];
      var first := LocatePlayer(teams, p.id) == Some(Loc(t, s));
      CreditFirstShot(m, g)[t].roster[s] == p.(betStats := p.betStats.(
        firstShotAttempts := Tallied(p.betStats.firstShotAttempts, first, attempts + if ShootsFirst(g, p.id) then 1 else 0),
        scoreOnFirstAttempt := Tallied(p.betStats.scoreOnFirstAttempt, first, scores + if ScoresOnFirstShot(g, p.id) then 1 else 0)))
  {
    var p := teams[t].roster[s];
    assert m[t].roster[s].id == p.id;
    LocateSameButStats(m, teams, p.id);
    CreditFirstShotAt(m, g, t, s);
  }

  /**
   * After `calculateFirstShotAttempt`, the first player with a given id has
   * gained one attempt per game whose first shot was theirs and one score per
   * such shot that scored, and nothing else of it has changed; any other player
   * with that id is untouched.
   */
  lemma {:induction false} FirstShotTally(teams: seq<Team>, games: seq<Game>, t: nat, s: nat)
    requires FirstShotsCreditable(games)
    requires t < |teams| && s < |teams[t].roster|
    ensures |FoldFirstShot(teams, games)| == |teams| && s < |FoldFirstShot(teams, games)[t].roster|
    ensures
      var p := teams[t].roster[s];
      var first := LocatePlayer(teams, p.id) == Some(Loc(t, s));
      FoldFirstShot(teams, games)[t].roster[s] == p.(betStats := p.betStats.(
        firstShotAttempts := Tallied(p.betStats.firstShotAttempts, first, CountFirstShots(games, p.id)),
        scoreOnFirstAttempt := Tallied(p.betStats.scoreOnFirstAttempt, first, CountScoringFirstShots(games, p.id))))
  {
    if games != [] {
      var front, last := games[..|games| - 1], games[|games| - 1];
      var pid := teams[t].roster[s].id;
      FirstShotsPrefix(games);
      FirstShotTally(teams, front, t, s);
      FirstShotFrame(teams, front);
      FirstShotStep(teams, FoldFirstShot(teams, front), last, t, s, CountFirstShots(front, pid), CountScoringFirstShots(front, pid));
    }
  }

  /* Both passes */

  predicate EventsCreditable(games: seq<Game>)
  {
    FirstScoresCreditable(games) && FirstShotsCreditable(games)
  }

  /** The rosters after `calculateFirstScore` and then `calculateFirstShotAttempt`. */
  function Aggregate(teams: seq<Team>, games: seq<Game>): seq<Team>
    requires EventsCreditable(games)
  {
    FoldFirstShot(FoldFirstScore(teams, games), games)
  }

  /** Both passes together change bet counters and nothing else. */
  lemma AggregateFrame(teams: seq<Team>, games: seq<Game>)
    requires EventsCreditable(games)
    ensures SameButStats(Aggregate(teams, games), teams)
  {
    FirstScoreFrame(teams, games);
    FirstShotFrame(FoldFirstScore(teams, games), games);
    SameButStatsTrans(Aggregate(teams, games), FoldFirstScore(teams, games), teams);
  }

  /** Both passes on one player, counted in increments. */
  lemma AggregateCounts(teams: seq<Team>, games: seq<Game>, t: nat, s: nat)
    requires EventsCreditable(games)
    requires t < |teams| && s < |teams[t].roster|
    ensures |Aggregate(teams, games)| == |teams| && s < |Aggregate(teams, games)[t].roster|
    ensures
      var p := teams[t].roster[s];
      var first := LocatePlayer(teams, p.id) == Some(Loc(t, s));
      Aggregate(teams, games)[t].roster[s] == p.(betStats := p.betStats.(
        firstPointsMade := Tallied(p.betStats.firstPointsMade, first, CountFirstScores(games, p.id)),
        firstShotAttempts := Tallied(p.betStats.firstShotAttempts, first, CountFirstShots(games, p.id)),
        scoreOnFirstAttempt := Tallied(p.betStats.scoreOnFirstAttempt, first, CountScoringFirstShots(games, p.id))))
  {
    var p := teams[t].roster[s];
    var m := FoldFirstScore(teams, games);
    FirstScoreTally(teams, games, t, s);
    FirstShotTally(m, games, t, s);
    assert m[t].roster[s].id == p.id;
    assert LocatePlayer(m, p.id) == LocatePlayer(teams, p.id) by {
      FirstScoreFrame(teams, games);
      LocateSameButStats(m, teams, p.id);
    }
  }

  /**
   * Both passes together: the first player with each id holds its old counters
   * plus its games' first scores, first attempts and scores on first attempt,
   * each modulo 256, with the tip-off counter untouched; any other player is
   * unchanged.
   */
  lemma AggregateTally(teams: seq<Team>, games: seq<Game>, t: nat, s: nat)
    requires EventsCreditable(games)
    requires t < |teams| && s < |teams[t].roster|
    ensures |Aggregate(teams, games)| == |teams| && s < |Aggregate(teams, games)[t].roster|
    ensures
      var p := teams[t].roster[s];
      var q := Aggregate(teams, games)[t].roster[s];
      if LocatePlayer(teams, p.id) == Some(Loc(t, s)) then
        && q == p.(betStats := q.betStats)
        && q.betStats.tipOffWinPer == p.betStats.tipOffWinPer
        && q.betStats.firstPointsMade as int == (p.betStats.firstPointsMade as int + CountFirstScores(games, p.id)) % 256
        && q.betStats.firstShotAttempts as int == (p.betStats.firstShotAttempts as int + CountFirstShots(games, p.id)) % 256
        && q.betStats.scoreOnFirstAttempt as int == (p.betStats.scoreOnFirstAttempt as int + CountScoringFirstShots(games, p.id)) % 256
      else q == p
  {
    var p := teams[t].roster[s];
    AggregateCounts(teams, games, t, s);
    IncNWraps(p.betStats.firstPointsMade, CountFirstScores(games, p.id));
    IncNWraps(p.betStats.firstShotAttempts, CountFirstShots(games, p.id));
    IncNWraps(p.betStats.scoreOnFirstAttempt, CountScoringFirstShots(games, p.id));
  }

  /* Packaging */

  /** One output row: a player, its team and its three counters. */
  datatype PackagedPlayer = PackagedPlayer(
    id: string,
    name: string,
    team: string,
    firstToScore: uint8,
    firstShotAttempts: uint8,
    scoreOnFirstAttempt: uint8,
    headShotHref: string,
    teamLogoHref: string)

  /** `packageData` reads `Logos[0]` of every team it packages a player of. */
  predicate LogosWhereNeeded(teams: seq<Team>)
  {
    forall t :: 0 <= t < |teams| ==> |teams[t].roster| > 0 ==> |teams[t].logos| > 0
  }

  function Pack(t: Team, p: Player): (pp: PackagedPlayer)
    requires |t.logos| > 0
  {
    PackagedPlayer(
      p.id, p.fullName, t.name,
      p.betStats.firstPointsMade, p.betStats.firstShotAttempts, p.betStats.scoreOnFirstAttempt,
      p.headshot.href, t.logos[0].href)
  }

  function PackageTeam(t: Team): seq<PackagedPlayer>
    requires |t.roster| > 0 ==> |t.logos| > 0
  {
    seq(|t.roster|, j requires 0 <= j < |t.roster| => Pack(t, t.roster[j]))
  }

  /** One row per rostered player, teams in order and each roster in order. */
  function Package(teams: seq<Team>): seq<PackagedPlayer>
    requires LogosWhereNeeded(teams)
  {
    if teams == [] then []
    else Package(teams[..|teams| - 1]) + PackageTeam(teams[|teams| - 1])
  }

  function RosterCount(teams: seq<Team>): nat
  {
    if teams == [] then 0 else RosterCount(teams[..|teams| - 1]) + |teams[|teams| - 1].roster|
  }

  lemma {:induction false} PackageLength(teams: seq<Team>)
    requires LogosWhereNeeded(teams)
    ensures |Package(teams)| == RosterCount(teams)
  {
    if teams != [] {
      PackageLength(teams[..|teams| - 1]);
    }
  }

  /** Player `s` of team `t` is packaged, with its team's name and logo, right after the players of the teams before. */
  lemma {:induction false} PackageAt(teams: seq<Team>, t: nat, s: nat)
    requires LogosWhereNeeded(teams)
    requires t < |teams| && s < |teams[t].roster|
    ensures RosterCount(teams[..t]) + s < |Package(teams)|
    ensures Package(teams)[RosterCount(teams[..t]) + s] == Pack(teams[t], teams[t].roster[s])
  {
    var n := |teams| - 1;
    var front := teams[..n];
    PackageLength(teams);
    PackageLength(front);
    if t == n {
      assert teams[..t] == front;
    } else {
      assert front[..t] == teams[..t];
      PackageAt(front, t, s);
    }
  }

  /** The nested loop of `packageData`. */
  method PackageData(teams: seq<Team>) returns (r: seq<PackagedPlayer>)
    requires LogosWhereNeeded(teams)
    ensures r == Package(teams)
  {
    r := [];
    for ti := 0 to |teams|
      invariant r == Package(teams[..ti])
    {
      var t := teams[ti];
      assert teams[..ti + 1][..ti] == teams[..ti];
      for si := 0 to |t.roster|
        invariant r == Package(teams[..ti]) + PackageTeam(t)[..si]
      {
        r := r + [Pack(t, t.roster[si])];
      }
    }
    assert teams[..|teams|] == teams;
  }

  /* Filtering and sorting the rows */

  /** A row is kept when any of its three counters is non-zero. */
  predicate HasActivity(pp: PackagedPlayer)
  {
    !(pp.scoreOnFirstAttempt == 0 && pp.firstShotAttempts == 0 && pp.firstToScore == 0)
  }

  /** The filter loop of `CalculateAndPackage`. */
  method DropInactive(all: seq<PackagedPlayer>) returns (kept: seq<PackagedPlayer>)
    ensures kept == Filter(HasActivity, all)
  {
    kept := [];
    for i := 0 to |all|
      invariant kept == Filter(HasActivity, all[..i])
    {
      assert all[..i + 1][..i] == all[..i];
      if !HasActivity(all[i]) {
        continue;
      }
      kept := kept + [all[i]];
    }
    assert all[..|all|] == all;
  }

  /** Highest first-score count first. */
  predicate SortedDesc(s: seq<PackagedPlayer>)
  {
    forall i, j :: 0 <= i < j < |s| ==> s[i].firstToScore >= s[j].firstToScore
  }

  function InsertDesc(x: PackagedPlayer, s: seq<PackagedPlayer>): seq<PackagedPlayer>
  {
    if s == [] || x.firstToScore >= s[0].firstToScore then [x] + s
    else [s[0]] + InsertDesc(x, s[1..])
  }

  /** A reference ordering by first scores; the library sort may order ties differently. */
  function SortDesc(s: seq<PackagedPlayer>): seq<PackagedPlayer>
  {
    if s == [] then [] else InsertDesc(s[0], SortDesc(s[1..]))
  }

  /** Insertion adds the row and keeps every other. */
  lemma {:induction false} InsertDescPermutes(x: PackagedPlayer, s: seq<PackagedPlayer>)
    ensures multiset(InsertDesc(x, s)) == multiset(s) + multiset{x}
  {
    if s != [] && x.firstToScore < s[0].firstToScore {
      InsertDescPermutes(x, s[1..]);
      assert s == [s[0]] + s[1..];
    }
  }

  /** Insertion into a sorted list keeps it sorted. */
  lemma {:induction false} InsertDescSorted(x: PackagedPlayer, s: seq<PackagedPlayer>)
    requires SortedDesc(s)
    ensures SortedDesc(InsertDesc(x, s))
  {
    if s != [] && x.firstToScore < s[0].firstToScore {
      InsertDescSorted(x, s[1..]);
      InsertDescPermutes(x, s[1..]);
      var rest := InsertDesc(x, s[1..]);
      forall k | 0 <= k < |rest| ensures s[0].firstToScore >= rest[k].firstToScore {
        assert rest[k] in multiset(s[1..]) + multiset{x};
      }
    }
  }

  /** The reference ordering is sorted and holds exactly the input rows. */
  lemma {:induction false} SortDescCorrect(s: seq<PackagedPlayer>)
    ensures SortedDesc(SortDesc(s))
    ensures multiset(SortDesc(s)) == multiset(s)
  {
    if s != [] {
      SortDescCorrect(s[1..]);
      InsertDescSorted(s[0], SortDesc(s[1..]));
      InsertDescPermutes(s[0], SortDesc(s[1..]));
      assert s == [s[0]] + s[1..];
    }
  }

  /* Looking games up */

  /** `FindGame`: the first game with that id, or an error when there is none. */
  method FindGame(games: seq<Game>, id: string) returns (r: Result<Game>)
    ensures r == match FirstWithId(games, GameCollector.GameId, id)
      case Some(i) => Ok(games[i])
      case None => Err("game not found")
  {
    for i := 0 to |games|
      invariant forall j :: 0 <= j < i ==> games[j].id != id
    {
      if games[i].id == id {
        return Ok(games[i]);
      }
    }
    return Err("game not found");
  }

  /** `FindGameInFsd`: the same search over the snapshot's games. */
  method FindGameInFsd(fsd: FirstShotData, id: string) returns (r: Result<Game>)
    ensures r == match FirstWithId(fsd.games, GameCollector.GameId, id)
      case Some(i) => Ok(fsd.games[i])
      case None => Err("game not found")
    ensures r.Err? <==> forall g :: g in fsd.games ==> g.id != id
  {
    r := FindGame(fsd.games, id);
  }

  /**
   * A preseason game, wherever it sits in the snapshot, is dropped before any
   * counting, so it contributes nothing to any counter.
   */
  lemma PreseasonDropped(before: seq<Game>, g: Game, after: seq<Game>)
    requires IsPreseason(g)
    ensures Filter(NotPreseason, before + [g] + after) == Filter(NotPreseason, before + after)
  {
    FilterAppend(NotPreseason, before + [g], after);
    FilterAppend(NotPreseason, before, [g]);
    FilterAppend(NotPreseason, before, after);
    assert Filter(NotPreseason, [g]) == [] by {
      assert [g][..0] == [];
    }
  }

  /* The calculator */

  class StatCalculator {
    var fsd: FirstShotData

    /** `NewStatCalculator`: keeps the snapshot with its preseason games dropped, in order. */
    constructor (data: FirstShotData)
      ensures fsd == data.(games := Filter(NotPreseason, data.games))
    {
      var filteredGames: seq<Game> := [];
      for i := 0 to |data.games|
        invariant filteredGames == Filter(NotPreseason, data.games[..i])
      {
        var g := data.games[i];
        assert data.games[..i + 1][..i] == data.games[..i];
        if g.season.slug == "preseason" {
          continue;
        }
        filteredGames := filteredGames + [g];
      }
      assert data.games[..|data.games|] == data.games;
      fsd := data.(games := filteredGames);
      new;
      var _ := FindGameInFsd(fsd, "401705613");
    }

    /** `findPlayerById`: the location of the player the search finds, or an error naming the id. */
    method FindPlayerById(id: string) returns (r: Result<Loc>)
      ensures r == match LocatePlayer(fsd.teams, id)
        case Some(loc) => Ok(loc)
        case None => Err("player " + id + " not found")
    {
      var teams := fsd.teams;
      for ti := 0 to |teams|
        invariant forall t, s :: 0 <= t < ti && 0 <= s < |teams[t].roster| ==> teams[t].roster[s].id != id
      {
        var roster := teams[ti].roster;
        for si := 0 to |roster|
          invariant forall s :: 0 <= s < si ==> roster[s].id != id
        {
          if roster[si].id == id {
            var found := LocatePlayer(teams, id);
            assert found.Some? && !Before(found.value, Loc(ti, si)) && !Before(Loc(ti, si), found.value);
            return Ok(Loc(ti, si));
          }
        }
      }
      return Err("player " + id + " not found");
    }

    /** `calculateFirstScore`: every game's first score credited in game order; it reports no error. */
    method CalculateFirstScore() returns (err: Option<string>)
      requires FirstScoresCreditable(fsd.games)
      modifies this
      ensures fsd == old(fsd).(teams := FoldFirstScore(old(fsd.teams), old(fsd.games)))
      ensures err == None
    {
      ghost var teams0 := fsd.teams;
      var games := fsd.games;
      for i := 0 to |games|
        invariant fsd == old(fsd).(teams := FoldFirstScore(teams0, games[..i]))
      {
        assert games[..i + 1][..i] == games[..i];
        var fs := games[i].trackedEvents.firstScore;
        assert Creditable(fs);
        if fs.id == "" {
          continue;
        }
        var playerId := fs.participants[0].athlete.id;
        var player := FindPlayerById(playerId);
        if player.Err? {
          continue;
        }
        var loc := player.value;
        fsd := fsd.(teams := SetPlayer(fsd.teams, loc, WithFirstPoint(PlayerAt(fsd.teams, loc))));
      }
      assert games[..|games|] == games;
      return None;
    }

    /** `calculateFirstShotAttempt`: every game's first shot attempt credited in game order; it reports no error. */
    method CalculateFirstShotAttempt() returns (err: Option<string>)
      requires FirstShotsCreditable(fsd.games)
      modifies this
      ensures fsd == old(fsd).(teams := FoldFirstShot(old(fsd.teams), old(fsd.games)))
      ensures err == None
    {
      ghost var teams0 := fsd.teams;
      var games := fsd.games;
      for i := 0 to |games|
        invariant fsd == old(fsd).(teams := FoldFirstShot(teams0, games[..i]))
      {
        assert games[..i + 1][..i] == games[..i];
        var fsa := games[i].trackedEvents.firstShotAttempt;
        assert Creditable(fsa);
        if fsa.id == "" {
          continue;
        }
        var playerId := fsa.participants[0].athlete.id;
        var player := FindPlayerById(playerId);
        if player.Err? {
          continue;
        }
        var loc := player.value;
        fsd := fsd.(teams := SetPlayer(fsd.teams, loc, WithFirstShot(PlayerAt(fsd.teams, loc), fsa.scoringPlay)));
      }
      assert games[..|games|] == games;
      return None;
    }

    /**
     * `CalculateAndPackage`: both passes over the rosters, then one row per
     * rostered player, the rows without activity dropped, the rest ordered by
     * first scores, highest first. It never fails.
     */
    method CalculateAndPackage() returns (r: Result<seq<PackagedPlayer>>)
      requires EventsCreditable(fsd.games)
      requires LogosWhereNeeded(fsd.teams)
      modifies this
      ensures fsd == old(fsd).(teams := Aggregate(old(fsd.teams), old(fsd.games)))
      ensures LogosWhereNeeded(fsd.teams)
      ensures r.Ok?
      ensures SortedDesc(r.value)
      ensures multiset(r.value) == multiset(Filter(HasActivity, Package(fsd.teams)))
      ensures forall pp :: pp in r.value <==> pp in Package(fsd.teams) && HasActivity(pp)
    {
      var err := CalculateFirstScore();
      match err {
        case Some(e) => return Err(e);
        case None =>
      }
      err := CalculateFirstShotAttempt();
      match err {
        case Some(e) => return Err(e);
        case None =>
      }
      AggregateFrame(old(fsd.teams), old(fsd.games));
      var allData := PackageData(fsd.teams);
      var filteredData := DropInactive(allData);
      SortDescCorrect(filteredData);
      r := Ok(SortDesc(filteredData));
      forall pp
        ensures pp in r.value <==> pp in allData && HasActivity(pp)
      {
        FilterCount(HasActivity, allData, pp);
        assert pp in r.value <==> pp in multiset(r.value);
      }
    }
  }
}
