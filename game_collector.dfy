/**
 * The game collector: which season to ask for, the window of days to fetch,
 * one scoreboard task per day, and one play-by-play task per eligible game whose
 * tracked events are merged back into the game list in place.
 *
 * Timestamps are whole seconds and `now` is a parameter. A provider fetch is a
 * function from its key to a `Result`, and the order in which the tasks' results
 * reach the single consumer is an arrival order over the task indices.
 */
module GameCollector {
  import opened Outcomes
  import opened Seqs
  import opened Types

  /** One calendar day, in seconds (no time zones, no daylight saving). */
  const Day: int := 86400

  /* Which season */

  /**
   * The season a run collects: from August on, the season that ends next year;
   * before August, the one that ends this year. Counting months from year 0,
   * the season is named by the year of the first July that is not before the
   * current month.
   */
  function SeasonYear(year: int, month: int): (season: int)
    requires 1 <= month <= 12
    ensures year * 12 + month <= season * 12 + 7 < year * 12 + month + 12
  {
    if month >= 8 then year + 1 else year
  }

  /* The season window */

  datatype TimeRange = TimeRange(start: int, end: int)

  /**
   * The effective end of the window: a nominal end that is still in the future
   * becomes "yesterday" (now minus one day); a past one is kept.
   */
  function ClampEnd(nominalEnd: int, now: int): (end: int)
    ensures end <= now
    ensures nominalEnd <= now ==> end == nominalEnd
    ensures nominalEnd > now ==> end == now - Day
  {
    if nominalEnd > now then now - Day else nominalEnd
  }

  /**
   * The season window from the season-info payload. A failed fetch, or a start or
   * end date that does not parse, is an error; the start is taken as parsed and
   * the end is clamped. `parse` stands for `time.Parse` with the provider's layout.
   * The payload's first league is read unconditionally, so it must exist.
   */
  function FetchSeasonInfo(fetched: Result<SeasonInfoPayload>, parse: string -> Option<int>, now: int): (r: Result<TimeRange>)
    requires fetched.Ok? ==> |fetched.value.leagues| > 0
    ensures fetched.Err? ==> r.Err?
    ensures fetched.Ok? ==>
      var info := fetched.value.leagues[0].seasonInfo;
      && (r.Ok? <==> parse(info.startDate).Some? && parse(info.endDate).Some?)
      && (r.Ok? ==> r.value.start == parse(info.startDate).value)
      && (r.Ok? ==> r.value.end == ClampEnd(parse(info.endDate).value, now))
    ensures r.Ok? ==> r.value.end <= now
  {
    match fetched
    case Err(e) => Err(e)
    case Ok(payload) =>
      var info := payload.leagues[0].seasonInfo;
      match parse(info.startDate)
      case None => Err("could not parse start date")
      case Some(startTime) =>
        match parse(info.endDate)
        case None => Err("could not parse end date")
        case Some(endTime) => Ok(TimeRange(startTime, ClampEnd(endTime, now)))
  }

  /* Day keys */

  /** The day keys of the half-open window [start, end): start, start + 1 day, ... while before end. */
  function DayKeys(start: int, end: int): seq<int>
    decreases end - start
  {
    if end > start then [start] + DayKeys(start + Day, end) else []
  }

  /**
   * Key `k` is `start + k` days, every key is before `end`, and one more day
   * would reach `end`: so an empty or inverted window yields no key.
   */
  lemma {:induction false} DayKeysShape(start: int, end: int)
    ensures forall k :: 0 <= k < |DayKeys(start, end)| ==> DayKeys(start, end)[k] == start + k * Day
    ensures forall k :: 0 <= k < |DayKeys(start, end)| ==> DayKeys(start, end)[k] < end
    ensures start + |DayKeys(start, end)| * Day >= end
    decreases end - start
  {
    if end > start {
      DayKeysShape(start + Day, end);
      var keys, rest := DayKeys(start, end), DayKeys(start + Day, end);
      assert keys == [start] + rest;
      forall k | 0 < k < |keys|
        ensures keys[k] == start + k * Day
      {
        assert keys[k] == rest[k - 1];
      }
    }
  }

  /** The window [2024-10-01, 2024-10-03), in seconds since the Unix epoch, has exactly two keys. */
  lemma TwoDayWindow()
    ensures DayKeys(1727740800, 1727913600) == [1727740800, 1727827200]
  {
    assert DayKeys(1727913600, 1727913600) == [];
    assert DayKeys(1727827200, 1727913600) == [1727827200];
  }

  /** The loop that lists one scoreboard key per day of the window. */
  method EnumerateDays(start: int, end: int) returns (eps: seq<int>)
    ensures eps == DayKeys(start, end)
  {
    var curr := start;
    eps := [];
    while end > curr
      invariant eps + DayKeys(curr, end) == DayKeys(start, end)
      decreases end - curr
    {
      eps := eps + [curr];
      curr := curr + Day;
    }
  }

  /* Scoreboards */

  /** A scoreboard event as a flat game: the first competition's play-by-play flag, when there is one, overrides the decoded one. */
  function Hoist(w: RawGameWrapper): (g: Game)
    ensures g.(playByPlay := w.game.playByPlay) == w.game
    ensures |w.competitions| > 0 ==> g.playByPlay == w.competitions[0].playByPlayAvailable
    ensures |w.competitions| == 0 ==> g == w.game
  {
    if |w.competitions| > 0 then w.game.(playByPlay := w.competitions[0].playByPlayAvailable) else w.game
  }

  /** What one day's task reports: no games for a failed fetch, else one game per event. */
  function ScoreboardGames(fetched: Result<SeasonGamesFetchPayload>): seq<Game>
  {
    match fetched
    case Err(_) => []
    case Ok(payload) => Map(Hoist, payload.events)
  }

  /** The body of one scoreboard task. */
  method ScoreboardTask(fetched: Result<SeasonGamesFetchPayload>) returns (games: seq<Game>)
    ensures fetched.Err? ==> games == []
    ensures fetched.Ok? ==> |games| == |fetched.value.events|
    ensures fetched.Ok? ==> forall i :: 0 <= i < |games| ==> games[i] == Hoist(fetched.value.events[i])
  {
    games := [];
    if fetched.Ok? {
      var events := fetched.value.events;
      for i := 0 to |events|
        invariant |games| == i
        invariant forall j :: 0 <= j < i ==> games[j] == Hoist(events[j])
      {
        games := games + [Hoist(events[i])];
      }
    }
  }

  /** The lists the day tasks report, in day order. */
  function DayLists(keys: seq<int>, fetch: int -> Result<SeasonGamesFetchPayload>): seq<seq<Game>>
  {
    Map((k: int) => ScoreboardGames(fetch(k)), keys)
  }

  method Flatten2DSlice<T>(s: seq<seq<T>>) returns (res: seq<T>)
    ensures res == Flatten(s)
  {
    res := [];
    for i := 0 to |s|
      invariant res == Flatten(s[..i])
    {
      assert s[..i + 1][..i] == s[..i];
      res := res + s[i];
    }
    assert s[..|s|] == s;
  }

  /**
   * One scoreboard task per day of [start, end), drained in arrival order and
   * flattened. Whatever the arrival order, the result holds exactly the games of
   * all days (with multiplicity); only their order depends on it.
   */
  method FetchSeasonGamesAsync(start: int, end: int, fetch: int -> Result<SeasonGamesFetchPayload>, order: seq<nat>)
    returns (games: seq<Game>)
    requires IsArrivalOrder(order, |DayKeys(start, end)|)
    ensures games == Flatten(Reorder(DayLists(DayKeys(start, end), fetch), order))
    ensures multiset(games) == multiset(Flatten(DayLists(DayKeys(start, end), fetch)))
  {
    var eps := EnumerateDays(start, end);
    ghost var lists := DayLists(eps, fetch);
    var mappedGames: seq<seq<Game>> := [];
    for i := 0 to |order|
      invariant mappedGames == Reorder(lists, order[..i])
    {
      var dayGames := ScoreboardTask(fetch(eps[order[i]]));
      assert dayGames == lists[order[i]] by {
        assert lists[order[i]] == ScoreboardGames(fetch(eps[order[i]]));
      }
      mappedGames := mappedGames + [dayGames];
    }
    assert order[..|order|] == order;
    games := Flatten2DSlice(mappedGames);
    ReorderPermutes(lists, order);
    FlattenPermutation(mappedGames, lists);
  }

  /** The games of a window's days, drained in the arrival order `order`. */
  function SeasonGames(window: TimeRange, fetch: int -> Result<SeasonGamesFetchPayload>, order: seq<nat>): seq<Game>
    requires IsArrivalOrder(order, |DayKeys(window.start, window.end)|)
  {
    Flatten(Reorder(DayLists(DayKeys(window.start, window.end), fetch), order))
  }

  /**
   * `collectSeasonGames`: the window, then the day tasks. Only a failure of the
   * season info is fatal; a failed day contributes no games.
   */
  method CollectSeasonGames(
    fetchedSeason: Result<SeasonInfoPayload>, parse: string -> Option<int>, now: int,
    fetchScoreboard: int -> Result<SeasonGamesFetchPayload>, order: seq<nat>)
    returns (r: Result<seq<Game>>)
    requires fetchedSeason.Ok? ==> |fetchedSeason.value.leagues| > 0
    requires
      var window := FetchSeasonInfo(fetchedSeason, parse, now);
      window.Ok? ==> IsArrivalOrder(order, |DayKeys(window.value.start, window.value.end)|)
    ensures r.Err? <==> FetchSeasonInfo(fetchedSeason, parse, now).Err?
    ensures r.Ok? ==> r.value == SeasonGames(FetchSeasonInfo(fetchedSeason, parse, now).value, fetchScoreboard, order)
    ensures r.Ok? ==>
      var window := FetchSeasonInfo(fetchedSeason, parse, now).value;
      multiset(r.value) == multiset(Flatten(DayLists(DayKeys(window.start, window.end), fetchScoreboard)))
  {
    var window := FetchSeasonInfo(fetchedSeason, parse, now);
    if window.Err? {
      return Err(window.msg);
    }
    var games := FetchSeasonGamesAsync(window.value.start, window.value.end, fetchScoreboard, order);
    return Ok(games);
  }

  /* Play-by-play tasks */

  /** A game gets a play-by-play task unless it is preseason or has no play-by-play. */
  predicate EligibleForPlays(g: Game)
  {
    !IsPreseason(g) && g.playByPlay
  }

  function GameId(g: Game): string
  {
    g.id
  }

  /** The ids the play-by-play tasks capture: one per eligible game, in list order. */
  function EligibleIds(games: seq<Game>): seq<string>
  {
    Map(GameId, Filter(EligibleForPlays, games))
  }

  /** An id gets a task exactly when some eligible game carries it. */
  lemma EligibleIdsMembership(games: seq<Game>, id: string)
    ensures id in EligibleIds(games) <==> exists k :: 0 <= k < |games| && EligibleForPlays(games[k]) && games[k].id == id
  {
    var eligible := Filter(EligibleForPlays, games);
    if id in EligibleIds(games) {
      var i :| 0 <= i < |eligible| && eligible[i].id == id;
      FilterCount(EligibleForPlays, games, eligible[i]);
    }
    if k :| 0 <= k < |games| && EligibleForPlays(games[k]) && games[k].id == id {
      FilterCount(EligibleForPlays, games, games[k]);
      var i :| 0 <= i < |eligible| && eligible[i] == games[k];
      assert EligibleIds(games)[i] == id;
    }
  }

  /** The loop that builds one play-by-play task per eligible game, capturing its id. */
  method PlayTasks(games: seq<Game>) returns (ids: seq<string>)
    ensures ids == EligibleIds(games)
  {
    ids := [];
    for i := 0 to |games|
      invariant ids == EligibleIds(games[..i])
    {
      assert games[..i + 1] == games[..i] + [games[i]];
      FilterAppend(EligibleForPlays, games[..i], [games[i]]);
      assert Filter(EligibleForPlays, [games[i]]) == if EligibleForPlays(games[i]) then [games[i]] else [] by {
        assert [games[i]][..0] == [];
      }
      if !EligibleForPlays(games[i]) {
        continue;
      }
      ids := ids + [games[i].id];
      assert Map(GameId, Filter(EligibleForPlays, games[..i]) + [games[i]]) == Map(GameId, Filter(EligibleForPlays, games[..i])) + [games[i].id];
    }
    assert games[..|games|] == games;
  }

  /** What a play-by-play task reports: the game id and the payload, empty when the fetch failed. */
  datatype PlayResult = PlayResult(gameId: string, gameData: GameDataFetchPayload)

  function FetchedPlays(fetched: Result<GameDataFetchPayload>): seq<Play>
  {
    if fetched.Ok? then fetched.value.plays else []
  }

  function PlayTaskResult(gameId: string, fetched: Result<GameDataFetchPayload>): PlayResult
  {
    PlayResult(gameId, GameDataFetchPayload(FetchedPlays(fetched)))
  }

  /** The task results in task order. */
  function PlayTaskResults(ids: seq<string>, fetch: string -> Result<GameDataFetchPayload>): seq<PlayResult>
  {
    Map((id: string) => PlayTaskResult(id, fetch(id)), ids)
  }

  /* Merging events into games */

  /** The game with both events set from the extractors' answers on `plays`; the tip-off is left alone. */
  function TrackFor(g: Game, plays: seq<Play>, extractFirstPoints: seq<Play> -> Play, extractFirstShotAttempt: seq<Play> -> Play): Game
  {
    g.(trackedEvents := g.trackedEvents.(firstScore := extractFirstPoints(plays), firstShotAttempt := extractFirstShotAttempt(plays)))
  }

  /** `a` is `b` except, at most, for the first-score and first-shot-attempt events. */
  predicate SameButEvents(a: Game, b: Game)
  {
    a == b.(trackedEvents := b.trackedEvents.(firstScore := a.trackedEvents.firstScore, firstShotAttempt := a.trackedEvents.firstShotAttempt))
  }

  /**
   * One result merged: only the first game with the result's id gets the two
   * extracted events; every other game, and every other field, is unchanged.
   */
  function ApplyPlayResult(games: seq<Game>, res: PlayResult, extractFirstPoints: seq<Play> -> Play, extractFirstShotAttempt: seq<Play> -> Play): (r: seq<Game>)
    ensures |r| == |games|
    ensures forall k :: 0 <= k < |games| ==> r[k].id == games[k].id && SameButEvents(r[k], games[k])
    ensures forall k :: 0 <= k < |games| ==>
      r[k] == if games[k].id == res.gameId && (forall j :: 0 <= j < k ==> games[j].id != res.gameId)
              then TrackFor(games[k], res.gameData.plays, extractFirstPoints, extractFirstShotAttempt)
              else games[k]
  {
    match FirstWithId(games, GameId, res.gameId)
    case None => games
    case Some(i) => games[i := TrackFor(games[i], res.gameData.plays, extractFirstPoints, extractFirstShotAttempt)]
  }

  /** The results merged one after another, in arrival order. */
  function MergePlays(games: seq<Game>, results: seq<PlayResult>, extractFirstPoints: seq<Play> -> Play, extractFirstShotAttempt: seq<Play> -> Play): seq<Game>
  {
    if results == [] then games
    else ApplyPlayResult(MergePlays(games, results[..|results| - 1], extractFirstPoints, extractFirstShotAttempt), results[|results| - 1], extractFirstPoints, extractFirstShotAttempt)
  }

  /** The merge keeps the list's length, order and ids, and changes nothing but the two events. */
  lemma {:induction false} MergePlaysFrame(games: seq<Game>, results: seq<PlayResult>, extractFirstPoints: seq<Play> -> Play, extractFirstShotAttempt: seq<Play> -> Play)
    ensures |MergePlays(games, results, extractFirstPoints, extractFirstShotAttempt)| == |games|
    ensures forall k :: 0 <= k < |games| ==>
      var g := MergePlays(games, results, extractFirstPoints, extractFirstShotAttempt)[k];
      g.id == games[k].id && SameButEvents(g, games[k])
  {
    if results != [] {
      MergePlaysFrame(games, results[..|results| - 1], extractFirstPoints, extractFirstShotAttempt);
    }
  }

  /** The plays of the last result in `results` that carries `id`. */
  function LastPlaysFor(results: seq<PlayResult>, id: string): Option<seq<Play>>
  {
    if results == [] then None
    else if results[|results| - 1].gameId == id then Some(results[|results| - 1].gameData.plays)
    else LastPlaysFor(results[..|results| - 1], id)
  }

  /** With distinct game ids, each game ends up with the events of the last result for it, or unchanged. */
  lemma {:induction false} MergePlaysLast(games: seq<Game>, results: seq<PlayResult>, extractFirstPoints: seq<Play> -> Play, extractFirstShotAttempt: seq<Play> -> Play)
    requires DistinctIds(games, GameId)
    ensures |MergePlays(games, results, extractFirstPoints, extractFirstShotAttempt)| == |games|
    ensures forall k :: 0 <= k < |games| ==>
      MergePlays(games, results, extractFirstPoints, extractFirstShotAttempt)[k] ==
        match LastPlaysFor(results, games[k].id)
        case None => games[k]
        case Some(plays) => TrackFor(games[k], plays, extractFirstPoints, extractFirstShotAttempt)
  {
    MergePlaysFrame(games, results, extractFirstPoints, extractFirstShotAttempt);
    if results != [] {
      var front, last := results[..|results| - 1], results[|results| - 1];
      MergePlaysLast(games, front, extractFirstPoints, extractFirstShotAttempt);
      MergePlaysFrame(games, front, extractFirstPoints, extractFirstShotAttempt);
      var before := MergePlays(games, front, extractFirstPoints, extractFirstShotAttempt);
      forall k | 0 <= k < |games| && games[k].id == last.gameId
        ensures forall j :: 0 <= j < k ==> before[j].id != last.gameId
      {
      }
    }
  }

  lemma {:induction false} LastPlaysForNone(results: seq<PlayResult>, id: string)
    requires forall x :: x in results ==> x.gameId != id
    ensures LastPlaysFor(results, id) == None
  {
    if results != [] {
      LastPlaysForNone(results[..|results| - 1], id);
    }
  }

  lemma {:induction false} LastPlaysForOnly(results: seq<PlayResult>, id: string, only: PlayResult)
    requires only in results
    requires forall x :: x in results && x.gameId == id ==> x == only
    requires only.gameId == id
    ensures LastPlaysFor(results, id) == Some(only.gameData.plays)
  {
    var front, last := results[..|results| - 1], results[|results| - 1];
    assert results == front + [last];
    if last != only {
      LastPlaysForOnly(front, id, only);
    }
  }

  /** What the arrivals say about one game: its own task's plays if it had a task, else nothing. */
  lemma ArrivalsForGame(games: seq<Game>, fetch: string -> Result<GameDataFetchPayload>, arrivals: seq<PlayResult>, k: nat)
    requires DistinctIds(games, GameId)
    requires multiset(arrivals) == multiset(PlayTaskResults(EligibleIds(games), fetch))
    requires k < |games|
    ensures LastPlaysFor(arrivals, games[k].id) ==
      if EligibleForPlays(games[k]) then Some(FetchedPlays(fetch(games[k].id))) else None
  {
    var ids := EligibleIds(games);
    var tasks := PlayTaskResults(ids, fetch);
    var id := games[k].id;
    var own := PlayTaskResult(id, fetch(id));
    forall x | x in arrivals
      ensures x.gameId == id ==> x == own
      ensures x.gameId in ids
    {
      assert x in multiset(tasks);
    }
    EligibleIdsMembership(games, id);
    if EligibleForPlays(games[k]) {
      var i :| 0 <= i < |ids| && ids[i] == id;
      assert tasks[i] == own;
      assert own in multiset(arrivals);
      LastPlaysForOnly(arrivals, id, own);
    } else {
      LastPlaysForNone(arrivals, id);
    }
  }

  /**
   * `fetchPlaysAsync` merged in any arrival order: with distinct game ids, an
   * eligible game holds the events extracted from its own fetched plays (no plays
   * when its fetch failed) and every other game is unchanged.
   */
  lemma FetchPlaysOutcome(games: seq<Game>, fetch: string -> Result<GameDataFetchPayload>, order: seq<nat>,
                          extractFirstPoints: seq<Play> -> Play, extractFirstShotAttempt: seq<Play> -> Play)
    requires DistinctIds(games, GameId)
    requires IsArrivalOrder(order, |EligibleIds(games)|)
    ensures
      var merged := MergePlays(games, Reorder(PlayTaskResults(EligibleIds(games), fetch), order), extractFirstPoints, extractFirstShotAttempt);
      && |merged| == |games|
      && forall k :: 0 <= k < |games| ==>
        merged[k] == if EligibleForPlays(games[k])
                     then TrackFor(games[k], FetchedPlays(fetch(games[k].id)), extractFirstPoints, extractFirstShotAttempt)
                     else games[k]
  {
    var tasks := PlayTaskResults(EligibleIds(games), fetch);
    var arrivals := Reorder(tasks, order);
    ReorderPermutes(tasks, order);
    MergePlaysLast(games, arrivals, extractFirstPoints, extractFirstShotAttempt);
    forall k | 0 <= k < |games|
      ensures LastPlaysFor(arrivals, games[k].id) ==
        if EligibleForPlays(games[k]) then Some(FetchedPlays(fetch(games[k].id))) else None
    {
      ArrivalsForGame(games, fetch, arrivals, k);
    }
  }

  /** One turn of the consumer loop: the result is written into the first game with its id, then the search stops. */
  method WritePlayResult(games: array<Game>, res: PlayResult,
                         extractFirstPoints: seq<Play> -> Play, extractFirstShotAttempt: seq<Play> -> Play)
    modifies games
    ensures games[..] == ApplyPlayResult(old(games[..]), res, extractFirstPoints, extractFirstShotAttempt)
  {
    ghost var found: Option<nat> := None;
    var i := 0;
    while i < games.Length
      invariant 0 <= i <= games.Length
      invariant games[..] == old(games[..])
      invariant forall j :: 0 <= j < i ==> games[j].id != res.gameId
    {
      var g := games[i];
      if g.id == res.gameId {
        var firstPointsPlay := extractFirstPoints(res.gameData.plays);
        g := g.(trackedEvents := g.trackedEvents.(firstScore := firstPointsPlay));
        var firstShotPlay := extractFirstShotAttempt(res.gameData.plays);
        g := g.(trackedEvents := g.trackedEvents.(firstShotAttempt := firstShotPlay));
        games[i] := g;
        found := Some(i);
        break;
      }
      i := i + 1;
    }
    assert found == FirstWithId(old(games[..]), GameId, res.gameId);
  }

  /** The consumer loop: the results written one after another, in arrival order. */
  method MergePlayResults(games: array<Game>, results: seq<PlayResult>,
                          extractFirstPoints: seq<Play> -> Play, extractFirstShotAttempt: seq<Play> -> Play)
    modifies games
    ensures games[..] == MergePlays(old(games[..]), results, extractFirstPoints, extractFirstShotAttempt)
  {
    for r := 0 to |results|
      invariant games[..] == MergePlays(old(games[..]), results[..r], extractFirstPoints, extractFirstShotAttempt)
    {
      WritePlayResult(games, results[r], extractFirstPoints, extractFirstShotAttempt);
      assert results[..r + 1][..r] == results[..r];
    }
    assert results[..|results|] == results;
  }

  /**
   * `fetchPlaysAsync`: one task per eligible game; the results, in arrival order,
   * merged into the list in place.
   */
  method FetchPlaysAsync(games: array<Game>, fetch: string -> Result<GameDataFetchPayload>, order: seq<nat>,
                         extractFirstPoints: seq<Play> -> Play, extractFirstShotAttempt: seq<Play> -> Play)
    requires IsArrivalOrder(order, |EligibleIds(games[..])|)
    modifies games
    ensures games[..] == MergePlays(old(games[..]), Reorder(PlayTaskResults(EligibleIds(old(games[..])), fetch), order),
                                    extractFirstPoints, extractFirstShotAttempt)
    ensures DistinctIds(old(games[..]), GameId) ==> forall k :: 0 <= k < games.Length ==>
      games[k] == if EligibleForPlays(old(games[k]))
                  then TrackFor(old(games[k]), FetchedPlays(fetch(old(games[k]).id)), extractFirstPoints, extractFirstShotAttempt)
                  else old(games[k])
  {
    ghost var before := games[..];
    var ids := PlayTasks(games[..]);
    var arrivals: seq<PlayResult> := [];
    for i := 0 to |order|
      invariant arrivals == Reorder(PlayTaskResults(ids, fetch), order[..i])
    {
      var gameId := ids[order[i]];
      arrivals := arrivals + [PlayTaskResult(gameId, fetch(gameId))];
    }
    assert order[..|order|] == order;
    MergePlayResults(games, arrivals, extractFirstPoints, extractFirstShotAttempt);
    if DistinctIds(before, GameId) {
      FetchPlaysOutcome(before, fetch, order, extractFirstPoints, extractFirstShotAttempt);
    }
  }

  /**
   * `CollectGames`: the season the calendar date names, the games of its window,
   * then their tracked events. It fails exactly when the season window cannot be
   * had; with distinct game ids, each eligible game then holds the events
   * extracted from its own plays and every other game is as its scoreboard gave it.
   * `year` and `month` are the calendar date of `now`.
   */
  method CollectGames(
    year: int, month: int, now: int,
    fetchSeason: int -> Result<SeasonInfoPayload>, parse: string -> Option<int>,
    fetchScoreboard: int -> Result<SeasonGamesFetchPayload>, dayOrder: seq<nat>,
    fetchPlays: string -> Result<GameDataFetchPayload>, playOrder: seq<nat>,
    extractFirstPoints: seq<Play> -> Play, extractFirstShotAttempt: seq<Play> -> Play)
    returns (r: Result<seq<Game>>)
    requires 1 <= month <= 12
    requires fetchSeason(SeasonYear(year, month)).Ok? ==> |fetchSeason(SeasonYear(year, month)).value.leagues| > 0
    requires
      var window := FetchSeasonInfo(fetchSeason(SeasonYear(year, month)), parse, now);
      window.Ok? ==>
        && IsArrivalOrder(dayOrder, |DayKeys(window.value.start, window.value.end)|)
        && IsArrivalOrder(playOrder, |EligibleIds(SeasonGames(window.value, fetchScoreboard, dayOrder))|)
    ensures r.Err? <==> FetchSeasonInfo(fetchSeason(SeasonYear(year, month)), parse, now).Err?
    ensures r.Ok? ==>
      var games := SeasonGames(FetchSeasonInfo(fetchSeason(SeasonYear(year, month)), parse, now).value, fetchScoreboard, dayOrder);
      && r.value == MergePlays(games, Reorder(PlayTaskResults(EligibleIds(games), fetchPlays), playOrder), extractFirstPoints, extractFirstShotAttempt)
      && (DistinctIds(games, GameId) ==>
        && |r.value| == |games|
        && forall k :: 0 <= k < |games| ==>
          r.value[k] == if EligibleForPlays(games[k])
                        then TrackFor(games[k], FetchedPlays(fetchPlays(games[k].id)), extractFirstPoints, extractFirstShotAttempt)
                        else games[k])
  {
    var season := SeasonYear(year, month);
    var collected := CollectSeasonGames(fetchSeason(season), parse, now, fetchScoreboard, dayOrder);
    if collected.Err? {
      return Err(collected.msg);
    }
    var games := collected.value;
    var list := new Game[|games|](i requires 0 <= i < |games| => games[i]);
    assert list[..] == games;
    FetchPlaysAsync(list, fetchPlays, playOrder, extractFirstPoints, extractFirstShotAttempt);
    return Ok(list[..]);
  }
}
