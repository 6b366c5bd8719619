# bet-bot core, modelled in Dafny

This project models the data-collection and statistics core of bet-bot. The
core does four things:

- **Games.** The game collector picks the season from the calendar date and
  reads the season window from the provider's season info. It ends that window
  at "yesterday" when the nominal end is still ahead. It then fetches one
  scoreboard per day of the window and hoists each event's play-by-play flag
  onto the game. Finally, for every game that is not preseason and has
  play-by-play, it fetches the plays and writes the first score and the first shot attempt into
  the game's tracked events.
- **Teams.** The team and roster collector fetches the team list, fetches one
  roster per team, and writes each roster that arrived into its team.
- **Counting.** The stat compiler drops preseason games. It credits each
  game's first score and first shot attempt to the rostered player they name,
  as wrapping `uint8` counters.
- **Output.** The stat compiler packages one row per rostered player, drops
  the rows whose counters are all zero, and orders the rest by first scores,
  highest first.

The files:

| file | module | models |
|---|---|---|
| `outcomes.dfy` | `Outcomes` | `Option`, and `Result` in place of Go's `(value, error)` |
| `seqs.dfy` | `Seqs` | order-keeping filter, flattening, and the arrival order of a fan-in |
| `types.dfy` | `Types` | `internal/types.go`: records, provider payloads, `uint8` |
| `game_collector.dfy` | `GameCollector` | `internal/game_collector.go` |
| `roster_collector.dfy` | `RosterCollector` | `internal/team_roster_collector.go` |
| `stat_compiler.dfy` | `StatCompiler` | `betbot/stat_compiler.go` |

Modelling choices:

- **Fetches.** A provider fetch is a function parameter from its key to a
  `Result`: a day's timestamp, a game id or a team id maps to `Ok(payload)`
  or `Err(message)`.
- **Fan-in.** A fan-out of tasks feeding one consumer is an arrival order
  `order`: a permutation of the task indices (`IsArrivalOrder`). Each task
  delivers exactly one result. The consumer sees `Reorder(results, order)`.
  Every fan-in property is proved for *every* arrival order.
- **Lists updated in place.** A game list or team list that the source updates
  through a pointer (`*[]Game`, `*[]Team`) is an `array`. The consumer loops
  are methods with the source's search-and-`break`. Each is proved equal to a
  fold over the arrivals (`MergePlays`, `MergeRosters`). The lemmas then state
  what that fold computes.
- **The calculator.** `StatCalculator` is a class whose field `fsd` the two
  counting passes reassign. Each pass is proved equal to a fold over the games
  (`FoldFirstScore`, `FoldFirstShot`). The tally lemmas state, for every
  player, the counter values after the fold.
- **Time.** Timestamps are whole seconds and a day is 86400 seconds. `now`,
  the calendar year and month, and the date parser are parameters.
- **Panics.** Go indexing that panics on an empty list becomes a
  precondition: `Sports[0]`, `Leagues[0]`, the season's `Leagues[0]`,
  `Participants[0]` of a present event, and `Logos[0]` of a team with
  players.

Where the description of the system and the code differ, the model follows the
code:

- The final sort is `sort.Slice`, which is not stable. The model claims only
  the descending order by first scores and the permutation; the order of ties
  is left open.
- The window end is replaced by "now minus one day" only when the nominal end
  lies after `now`. A nominal end within the last day is kept, so the end can
  be later than "yesterday". The model proves `end <= now`.
- A play or roster result is written into the *first* list entry with its id.
  When ids repeat, that entry may be an ineligible game, and later entries with
  the id are never written. The per-game outcome lemmas assume distinct ids.
- `ScoreOnFirstAttempt` rises whenever the first shot attempt has
  `ScoringPlay` set. Nothing else about the play is checked.

## Model

| member | source | states |
|---|---|---|
| Types.Inc8 | internal/types.go:86-91 | an increment of a `uint8` counter adds one modulo 256 (255 wraps to 0) |
| Seqs.FilterCount | betbot/stat_compiler.go:30-39 | the append-with-`continue` filter keeps each kept element exactly as often as the input holds it, and no element that fails the test |
| Seqs.FilterAppend | betbot/stat_compiler.go:63-72 | filtering commutes with concatenation, so the kept elements stay in input order |
| Seqs.FlattenLength | internal/game_collector.go:236-242 | the flattened list's length is the sum of the inner lengths |
| Seqs.FlattenAt | internal/game_collector.go:236-242 | element `j` of inner list `i` sits at the sum of the earlier lengths plus `j`: the in-order concatenation |
| Seqs.FlattenPermutation | internal/game_collector.go:151-156 | flattening the day lists in any other order gives the same games with the same multiplicities |
| Seqs.ReorderPermutes | internal/game_collector.go:151-154 | whatever the arrival order, the consumer receives exactly the tasks' results, each once |
| Seqs.FirstWithId | internal/game_collector.go:212-214 | the position of the first element with the id, or none when no element has it; the same search serves games, teams (internal/team_roster_collector.go:97-103) and rosters (betbot/stat_compiler.go:156-160) |
| GameCollector.SeasonYear | internal/game_collector.go:16-21 | the season named is the year of the first July not before the current month: next year from August on, this year before |
| GameCollector.ClampEnd | internal/game_collector.go:85-90 | a nominal end after `now` becomes `now` minus one day; an end not after `now` is kept; the result is never after `now` |
| GameCollector.FetchSeasonInfo | internal/game_collector.go:53-98 | it is an error exactly when the fetch fails or either date does not parse; otherwise the start is the parsed start and the end is the clamped parsed end |
| GameCollector.DayKeys | internal/game_collector.go:102-110 | the keys of the days from the start, one day apart, while the day is before the end; what they are is stated by `DayKeysShape` |
| GameCollector.DayKeysShape | internal/game_collector.go:102-110 | key `k` is `start + k` days, every key is before `end`, and the keys stop at the first day not before `end`, so an empty or inverted window has none |
| GameCollector.TwoDayWindow | internal/game_collector.go:102-110 | the window 2024-10-01 to 2024-10-03 (end excluded) yields exactly the keys for 10-01 and 10-02 |
| GameCollector.EnumerateDays | internal/game_collector.go:102-110 | the day loop lists exactly the day keys of the window |
| GameCollector.Hoist | internal/game_collector.go:131-137 | the first competition's play-by-play flag replaces the game's when there is a competition; nothing else of the game changes |
| GameCollector.ScoreboardGames | internal/game_collector.go:124-140 | a day's games: none when the fetch failed, else each event's game with its play-by-play flag hoisted, in event order; the loop that computes it is `ScoreboardTask` |
| GameCollector.ScoreboardTask | internal/game_collector.go:118-141 | a failed fetch reports no games; otherwise one hoisted game per event, in event order |
| GameCollector.Flatten2DSlice | internal/game_collector.go:236-242 | returns the in-order concatenation of the inner lists |
| GameCollector.FetchSeasonGamesAsync | internal/game_collector.go:100-158 | the result is the day lists flattened in arrival order, and holds the games of all days with multiplicity |
| GameCollector.CollectSeasonGames | internal/game_collector.go:33-46 | fails exactly when the season window fails; otherwise returns the window's games in arrival order |
| GameCollector.EligibleForPlays | internal/game_collector.go:176 | a game gets a play task unless its season slug is `preseason` or it has no play-by-play; post-season games are fetched; stated for the task list by `EligibleIdsMembership` |
| GameCollector.EligibleIdsMembership | internal/game_collector.go:174-181 | an id gets a play task exactly when some game that is not preseason and has play-by-play carries it |
| GameCollector.PlayTasks | internal/game_collector.go:174-203 | one task per eligible game, in list order, each capturing its game's id |
| GameCollector.FetchedPlays | internal/game_collector.go:189-201 | the plays a task hands on: none when the fetch failed, else the fetched plays; what reaches each game is stated by `ArrivalsForGame` |
| GameCollector.PlayTaskResult | internal/game_collector.go:182-202 | a task's message: the captured game id with the fetched plays, or an empty payload on failure; stated per game by `ArrivalsForGame` |
| GameCollector.TrackFor | internal/game_collector.go:216-226 | the game with its first score and first shot attempt set to the extractors' answers on the plays; where it is applied is stated by `ApplyPlayResult` |
| GameCollector.ApplyPlayResult | internal/game_collector.go:211-231 | one result sets both events, from the extractors, on the first game with its id only; the tip-off, every other field, every other game and the length are unchanged |
| GameCollector.MergePlays | internal/game_collector.go:211-231 | the arrivals applied one after another, in arrival order; what that leaves in each game is stated by `MergePlaysFrame` and `MergePlaysLast` |
| GameCollector.MergePlaysFrame | internal/game_collector.go:211-231 | merging any results keeps the list's length, order and ids and changes only the two events |
| GameCollector.MergePlaysLast | internal/game_collector.go:211-231 | with distinct ids, each game holds the events of the last result for its id, or is unchanged |
| GameCollector.ArrivalsForGame | internal/game_collector.go:182-202 | a game's only arriving result is its own task's: its fetched plays, empty when the fetch failed, and none for an ineligible game |
| GameCollector.FetchPlaysOutcome | internal/game_collector.go:164-234 | for any arrival order and distinct ids, an eligible game holds the events extracted from its own plays and every other game is unchanged |
| GameCollector.WritePlayResult | internal/game_collector.go:212-230 | one turn of the consumer loop leaves the array equal to `ApplyPlayResult` of its old contents: only the first game with the id gets both events |
| GameCollector.MergePlayResults | internal/game_collector.go:211-231 | the in-place search-and-break loop leaves the array equal to the fold of the results |
| GameCollector.FetchPlaysAsync | internal/game_collector.go:164-234 | the array becomes the merge of the eligible games' results in arrival order; with distinct ids, each eligible game gets its own events and no other game changes |
| GameCollector.CollectGames | internal/game_collector.go:13-31 | fails exactly when the chosen season's window fails; otherwise returns the season's games with their tracked events merged in, and per game as in `FetchPlaysAsync` |
| RosterCollector.FetchTeams | internal/team_roster_collector.go:26-41 | an error exactly when the fetch fails; otherwise the teams of the first league of the first sport, in order |
| RosterCollector.RosterTasks | internal/team_roster_collector.go:54-58 | one task per team, in order, each capturing that team's id |
| RosterCollector.RosterTaskResult | internal/team_roster_collector.go:58-80 | a task reports its team id; an error and an empty roster on failure, the fetched athletes and no error on success |
| RosterCollector.ApplyRosterResult | internal/team_roster_collector.go:90-106 | an error result leaves every team unchanged; a success replaces the roster of the first team with its id only; ids, other fields and the length are kept |
| RosterCollector.MergeRosters | internal/team_roster_collector.go:90-106 | the arrivals applied one after another, in arrival order; what that leaves in each team is stated by `MergeRostersFrame` and `MergeRostersLast` |
| RosterCollector.MergeRostersFrame | internal/team_roster_collector.go:97-103 | merging any results keeps the list's length, order and ids and changes only rosters |
| RosterCollector.MergeRostersLast | internal/team_roster_collector.go:90-106 | with distinct ids, each team holds the roster of the last successful result for its id, or its own |
| RosterCollector.ArrivalsForTeam | internal/team_roster_collector.go:58-80 | a team's only arriving result is its own task's, so its last successful roster is its fetched one, or none when that fetch failed |
| RosterCollector.RostersOutcome | internal/team_roster_collector.go:90-106 | for any arrival order and distinct ids, a team whose fetch succeeded holds its own roster, a team whose fetch failed keeps its roster, and nothing else changes |
| RosterCollector.MergeRosterResults | internal/team_roster_collector.go:90-106 | the in-place loop (skip on error, search, assign, break) leaves the array equal to the fold of the results |
| RosterCollector.CompileRosterAsync | internal/team_roster_collector.go:43-109 | the array becomes the merge of one result per team in arrival order; the error it returns is always nil, since a failed roster fetch is skipped rather than reported |
| RosterCollector.CollectTeamsAndRosters | internal/team_roster_collector.go:11-24 | fails exactly when the team fetch fails; otherwise, with distinct ids, every team holds its fetched roster or, when that fetch failed, its decoded one |
| StatCompiler.LocatePlayer | betbot/stat_compiler.go:152-163 | the first player with the id in team order and then roster order; none when no rostered player has it |
| StatCompiler.LocateSameButStats | betbot/stat_compiler.go:152-163 | the search reads ids only, so changing counters never moves what it finds |
| StatCompiler.IncNWraps | internal/types.go:86-91 | `n` wrapping increments of a `uint8` counter add `n` modulo 256 |
| StatCompiler.CreditFirstScore | betbot/stat_compiler.go:84-99 | one game's first score credited to the first rostered player with the scorer's id; what it changes is stated by `CreditFirstScoreFrame`, `CreditFirstScoreAt` and `CreditFirstScoreSkips` |
| StatCompiler.CreditFirstScoreFrame | betbot/stat_compiler.go:81-102 | one first-score pass over a game changes bet counters and nothing else |
| StatCompiler.CreditFirstScoreAt | betbot/stat_compiler.go:84-99 | for one game, exactly the first player with the scorer's id gains one first score; every other player is unchanged |
| StatCompiler.CreditFirstScoreSkips | betbot/stat_compiler.go:86-98 | a game whose first score is absent, or names no rostered player, changes nothing |
| StatCompiler.FoldFirstScore | betbot/stat_compiler.go:81-102 | the first-score pass over the games in order; its outcome per player is stated by `FirstScoreFrame` and `FirstScoreTally` |
| StatCompiler.FirstScoreFrame | betbot/stat_compiler.go:81-102 | the whole first-score pass changes bet counters and nothing else |
| StatCompiler.FirstScoreStep | betbot/stat_compiler.go:82-100 | one more game adds one to the first found player's tally when it scored first, and keeps every other tally |
| StatCompiler.FirstScoreTally | betbot/stat_compiler.go:81-102 | after the pass, the first player with each id has gained one first score per game scored first by that id; other players with that id and all other counters are untouched |
| StatCompiler.CreditFirstShot | betbot/stat_compiler.go:107-124 | one game's first shot attempt credited to the first rostered player with the shooter's id; what it changes is stated by `CreditFirstShotFrame`, `CreditFirstShotAt` and `CreditFirstShotSkips` |
| StatCompiler.CreditFirstShotFrame | betbot/stat_compiler.go:104-127 | one first-shot pass over a game changes bet counters and nothing else |
| StatCompiler.CreditFirstShotAt | betbot/stat_compiler.go:107-124 | for one game, exactly the first player with the shooter's id gains one attempt, and one score on first attempt when the play scored |
| StatCompiler.CreditFirstShotSkips | betbot/stat_compiler.go:109-120 | a game whose first shot attempt is absent, or names no rostered player, changes nothing |
| StatCompiler.FoldFirstShot | betbot/stat_compiler.go:104-127 | the first-shot pass over the games in order; its outcome per player is stated by `FirstShotFrame` and `FirstShotTally` |
| StatCompiler.FirstShotFrame | betbot/stat_compiler.go:104-127 | the whole first-shot pass changes bet counters and nothing else |
| StatCompiler.FirstShotStep | betbot/stat_compiler.go:105-125 | one more game adds to the first found player's attempt tally when the first shot was theirs, and to the score tally when it also scored |
| StatCompiler.FirstShotTally | betbot/stat_compiler.go:104-127 | after the pass, the first player with each id has one attempt per game whose first shot was theirs and one score per such shot that scored |
| StatCompiler.Aggregate | betbot/stat_compiler.go:52-60 | the first-score pass and then the first-shot pass over the same games; each player's counters after both are stated by `AggregateTally` |
| StatCompiler.AggregateFrame | betbot/stat_compiler.go:52-60 | both passes together change bet counters and nothing else |
| StatCompiler.AggregateCounts | betbot/stat_compiler.go:52-60 | both passes together, per player, as increments of the three counters |
| StatCompiler.AggregateTally | betbot/stat_compiler.go:52-60 | after both passes, the first player with each id holds its old counters plus its first scores, first attempts and scores on first attempt, each modulo 256, with the tip-off counter untouched; any other player is unchanged |
| StatCompiler.Pack | betbot/stat_compiler.go:135-144 | one row: the player's id, name, counters and headshot with the team's name and first logo; its place in the output is stated by `PackageAt` |
| StatCompiler.PackageTeam | betbot/stat_compiler.go:133-147 | one team's rows, one per rostered player, in roster order; their positions in the output are stated by `PackageAt` |
| StatCompiler.Package | betbot/stat_compiler.go:129-150 | the rows of all teams, team after team; their number and positions are stated by `PackageLength` and `PackageAt` |
| StatCompiler.PackageLength | betbot/stat_compiler.go:129-150 | one row per rostered player |
| StatCompiler.PackageAt | betbot/stat_compiler.go:132-147 | player `s` of team `t` is packaged, with the team's name and first logo, right after the players of the earlier teams: team-then-roster order |
| StatCompiler.PackageData | betbot/stat_compiler.go:129-150 | the nested loop produces exactly the packaged rows |
| StatCompiler.HasActivity | betbot/stat_compiler.go:66-68 | a row is kept unless all three of its counters are zero; the filter's result is stated by `DropInactive` |
| StatCompiler.DropInactive | betbot/stat_compiler.go:63-72 | the loop keeps, in order, exactly the rows with a non-zero counter |
| StatCompiler.InsertDescPermutes | betbot/stat_compiler.go:74-76 | inserting a row adds it and keeps every other row |
| StatCompiler.InsertDescSorted | betbot/stat_compiler.go:74-76 | inserting into a list sorted by first scores, highest first, keeps it sorted |
| StatCompiler.SortDesc | betbot/stat_compiler.go:74-76 | one ordering by first scores, highest first; stated sorted and a permutation by `SortDescCorrect` |
| StatCompiler.SortDescCorrect | betbot/stat_compiler.go:74-76 | the reference ordering is sorted by first scores, highest first, and is a permutation of its input |
| StatCompiler.PreseasonDropped | betbot/stat_compiler.go:30-39 | a preseason game anywhere in the snapshot is removed before counting, so it contributes to no counter |
| StatCompiler.FindGame | betbot/stat_compiler.go:175-183 | the first game with the id, or an error when no game has it |
| StatCompiler.FindGameInFsd | betbot/stat_compiler.go:165-173 | the first of the snapshot's games with the id, or an error exactly when none has it |
| StatCompiler.StatCalculator.constructor | betbot/stat_compiler.go:28-46 | keeps the snapshot with exactly its non-preseason games, in their original order |
| StatCompiler.StatCalculator.FindPlayerById | betbot/stat_compiler.go:152-163 | the location of the first player with the id in team-then-roster order, or an error naming the id |
| StatCompiler.StatCalculator.CalculateFirstScore | betbot/stat_compiler.go:81-102 | the rosters become the first-score fold over the games; the games are unchanged; it returns no error |
| StatCompiler.StatCalculator.CalculateFirstShotAttempt | betbot/stat_compiler.go:104-127 | the rosters become the first-shot fold over the games; the games are unchanged; it returns no error |
| StatCompiler.StatCalculator.CalculateAndPackage | betbot/stat_compiler.go:48-79 | never fails; the rosters hold both passes; the rows are sorted by first scores, highest first, and are a permutation of exactly the packaged rows with a non-zero counter |

## Left out

- HTTP, `core.FetchAndMap`, JSON decoding and endpoint construction: fetch results are function parameters, and a failed decode is an `Err`.
- Concurrency: `BatchRunner`, goroutines, channels, `close` and `sync.Mutex`. Each fan-in is a fold over an arbitrary arrival order. The concurrency ceiling and the runner's own guarantees are not modelled.
- The clock and calendar: `time.Now`, `time.Parse` with its layout, `AddDate` with time zones and daylight saving, and `dateToYYYYMMDD` (internal/game_collector.go:160-162). Day keys are timestamps a fixed 86400 seconds apart.
- `extractFirstPoints` and `extractFirstShotAttempt` are not part of this model. They are abstract function parameters, and their error return, which is only logged, is dropped.
- Logging, and the exact wording of error messages.
- `bbcore/betbot.go` is glue. The `FirstShotData` record is not defined in the modelled files; its `created`, `teams` and `games` fields follow their uses there.
- GameCollector.FetchPlaysAsync: the source's `error` result is always nil and is ignored by its caller, so the method has no result.
- StatCompiler.StatCalculator.CalculateAndPackage: does not fix the order of rows with equal first scores, because `sort.Slice` is not stable. `SortDesc` is one admissible ordering. The in-place library sort itself is not modelled.
- GameCollector.FetchPlaysOutcome, RosterCollector.RostersOutcome and RosterCollector.CollectTeamsAndRosters: the per-entry outcome is stated only for lists with distinct ids. For repeated ids, only the fold itself and the frame lemmas hold.
- StatCompiler.StatCalculator: the source's calculator takes the snapshot by value, but its team and roster slices still share their backing arrays with the caller's `FirstShotData`, so the counting passes also raise the counters in the caller's rosters (betbot/stat_compiler.go:28, 99, 121-123, 155-158). The model's class keeps its own copy and promises nothing about the caller's data.
- Fields the core never reads, such as game players, play clocks and scores, are carried in the records but take part in no contract.
