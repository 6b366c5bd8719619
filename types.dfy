/**
 * The records of the bet-bot core: teams, players and their bet counters, games
 * with their tracked events, plays, and the provider payloads they are decoded
 * from. Every Go struct is a value here; the in-place updates of the collectors
 * and of the aggregator are modelled where they happen.
 */
module Types {

  /** Go's `uint8`: the bet counters and the score fields range over 0..255. */
  newtype uint8 = x: int | 0 <= x < 256

  /** Go's `x++` on a `uint8`: 255 wraps around to 0. */
  function Inc8(x: uint8): (r: uint8)
    ensures r as int == (x as int + 1) % 256
  {
    if x < 255 then x + 1 else 0
  }

  /* Team & Player */

  datatype Logo = Logo(href: string)
  datatype Headshot = Headshot(href: string)

  datatype PlayerStatus = PlayerStatus(id: string, name: string, statusType: string, abbreviation: string)

  datatype BetStats = BetStats(
    tipOffWinPer: uint8,
    firstPointsMade: uint8,
    firstShotAttempts: uint8,
    scoreOnFirstAttempt: uint8)

  datatype Player = Player(
    id: string,
    uid: string,
    guid: string,
    firstName: string,
    lastName: string,
    fullName: string,
    displayName: string,
    shortName: string,
    slug: string,
    status: PlayerStatus,
    betStats: BetStats,
    headshot: Headshot)

  datatype Team = Team(
    id: string,
    uid: string,
    name: string,
    slug: string,
    color: string,
    alternateColor: string,
    logos: seq<Logo>,
    roster: seq<Player>)

  /* Game */

  datatype Season = Season(year: int, seasonType: int, slug: string)

  datatype Athlete = Athlete(id: string, guid: string, displayName: string, didNotPlay: bool)
  datatype GamePlayer = GamePlayer(teamId: int, active: bool, athlete: Athlete)

  /* Play */

  datatype PlayType = PlayType(id: string, text: string)
  datatype Period = Period(number: uint8, displayValue: string)
  datatype Clock = Clock(displayValue: string)
  datatype PlayTeam = PlayTeam(id: string)

  /** A participant names nothing but the athlete's id. */
  datatype PAthlete = PAthlete(id: string)
  datatype Participant = Participant(athlete: PAthlete)

  datatype Play = Play(
    id: string,
    playType: PlayType,
    text: string,
    awayScore: uint8,
    homeScore: uint8,
    period: Period,
    clock: Clock,
    scoringPlay: bool,
    scoreValue: uint8,
    shootingPlay: bool,
    team: PlayTeam,
    participants: seq<Participant>)

  /** Plain plays, not optional ones: an event that was not found is the zero play. */
  datatype TrackedEvents = TrackedEvents(tipOff: Play, firstScore: Play, firstShotAttempt: Play)

  datatype Game = Game(
    id: string,
    uid: string,
    date: string,
    name: string,
    season: Season,
    playByPlay: bool,
    trackedEvents: TrackedEvents,
    players: seq<GamePlayer>)

  /** The snapshot the aggregator works on. */
  datatype FirstShotData = FirstShotData(created: int, teams: seq<Team>, games: seq<Game>)

  /* Provider payloads */

  datatype TeamEntry = TeamEntry(team: Team)
  datatype TeamLeague = TeamLeague(teams: seq<TeamEntry>)
  datatype Sport = Sport(leagues: seq<TeamLeague>)
  datatype TeamFetchPayload = TeamFetchPayload(sports: seq<Sport>)

  datatype RosterFetchPayload = RosterFetchPayload(athletes: seq<Player>)

  datatype SeasonInfo = SeasonInfo(year: int, startDate: string, endDate: string)
  datatype SeasonLeague = SeasonLeague(seasonInfo: SeasonInfo)
  datatype SeasonInfoPayload = SeasonInfoPayload(leagues: seq<SeasonLeague>)

  /** A scoreboard event: the game plus the competitions whose first entry carries the play-by-play flag. */
  datatype Competition = Competition(playByPlayAvailable: bool)
  datatype RawGameWrapper = RawGameWrapper(game: Game, competitions: seq<Competition>)
  datatype SeasonGamesFetchPayload = SeasonGamesFetchPayload(events: seq<RawGameWrapper>)

  datatype GameDataFetchPayload = GameDataFetchPayload(plays: seq<Play>)

  /** An event is present exactly when its play has an id. */
  predicate Present(p: Play)
  {
    p.id != ""
  }

  predicate IsPreseason(g: Game)
  {
    g.season.slug == "preseason"
  }

  predicate NotPreseason(g: Game)
  {
    !IsPreseason(g)
  }

  /** The aggregator reads `Participants[0]` of every present event; an empty list there would panic. */
  predicate Creditable(p: Play)
  {
    !Present(p) || |p.participants| > 0
  }

  /** The athlete an event is credited to: the first participant's id. */
  function CreditedAthlete(p: Play): string
    requires |p.participants| > 0
  {
    p.participants[0].athlete.id
  }
}
