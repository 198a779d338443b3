/** The records the screens receive from the sports-data API, the mock data and
    the favourites store. Every field the JavaScript code reads through `?.` or
    defaults with `??`/`||` is optional here. */
module Domain {
  import opened Seqs

  /** A team: identifier, display name and logo URI. */
  datatype Team = Team(id: Option<int>, name: Option<string>, logo: Option<string>)

  /** A league: identifier, display name and country. */
  datatype League = League(id: Option<int>, name: Option<string>, country: Option<string>)

  /** A fixture's status: short code (`NS`, `1H`, `HT`, `2H`, `FT`, ...), long text and elapsed minutes. */
  datatype Status = Status(short: Option<string>, long: Option<string>, elapsed: Option<int>)

  datatype Fixture = Fixture(id: int, date: Option<string>, status: Option<Status>)

  datatype Teams = Teams(home: Option<Team>, away: Option<Team>)

  /** Goals scored; absent before kick-off. */
  datatype Goals = Goals(home: Option<int>, away: Option<int>)

  /** One entry of the match list. */
  datatype Match = Match(fixture: Fixture, league: Option<League>, teams: Option<Teams>, goals: Option<Goals>)

  /** A match event; `kind` is the API's `type` field (`Goal`, `Card`, `subst`, ...). */
  datatype Event = Event(elapsed: Option<int>, team: Option<Team>, player: Option<string>,
                         kind: string, detail: string, assist: Option<string>)

  /** A player; the detail screen reads the name and shirt number as optional. */
  datatype Player = Player(id: int, name: Option<string>, number: Option<int>)

  /** A player of a lineup with a position code (`G`, `D`, `M`, `F`). */
  datatype LineupPlayer = LineupPlayer(player: Player, pos: string)

  /** One team's lineup: starting players, substitutes, coach and formation label (`"4-4-2"`). */
  datatype Lineup = Lineup(team: Team, startXI: seq<LineupPlayer>, substitutes: seq<LineupPlayer>,
                           coach: string, formation: Option<string>)

  /** The team of a standings row. */
  datatype TableTeam = TableTeam(id: int, name: string, logo: Option<string>)

  /** The match record of a standings row. */
  datatype Record = Record(played: int, win: int, draw: int, loss: int,
                           goalsFor: int, goalsAgainst: int, goalsDiff: int)

  /** A row of a league table. A synthesised placeholder row has no rank until it
      is placed and no match record at all. */
  datatype StandingsRow = StandingsRow(rank: Option<int>, team: TableTeam, points: int, record: Option<Record>)

  /** A saved favourite: the fixture identifier is stored as a string, with the
      league name and the teams as they were when it was saved. */
  datatype Favorite = Favorite(id: int, userId: string, matchId: string, league: Option<string>, teams: Option<Teams>)
}
