/** Matches as the football data provider describes them. */
module Fixtures {

  /** The club whose point of view decides WIN, LOSE and DRAW (hard-coded as 61). */
  const TrackedTeamId: int := 61

  datatype Team = Team(id: int, name: string)

  /** A fixture with its full-time score; crest images and kickoff dates are presentation only. */
  datatype Match = Match(id: int, homeTeam: Team, awayTeam: Team, home: int, away: int)

  /** The same match seen with the sides exchanged. */
  function Swapped(m: Match): Match {
    m.(homeTeam := m.awayTeam, awayTeam := m.homeTeam, home := m.away, away := m.home)
  }
}
