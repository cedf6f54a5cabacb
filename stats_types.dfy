/**
 * The data the matchup scan consumes and produces.
 *
 * The statistics provider is not called: each of its three query shapes
 * (schedule, team roster, person lookup hydrated with a vs-player split or
 * a game log) becomes an input value or a total function, already decoded
 * from the provider's JSON into the few fields the scan reads.
 */
module StatsTypes {

  datatype Option<T> = None | Some(value: T)

  /** What an exception carries; its message text is not modelled. */
  datatype Fault =
    | ProviderError(message: string)  // a provider call raised something other than KeyError/IndexError
    | MissingPersonId                 // a roster entry without `person` or `person.id`

  /** A provider call that either answers or raises. */
  datatype Result<T> = Ok(value: T) | Err(fault: Fault)

  /**
   * A provider call made inside the per-batter `try`: it answers, or the
   * answer lacks a nested field (KeyError / IndexError, caught and treated
   * as "no data"), or it raises anything else (not caught there).
   */
  datatype Lookup<T> = Found(value: T) | Missing | Raised(fault: Fault)

  /** One scheduled game; every field is read with `game.get`, so each may be absent. */
  datatype Game = Game(
    awayId: Option<int>, awayName: Option<string>,
    homeId: Option<int>, homeName: Option<string>,
    awayPitcherId: Option<int>, awayPitcherName: Option<string>,
    homePitcherId: Option<int>, homePitcherName: Option<string>)

  /** One roster entry: `person.id` and `person.fullName`, each possibly absent. */
  datatype RosterEntry = RosterEntry(id: Option<int>, fullName: Option<string>)

  /**
   * The data provider as inputs.
   *  - schedule: today's games, or the exception `schedule()` raised;
   *  - roster: the `roster` list of a team (an absent key decodes to []), or an exception;
   *  - career: career home runs of a batter against a pitcher (an absent
   *    `homeRuns` decodes to 0);
   *  - gameLog: the recent game-log splits of a batter, most recent first; an
   *    entry is None when it has no `stat` object, Some(home runs) otherwise
   *    (an absent `homeRuns` decodes to 0).
   */
  datatype Provider = Provider(
    schedule: Result<seq<Game>>,
    roster: Option<int> -> Result<seq<RosterEntry>>,
    career: (int, int) -> Lookup<nat>,
    gameLog: int -> Lookup<seq<Option<nat>>>)

  /** Which team bats: the away batters face the home pitcher and vice versa. */
  datatype Side = Away | Home

  /** A batting team paired with the opposing probable pitcher. */
  datatype Matchup = Matchup(
    teamId: Option<int>, teamName: Option<string>,
    pitcherId: Option<int>, pitcherName: Option<string>)

  function MatchupOf(g: Game, s: Side): (m: Matchup)
    ensures s == Away ==> m.teamId == g.awayId && m.pitcherId == g.homePitcherId
    ensures s == Home ==> m.teamId == g.homeId && m.pitcherId == g.awayPitcherId
  {
    match s
    case Away => Matchup(g.awayId, g.awayName, g.homePitcherId, g.homePitcherName)
    case Home => Matchup(g.homeId, g.homeName, g.awayPitcherId, g.awayPitcherName)
  }

  /** Python truthiness of an optional integer id: neither None nor 0. */
  predicate Truthy(id: Option<int>)
  {
    id.Some? && id.value != 0
  }

  /** One output record. */
  datatype SignificantMatchup = SignificantMatchup(
    playerName: string, playerId: int,
    team: Option<string>, vsPitcher: Option<string>,
    careerHRs: nat, last5: nat, last10: nat, last20: nat)

  datatype Error =
    | WrapperNotLoaded   // the provider client could not be imported
    | Backend(fault: Fault)

  /** An element of the returned list: a record, or the error object. */
  datatype Row = Stat(record: SignificantMatchup) | Failure(error: Error)
}
