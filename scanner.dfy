/**
 * The batter-versus-pitcher matchup scan of `get_live_mlb_stats`.
 *
 * `Scan` is the reference definition: a left fold over today's games, each
 * game a fold over its two sides, each side a fold over the batting team's
 * roster, all threading the records gathered so far and the set of player
 * ids already emitted. `GetLiveMlbStats` is the scan as the source runs it,
 * with nested loops, an early exit on every uncaught exception, and the
 * counting loop of `SumRecent`; it is proved to return `Scan`.
 */
module Scanner {
  import opened StatsTypes
  import opened RecentForm

  /** The scan's running state: `final_stats` and `processed_players`. */
  datatype Tally = Tally(records: seq<SignificantMatchup>, seen: set<int>)

  /** Runs step over xs from t, stopping at the first exception. */
  function Fold<T>(step: (Tally, T) -> Result<Tally>, t: Tally, xs: seq<T>): Result<Tally>
    decreases |xs|
  {
    if xs == [] then Ok(t)
    else match step(t, xs[0])
      case Err(f) => Err(f)
      case Ok(t') => Fold(step, t', xs[1..])
  }

  /**
   * One roster entry against pitcher pid. A missing `person.id` raises
   * outside the per-batter `try`; an already emitted batter is passed over;
   * a missing split, zero career home runs, a missing `fullName`, a missing
   * game log or a log entry without `stat` skip the batter without marking
   * it; a provider exception inside the `try` still aborts.
   */
  function VisitBatter(p: Provider, m: Matchup, pid: int, t: Tally, e: RosterEntry): Result<Tally>
  {
    match e.id
    case None => Err(MissingPersonId)
    case Some(id) =>
      if id in t.seen then Ok(t)
      else match p.career(id, pid)
        case Raised(f) => Err(f)
        case Missing => Ok(t)
        case Found(hr) =>
          if hr == 0 then Ok(t)
          else match e.fullName
            case None => Ok(t)
            case Some(name) =>
              match p.gameLog(id)
              case Raised(f) => Err(f)
              case Missing => Ok(t)
              case Found(log) =>
                match Recent(log)
                case None => Ok(t)
                case Some(form) =>
                  var r := SignificantMatchup(name, id, m.teamName, m.pitcherName,
                                              hr, form.last5, form.last10, form.last20);
                  Ok(Tally(t.records + [r], t.seen + {id}))
  }

  function BatterStep(p: Provider, m: Matchup, pid: int): (Tally, RosterEntry) -> Result<Tally>
  {
    (t, e) => VisitBatter(p, m, pid, t, e)
  }

  /** One side of a game: skipped without a truthy pitcher id, else the roster walk. */
  function VisitSide(p: Provider, g: Game, s: Side, t: Tally): Result<Tally>
  {
    var m := MatchupOf(g, s);
    if !Truthy(m.pitcherId) then Ok(t)
    else match p.roster(m.teamId)
      case Err(f) => Err(f)
      case Ok(roster) => Fold(BatterStep(p, m, m.pitcherId.value), t, roster)
  }

  function SideStep(p: Provider, g: Game): (Tally, Side) -> Result<Tally>
  {
    (t, s) => VisitSide(p, g, s, t)
  }

  /** The sides of a game, in the order the source visits them. */
  const Sides: seq<Side> := [Away, Home]

  function GameStep(p: Provider): (Tally, Game) -> Result<Tally>
  {
    (t, g) => Fold(SideStep(p, g), t, Sides)
  }

  /** One record row per gathered record, in order. */
  function Rows(records: seq<SignificantMatchup>): seq<Row>
  {
    seq(|records|, i requires 0 <= i < |records| => Stat(records[i]))
  }

  /** The reference result of one scan; client None is a provider that failed to load. */
  function Scan(client: Option<Provider>): seq<Row>
  {
    match client
    case None => [Failure(WrapperNotLoaded)]
    case Some(p) =>
      match p.schedule
      case Err(f) => [Failure(Backend(f))]
      case Ok(games) =>
        if games == [] then []
        else match Fold(GameStep(p), Tally([], {}), games)
          case Err(f) => [Failure(Backend(f))]
          case Ok(t) => Rows(t.records)
  }

  /** The scan as the source runs it. */
  method GetLiveMlbStats(client: Option<Provider>) returns (rows: seq<Row>)
    ensures rows == Scan(client)
    ensures client.None? ==> rows == [Failure(WrapperNotLoaded)]
    ensures client.Some? && client.value.schedule.Err? ==>
      rows == [Failure(Backend(client.value.schedule.fault))]
    ensures client.Some? && client.value.schedule == Ok([]) ==> rows == []
  {
    if client.None? {
      return [Failure(WrapperNotLoaded)];
    }
    var p := client.value;
    if p.schedule.Err? {
      return [Failure(Backend(p.schedule.fault))];
    }
    var games := p.schedule.value;
    if games == [] {
      return [];
    }
    var records: seq<SignificantMatchup> := [];
    var seen: set<int> := {};
    ghost var total := Fold(GameStep(p), Tally([], {}), games);
    for gi := 0 to |games|
      invariant total == Fold(GameStep(p), Tally(records, seen), games[gi..])
    {
      var game := games[gi];
      ghost var atGame := Tally(records, seen);
      assert total == Fold(GameStep(p), atGame, games[gi..]);
      assert games[gi..][0] == game && games[gi..][1..] == games[gi + 1..];
      var sides := Sides;
      for si := 0 to |sides|
        invariant Fold(SideStep(p, game), atGame, sides) ==
                  Fold(SideStep(p, game), Tally(records, seen), sides[si..])
      {
        var side := sides[si];
        assert sides[si..][0] == side && sides[si..][1..] == sides[si + 1..];
        var m := MatchupOf(game, side);
        if !Truthy(m.pitcherId) {
          continue;
        }
        var pid := m.pitcherId.value;
        var reply := p.roster(m.teamId);
        if reply.Err? {
          return [Failure(Backend(reply.fault))];
        }
        var roster := reply.value;
        ghost var atSide := Tally(records, seen);
        for ri := 0 to |roster|
          invariant Fold(BatterStep(p, m, pid), atSide, roster) ==
                    Fold(BatterStep(p, m, pid), Tally(records, seen), roster[ri..])
        {
          var entry := roster[ri];
          assert roster[ri..][0] == entry && roster[ri..][1..] == roster[ri + 1..];
          if entry.id.None? {
            return [Failure(Backend(MissingPersonId))];
          }
          var id := entry.id.value;
          if id in seen {
            continue;
          }
          var career := p.career(id, pid);
          if career.Raised? {
            return [Failure(Backend(career.fault))];
          }
          if career.Found? && career.value > 0 && entry.fullName.Some? {
            var log := p.gameLog(id);
            if log.Raised? {
              return [Failure(Backend(log.fault))];
            }
            if log.Found? {
              var form := SumRecent(log.value);
              if form.Some? {
                var r := SignificantMatchup(entry.fullName.value, id, m.teamName, m.pitcherName,
                                            career.value, form.value.last5, form.value.last10,
                                            form.value.last20);
                records := records + [r];
                seen := seen + {id};
              }
            }
          }
        }
      }
    }
    rows := Rows(records);
  }
}
