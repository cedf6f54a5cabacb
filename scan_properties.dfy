/**
 * What the matchup scan guarantees, proved about the reference definition
 * `Scan` (which `GetLiveMlbStats` is proved to compute).
 */
module ScanProperties {
  import opened StatsTypes
  import opened RecentForm
  import opened Scanner

  function Ids(records: seq<SignificantMatchup>): set<int>
  {
    set r | r in records :: r.playerId
  }

  ghost predicate Distinct(records: seq<SignificantMatchup>)
  {
    forall i, j :: 0 <= i < j < |records| ==> records[i].playerId != records[j].playerId
  }

  /**
   * Record r is what side s of game g yields for one of its batters: the
   * side has a truthy pitcher id, the batter is on the batting team's
   * roster under that id and name, the career home runs against that
   * pitcher are the looked-up value and above zero, and the pace counters
   * are those of the batter's game log.
   */
  ghost predicate JustifiedBy(p: Provider, g: Game, s: Side, r: SignificantMatchup)
  {
    var m := MatchupOf(g, s);
    && Truthy(m.pitcherId)
    && r.team == m.teamName && r.vsPitcher == m.pitcherName
    && p.roster(m.teamId).Ok?
    && RosterEntry(Some(r.playerId), Some(r.playerName)) in p.roster(m.teamId).value
    && p.career(r.playerId, m.pitcherId.value) == Found(r.careerHRs) && r.careerHRs > 0
    && p.gameLog(r.playerId).Found?
    && Recent(p.gameLog(r.playerId).value) == Some(Form(r.last5, r.last10, r.last20))
  }

  ghost predicate Justified(p: Provider, games: seq<Game>, r: SignificantMatchup)
  {
    exists g, s :: g in games && JustifiedBy(p, g, s, r)
  }

  /**
   * The scan's invariant: the seen-set holds exactly the emitted player
   * ids, no id is emitted twice, and every record is justified by the schedule.
   */
  ghost predicate Sound(p: Provider, games: seq<Game>, t: Tally)
  {
    && t.seen == Ids(t.records)
    && Distinct(t.records)
    && forall r :: r in t.records ==> Justified(p, games, r)
  }

  /** Folding keeps any invariant that each step over an element of xs keeps. */
  lemma {:induction false} FoldKeeps<T>(step: (Tally, T) -> Result<Tally>, inv: Tally -> bool, t: Tally, xs: seq<T>)
    requires inv(t)
    requires forall u, x :: x in xs && inv(u) && step(u, x).Ok? ==> inv(step(u, x).value)
    ensures Fold(step, t, xs).Ok? ==> inv(Fold(step, t, xs).value)
    decreases |xs|
  {
    if xs != [] {
      match step(t, xs[0])
      case Err(_) =>
      case Ok(t') =>
        assert forall x :: x in xs[1..] ==> x in xs;
        FoldKeeps(step, inv, t', xs[1..]);
    }
  }

  /** Folding over a concatenation folds the first part, then the second from where it stopped. */
  lemma {:induction false} FoldAppend<T>(step: (Tally, T) -> Result<Tally>, t: Tally, xs: seq<T>, ys: seq<T>)
    ensures Fold(step, t, xs + ys) ==
      match Fold(step, t, xs)
      case Err(f) => Err(f)
      case Ok(u) => Fold(step, u, ys)
    decreases |xs|
  {
    if xs == [] {
      assert xs + ys == ys;
    } else {
      assert (xs + ys)[0] == xs[0] && (xs + ys)[1..] == xs[1..] + ys;
      match step(t, xs[0])
      case Err(_) =>
      case Ok(t') => FoldAppend(step, t', xs[1..], ys);
    }
  }

  /**
   * The first exception ends the fold: whatever the elements after it,
   * the result is that exception.
   */
  lemma FoldAborts<T>(step: (Tally, T) -> Result<Tally>, t: Tally, xs: seq<T>, k: nat, u: Tally, f: Fault)
    requires k < |xs|
    requires Fold(step, t, xs[..k]) == Ok(u) && step(u, xs[k]) == Err(f)
    ensures Fold(step, t, xs) == Err(f)
  {
    assert xs == xs[..k] + xs[k..];
    FoldAppend(step, t, xs[..k], xs[k..]);
    assert xs[k..][0] == xs[k];
  }

  /** One batter keeps the invariant. */
  lemma VisitBatterKeeps(p: Provider, games: seq<Game>, g: Game, s: Side, roster: seq<RosterEntry>,
                         t: Tally, e: RosterEntry)
    requires g in games && Truthy(MatchupOf(g, s).pitcherId)
    requires p.roster(MatchupOf(g, s).teamId) == Ok(roster) && e in roster
    requires Sound(p, games, t)
    requires VisitBatter(p, MatchupOf(g, s), MatchupOf(g, s).pitcherId.value, t, e).Ok?
    ensures Sound(p, games, VisitBatter(p, MatchupOf(g, s), MatchupOf(g, s).pitcherId.value, t, e).value)
  {
    var m := MatchupOf(g, s);
    var t' := VisitBatter(p, m, m.pitcherId.value, t, e).value;
    if t' != t {
      var id := e.id.value;
      var log := p.gameLog(id).value;
      var form := Recent(log).value;
      var r := SignificantMatchup(e.fullName.value, id, m.teamName, m.pitcherName,
                                  p.career(id, m.pitcherId.value).value,
                                  form.last5, form.last10, form.last20);
      assert t' == Tally(t.records + [r], t.seen + {id});
      assert e == RosterEntry(Some(r.playerId), Some(r.playerName));
      assert JustifiedBy(p, g, s, r);
      assert Ids(t'.records) == Ids(t.records) + {id};
      forall x | x in t'.records ensures Justified(p, games, x) {
        if x != r {
          assert x in t.records;
        }
      }
    }
  }

  /** One side of a game keeps the invariant. */
  lemma VisitSideKeeps(p: Provider, games: seq<Game>, g: Game, s: Side, t: Tally)
    requires g in games && Sound(p, games, t)
    requires VisitSide(p, g, s, t).Ok?
    ensures Sound(p, games, VisitSide(p, g, s, t).value)
  {
    var m := MatchupOf(g, s);
    if Truthy(m.pitcherId) {
      var roster := p.roster(m.teamId).value;
      var step := BatterStep(p, m, m.pitcherId.value);
      forall u, e | e in roster && Sound(p, games, u) && step(u, e).Ok?
        ensures Sound(p, games, step(u, e).value)
      {
        VisitBatterKeeps(p, games, g, s, roster, u, e);
      }
      FoldKeeps(step, u => Sound(p, games, u), t, roster);
    }
  }

  /** One game keeps the invariant. */
  lemma GameStepKeeps(p: Provider, games: seq<Game>, g: Game, t: Tally)
    requires g in games && Sound(p, games, t)
    requires GameStep(p)(t, g).Ok?
    ensures Sound(p, games, GameStep(p)(t, g).value)
  {
    var step := SideStep(p, g);
    forall u, s | s in Sides && Sound(p, games, u) && step(u, s).Ok?
      ensures Sound(p, games, step(u, s).value)
    {
      VisitSideKeeps(p, games, g, s, u);
    }
    FoldKeeps(step, u => Sound(p, games, u), t, Sides);
  }

  /** The whole schedule keeps the invariant. */
  lemma ScheduleKeeps(p: Provider, games: seq<Game>)
    requires Fold(GameStep(p), Tally([], {}), games).Ok?
    ensures Sound(p, games, Fold(GameStep(p), Tally([], {}), games).value)
  {
    var step := GameStep(p);
    forall u, g | g in games && Sound(p, games, u) && step(u, g).Ok?
      ensures Sound(p, games, step(u, g).value)
    {
      GameStepKeeps(p, games, g, u);
    }
    FoldKeeps(step, u => Sound(p, games, u), Tally([], {}), games);
  }

  /**
   * The scan's result: either exactly one error row, or only records; no
   * player id twice; every record justified by a game of the schedule, with
   * career home runs above zero and last5 <= last10 <= last20.
   */
  lemma ScanSound(client: Option<Provider>)
    ensures var rows := Scan(client);
      (|rows| == 1 && rows[0].Failure?) || forall i :: 0 <= i < |rows| ==> rows[i].Stat?
    ensures var rows := Scan(client);
      forall i, j :: 0 <= i < j < |rows| && rows[i].Stat? && rows[j].Stat? ==>
        rows[i].record.playerId != rows[j].record.playerId
    ensures var rows := Scan(client);
      forall i :: 0 <= i < |rows| && rows[i].Stat? ==>
        && client.Some? && client.value.schedule.Ok?
        && Justified(client.value, client.value.schedule.value, rows[i].record)
        && rows[i].record.careerHRs > 0
        && rows[i].record.last5 <= rows[i].record.last10 <= rows[i].record.last20
  {
    if client.Some? && client.value.schedule.Ok? {
      var p := client.value;
      var games := p.schedule.value;
      var result := Fold(GameStep(p), Tally([], {}), games);
      if games != [] && result.Ok? {
        ScheduleKeeps(p, games);
        var records := result.value.records;
        forall i | 0 <= i < |records|
          ensures records[i].last5 <= records[i].last10 <= records[i].last20
        {
          assert Justified(p, games, records[i]);
          var g, s :| g in games && JustifiedBy(p, g, s, records[i]);
          RecentOrdered(p.gameLog(records[i].playerId).value);
        }
      }
    }
  }

  /**
   * An exception in some game, after earlier games gathered records u,
   * yields the single error row: the gathered records are discarded.
   */
  lemma AbortDiscards(p: Provider, games: seq<Game>, k: nat, u: Tally, f: Fault)
    requires p.schedule == Ok(games) && k < |games|
    requires Fold(GameStep(p), Tally([], {}), games[..k]) == Ok(u)
    requires GameStep(p)(u, games[k]) == Err(f)
    ensures Scan(Some(p)) == [Failure(Backend(f))]
  {
    FoldAborts(GameStep(p), Tally([], {}), games, k, u, f);
  }

  /** A game is its away side, then its home side: at most two matchups. */
  lemma GameIsAwayThenHome(p: Provider, g: Game, t: Tally)
    ensures GameStep(p)(t, g) ==
      match VisitSide(p, g, Away, t)
      case Err(f) => Err(f)
      case Ok(t1) => VisitSide(p, g, Home, t1)
  {
    var step := SideStep(p, g);
    assert Sides[1..][1..] == [];
    match step(t, Away)
    case Err(_) =>
    case Ok(t1) =>
      assert Fold(step, t1, Sides[1..]) == match step(t1, Home) case Err(f) => Err(f) case Ok(t2) => Ok(t2);
  }

  /** A side whose pitcher id is absent or 0 adds nothing and looks nothing up. */
  lemma SideWithoutPitcher(p: Provider, g: Game, s: Side, t: Tally)
    requires !Truthy(MatchupOf(g, s).pitcherId)
    ensures VisitSide(p, g, s, t) == Ok(t)
  {
  }

  /**
   * What one batter does to the scan: a batter without `person.id` aborts;
   * an already emitted one, or one whose career split or game log is
   * missing, whose career home runs are 0, whose `fullName` is missing or
   * whose log has an entry without `stat`, leaves the tally unchanged (and
   * so unmarked); a career or game-log lookup that raises anything else
   * aborts; a batter who is emitted is appended once and marked.
   */
  lemma BatterRules(p: Provider, m: Matchup, pid: int, t: Tally, e: RosterEntry)
    ensures e.id.None? ==> VisitBatter(p, m, pid, t, e) == Err(MissingPersonId)
    ensures e.id.Some? && e.id.value in t.seen ==> VisitBatter(p, m, pid, t, e) == Ok(t)
    ensures e.id.Some? && (p.career(e.id.value, pid) == Missing || p.career(e.id.value, pid) == Found(0))
      ==> VisitBatter(p, m, pid, t, e) == Ok(t)
    ensures e.id.Some? && e.id.value !in t.seen && p.career(e.id.value, pid).Raised?
      ==> VisitBatter(p, m, pid, t, e) == Err(p.career(e.id.value, pid).fault)
    ensures e.id.Some? && p.career(e.id.value, pid).Found? && e.fullName.None?
      ==> VisitBatter(p, m, pid, t, e) == Ok(t)
    ensures e.id.Some? && e.fullName.Some? && p.career(e.id.value, pid).Found? &&
      (p.gameLog(e.id.value) == Missing ||
       (p.gameLog(e.id.value).Found? && Recent(p.gameLog(e.id.value).value).None?))
      ==> VisitBatter(p, m, pid, t, e) == Ok(t)
    ensures e.id.Some? && e.id.value !in t.seen && e.fullName.Some? &&
      p.career(e.id.value, pid).Found? && p.career(e.id.value, pid).value > 0 &&
      p.gameLog(e.id.value).Raised?
      ==> VisitBatter(p, m, pid, t, e) == Err(p.gameLog(e.id.value).fault)
    ensures VisitBatter(p, m, pid, t, e).Ok? && VisitBatter(p, m, pid, t, e) != Ok(t) ==>
      && e.id.Some? && e.id.value !in t.seen
      && VisitBatter(p, m, pid, t, e).value.seen == t.seen + {e.id.value}
      && |VisitBatter(p, m, pid, t, e).value.records| == |t.records| + 1
      && VisitBatter(p, m, pid, t, e).value.records[..|t.records|] == t.records
  {
  }

  /**
   * A batter not yet emitted, with a positive career count against the
   * pitcher, a name and a complete game log, is appended and marked.
   */
  lemma BatterEmitted(p: Provider, m: Matchup, pid: int, t: Tally, e: RosterEntry, log: seq<Option<nat>>)
    requires e.id.Some? && e.id.value !in t.seen && e.fullName.Some?
    requires p.career(e.id.value, pid).Found? && p.career(e.id.value, pid).value > 0
    requires p.gameLog(e.id.value) == Found(log) && Recent(log).Some?
    ensures VisitBatter(p, m, pid, t, e) ==
      Ok(Tally(t.records + [SignificantMatchup(e.fullName.value, e.id.value, m.teamName, m.pitcherName,
                                               p.career(e.id.value, pid).value, Recent(log).value.last5,
                                               Recent(log).value.last10, Recent(log).value.last20)],
               t.seen + {e.id.value}))
  {
  }

  /**
   * The fold reaches every element: before xs[k] it is in some state u, the
   * step on xs[k] succeeds, and the rest of the fold continues from there.
   */
  lemma FoldReaches<T>(step: (Tally, T) -> Result<Tally>, t: Tally, xs: seq<T>, k: nat)
    requires k < |xs| && Fold(step, t, xs).Ok?
    ensures Fold(step, t, xs[..k]).Ok?
    ensures step(Fold(step, t, xs[..k]).value, xs[k]).Ok?
    ensures Fold(step, step(Fold(step, t, xs[..k]).value, xs[k]).value, xs[k + 1..]) == Fold(step, t, xs)
  {
    assert xs == xs[..k] + xs[k..];
    FoldAppend(step, t, xs[..k], xs[k..]);
    assert xs[k..][0] == xs[k] && xs[k..][1..] == xs[k + 1..];
  }

  /** A roster walk only adds to the seen-set. */
  lemma RosterGrows(p: Provider, m: Matchup, pid: int, t: Tally, roster: seq<RosterEntry>)
    ensures Fold(BatterStep(p, m, pid), t, roster).Ok? ==>
      t.seen <= Fold(BatterStep(p, m, pid), t, roster).value.seen
  {
    var step := BatterStep(p, m, pid);
    forall u: Tally, e | e in roster && t.seen <= u.seen && step(u, e).Ok?
      ensures t.seen <= step(u, e).value.seen
    {
      BatterRules(p, m, pid, u, e);
    }
    FoldKeeps(step, (u: Tally) => t.seen <= u.seen, t, roster);
  }

  /** One side only adds to the seen-set. */
  lemma SideGrows(p: Provider, g: Game, s: Side, t: Tally)
    ensures VisitSide(p, g, s, t).Ok? ==> t.seen <= VisitSide(p, g, s, t).value.seen
  {
    var m := MatchupOf(g, s);
    if Truthy(m.pitcherId) && p.roster(m.teamId).Ok? {
      RosterGrows(p, m, m.pitcherId.value, t, p.roster(m.teamId).value);
    }
  }

  /** Some sides of a game only add to the seen-set. */
  lemma SidesGrow(p: Provider, g: Game, t: Tally, sides: seq<Side>)
    ensures Fold(SideStep(p, g), t, sides).Ok? ==> t.seen <= Fold(SideStep(p, g), t, sides).value.seen
  {
    var step := SideStep(p, g);
    forall u: Tally, s | s in sides && t.seen <= u.seen && step(u, s).Ok?
      ensures t.seen <= step(u, s).value.seen
    {
      SideGrows(p, g, s, u);
    }
    FoldKeeps(step, (u: Tally) => t.seen <= u.seen, t, sides);
  }

  /** Some games only add to the seen-set. */
  lemma GamesGrow(p: Provider, t: Tally, games: seq<Game>)
    ensures Fold(GameStep(p), t, games).Ok? ==> t.seen <= Fold(GameStep(p), t, games).value.seen
  {
    var step := GameStep(p);
    forall u: Tally, g | g in games && t.seen <= u.seen && step(u, g).Ok?
      ensures t.seen <= step(u, g).value.seen
    {
      SidesGrow(p, g, u, Sides);
    }
    FoldKeeps(step, (u: Tally) => t.seen <= u.seen, t, games);
  }

  /**
   * A batter qualifies on side s of game g: the side has a truthy pitcher
   * id, the batter is on the batting team's roster with an id and a name,
   * has career home runs above zero against that pitcher and a game log
   * whose every entry has a `stat`.
   */
  ghost predicate Qualifies(p: Provider, g: Game, s: Side, e: RosterEntry)
  {
    var m := MatchupOf(g, s);
    && Truthy(m.pitcherId)
    && p.roster(m.teamId).Ok? && e in p.roster(m.teamId).value
    && e.id.Some? && e.fullName.Some?
    && p.career(e.id.value, m.pitcherId.value).Found?
    && p.career(e.id.value, m.pitcherId.value).value > 0
    && p.gameLog(e.id.value).Found? && Recent(p.gameLog(e.id.value).value).Some?
  }

  /** After a side that raises nothing, each batter qualifying on it is marked seen. */
  lemma SideMarks(p: Provider, g: Game, s: Side, t: Tally, e: RosterEntry)
    requires Qualifies(p, g, s, e) && VisitSide(p, g, s, t).Ok?
    ensures e.id.value in VisitSide(p, g, s, t).value.seen
  {
    var m := MatchupOf(g, s);
    var pid := m.pitcherId.value;
    var roster := p.roster(m.teamId).value;
    var step := BatterStep(p, m, pid);
    var k :| 0 <= k < |roster| && roster[k] == e;
    FoldReaches(step, t, roster, k);
    var u := Fold(step, t, roster[..k]).value;
    var u' := step(u, e).value;
    if e.id.value !in u.seen {
      BatterEmitted(p, m, pid, u, e, p.gameLog(e.id.value).value);
    }
    assert e.id.value in u'.seen;
    RosterGrows(p, m, pid, u', roster[k + 1..]);
  }

  /** After a game that raises nothing, each batter qualifying on one of its sides is marked seen. */
  lemma GameMarks(p: Provider, g: Game, s: Side, t: Tally, e: RosterEntry)
    requires Qualifies(p, g, s, e) && GameStep(p)(t, g).Ok?
    ensures e.id.value in GameStep(p)(t, g).value.seen
  {
    var step := SideStep(p, g);
    var k := if s == Away then 0 else 1;
    assert Sides[k] == s;
    FoldReaches(step, t, Sides, k);
    var u := Fold(step, t, Sides[..k]).value;
    SideMarks(p, g, s, u, e);
    SidesGrow(p, g, step(u, s).value, Sides[k + 1..]);
  }

  /**
   * Completeness: when the scan raises nothing, every batter who qualifies
   * on some side of some scheduled game appears in the result (against
   * that pitcher or one met earlier in the scan).
   */
  lemma ScanComplete(p: Provider, games: seq<Game>, g: Game, s: Side, e: RosterEntry)
    requires p.schedule == Ok(games) && g in games && Qualifies(p, g, s, e)
    requires forall i :: 0 <= i < |Scan(Some(p))| ==> Scan(Some(p))[i].Stat?
    ensures exists i :: 0 <= i < |Scan(Some(p))| && Scan(Some(p))[i].Stat? && Scan(Some(p))[i].record.playerId == e.id.value
  {
    var t0 := Tally([], {});
    var result := Fold(GameStep(p), t0, games);
    assert |Scan(Some(p))| == 0 || Scan(Some(p))[0].Stat?;
    assert result.Ok?;
    var k :| 0 <= k < |games| && games[k] == g;
    FoldReaches(GameStep(p), t0, games, k);
    var u := Fold(GameStep(p), t0, games[..k]).value;
    GameMarks(p, g, s, u, e);
    GamesGrow(p, GameStep(p)(u, g).value, games[k + 1..]);
    ScheduleKeeps(p, games);
    var records := result.value.records;
    assert e.id.value in Ids(records);
    var r :| r in records && r.playerId == e.id.value;
    var i :| 0 <= i < |records| && records[i] == r;
    assert Scan(Some(p))[i] == Stat(r);
  }

  /** A side whose roster holds one batter who is emitted yields that batter's record. */
  lemma SingleBatterSide(p: Provider, g: Game, s: Side, t: Tally, e: RosterEntry, log: seq<Option<nat>>)
    requires Truthy(MatchupOf(g, s).pitcherId) && p.roster(MatchupOf(g, s).teamId) == Ok([e])
    requires e.id.Some? && e.id.value !in t.seen && e.fullName.Some?
    requires p.career(e.id.value, MatchupOf(g, s).pitcherId.value).Found?
    requires p.career(e.id.value, MatchupOf(g, s).pitcherId.value).value > 0
    requires p.gameLog(e.id.value) == Found(log) && Recent(log).Some?
    ensures VisitSide(p, g, s, t) ==
      Ok(Tally(t.records + [SignificantMatchup(e.fullName.value, e.id.value,
                                               MatchupOf(g, s).teamName, MatchupOf(g, s).pitcherName,
                                               p.career(e.id.value, MatchupOf(g, s).pitcherId.value).value,
                                               Recent(log).value.last5, Recent(log).value.last10,
                                               Recent(log).value.last20)],
               t.seen + {e.id.value}))
  {
    var m := MatchupOf(g, s);
    var step := BatterStep(p, m, m.pitcherId.value);
    BatterEmitted(p, m, m.pitcherId.value, t, e, log);
    var t' := VisitBatter(p, m, m.pitcherId.value, t, e).value;
    assert [e][0] == e && [e][1..] == [];
    assert step(t, e) == Ok(t');
    assert Fold(step, t', []) == Ok(t');
    assert Fold(step, t, [e]) == Ok(t');
  }

  /** A one-game schedule yields the records of that game. */
  lemma SingleGameScan(p: Provider, g: Game, t: Tally)
    requires p.schedule == Ok([g]) && GameStep(p)(Tally([], {}), g) == Ok(t)
    ensures Scan(Some(p)) == Rows(t.records)
  {
    assert [g][0] == g && [g][1..] == [];
    assert Fold(GameStep(p), t, []) == Ok(t);
    assert Fold(GameStep(p), Tally([], {}), [g]) == Ok(t);
  }

  /** The game log of the one-game scenario: home runs 1, 0, 0, 1, 0, 1, 0. */
  function SevenGameLog(): seq<Option<nat>>
  {
    [Some(1), Some(0), Some(0), Some(1), Some(0), Some(1), Some(0)]
  }

  lemma SevenGameLogForm()
    ensures Recent(SevenGameLog()) == Some(Form(2, 3, 3))
  {
    var log := SevenGameLog();
    DecodeSpec(log);
    var hrs := Decode(log).value;
    assert hrs == [1, 0, 0, 1, 0, 1, 0];
    assert hrs[..0] == [] && hrs[..7] == hrs;
    SumStep(hrs, 0); SumStep(hrs, 1); SumStep(hrs, 2); SumStep(hrs, 3);
    SumStep(hrs, 4); SumStep(hrs, 5); SumStep(hrs, 6);
  }

  /** Today's batter X (id 1) on the away team "A" facing home pitcher P (id 10). */
  function OneGame(): Provider
  {
    Provider(
      Ok([Game(Some(101), Some("A"), Some(102), Some("B"), None, None, Some(10), Some("P"))]),
      team => if team == Some(101) then Ok([RosterEntry(Some(1), Some("X"))]) else Ok([]),
      (batter, pitcher) => if batter == 1 && pitcher == 10 then Found(2) else Missing,
      batter => Found(SevenGameLog()))
  }

  /**
   * One game, batter X with two career home runs against the home
   * pitcher: one record, with last5 over the first five log entries.
   */
  lemma OneGameScenario()
    ensures Scan(Some(OneGame())) ==
      [Stat(SignificantMatchup("X", 1, Some("A"), Some("P"), 2, 2, 3, 3))]
  {
    var p := OneGame();
    var g := p.schedule.value[0];
    var t0 := Tally([], {});
    var t1 := Tally([SignificantMatchup("X", 1, Some("A"), Some("P"), 2, 2, 3, 3)], {1});
    SevenGameLogForm();
    SingleBatterSide(p, g, Away, t0, RosterEntry(Some(1), Some("X")), SevenGameLog());
    assert MatchupOf(g, Away).teamName == Some("A") && MatchupOf(g, Away).pitcherName == Some("P");
    assert p.career(1, 10) == Found(2);
    assert t0.records + [t1.records[0]] == t1.records && t0.seen + {1} == t1.seen;
    assert VisitSide(p, g, Away, t0) == Ok(t1);
    SideWithoutPitcher(p, g, Home, t1);
    GameIsAwayThenHome(p, g, t0);
    SingleGameScan(p, g, t1);
  }

  /** A double-header: batter X (id 7) of team "A" faces pitcher P (id 10), then Q (id 20). */
  function DoubleHeader(): Provider
  {
    Provider(
      Ok([Game(Some(101), Some("A"), Some(102), Some("B"), None, None, Some(10), Some("P")),
          Game(Some(101), Some("A"), Some(102), Some("B"), None, None, Some(20), Some("Q"))]),
      team => if team == Some(101) then Ok([RosterEntry(Some(7), Some("X"))]) else Ok([]),
      (batter, pitcher) => if pitcher == 20 then Found(3) else Found(0),
      batter => Found([Some(1)]))
  }

  /**
   * A batter skipped in the first game (no home runs against pitcher 10)
   * is not marked, so is evaluated again, and emitted, in the second.
   */
  lemma SkippedBatterRetried()
    ensures Scan(Some(DoubleHeader())) ==
      [Stat(SignificantMatchup("X", 7, Some("A"), Some("Q"), 3, 1, 1, 1))]
  {
    var p := DoubleHeader();
    var games := p.schedule.value;
    var t0 := Tally([], {});
    var t1 := Tally([SignificantMatchup("X", 7, Some("A"), Some("Q"), 3, 1, 1, 1)], {7});
    var e := RosterEntry(Some(7), Some("X"));
    DecodeSpec([Some(1)]);
    assert Recent([Some(1)]) == Some(Form(1, 1, 1));
    assert [e][1..] == [];
    assert VisitBatter(p, MatchupOf(games[0], Away), 10, t0, e) == Ok(t0);
    assert VisitSide(p, games[0], Away, t0) == Ok(t0);
    SideWithoutPitcher(p, games[0], Home, t0);
    GameIsAwayThenHome(p, games[0], t0);
    SingleBatterSide(p, games[1], Away, t0, e, [Some(1)]);
    assert MatchupOf(games[1], Away).teamName == Some("A") && MatchupOf(games[1], Away).pitcherName == Some("Q");
    assert p.career(7, 20) == Found(3);
    assert t0.records + [t1.records[0]] == t1.records && t0.seen + {7} == t1.seen;
    assert VisitSide(p, games[1], Away, t0) == Ok(t1);
    SideWithoutPitcher(p, games[1], Home, t1);
    GameIsAwayThenHome(p, games[1], t0);
    assert games[1..][1..] == [];
  }
}
