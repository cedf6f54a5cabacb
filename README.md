# Batter-versus-pitcher matchup scan

This project is a Dafny model of `get_live_mlb_stats`
(`onetwothree/api/index.py`). The function reads today's schedule from a
statistics provider. For each game it pairs the away batters with the home
probable pitcher, then the home batters with the away probable pitcher. For
each batter it looks up career home runs against that pitcher. It returns
every batter with at least one such home run, at most once per scan, together with
home-run counts over their last 5, 10 and 20 games.

The provider is not called. Its answers are inputs (`StatsTypes.Provider`):

- `schedule`: the games, or the exception `schedule()` raised;
- `roster`: a team's roster list, or an exception;
- `career`: a batter's career home runs against a pitcher;
- `gameLog`: a batter's recent game log, most recent game first.

A lookup made inside the per-batter `try` is `Found`, `Missing` or `Raised`.
`Missing` covers a `KeyError`/`IndexError`, which is caught and skipped.
`Raised` covers any other exception, which reaches the outer handler and ends
the scan. A client that failed to load is `client == None`. In that case there
is no provider, so no lookup can be made.

Files:

- `stats_types.dfy` (`StatsTypes`): games, roster entries, the provider, matchups, output rows.
- `recent_form.dfy` (`RecentForm`): the last-5/10/20 counters, as a function
  (`Recent`) and as the counting loop of the source (`SumRecent`).
- `scanner.dfy` (`Scanner`): the reference definition `Scan`, a fold over
  games, then sides, then roster entries. It also holds the imperative
  `GetLiveMlbStats`, with the source's nested loops, seen-set and early exits,
  proved to return `Scan`.
- `scan_properties.dfy` (`ScanProperties`): what the scan guarantees.

Three details of the code go beyond the plain description above, and the
model keeps each of them:

- The code skips a side whose pitcher id is falsy. That includes an id of 0,
  not only a missing id.
- After the career check, a batter is also skipped silently when `fullName`
  is missing, when the game log is missing, or when a log entry has no `stat`.
  The `fullName` check comes before the game-log lookup, so a failing game-log
  call is never made for such a batter.
- An exception other than `KeyError`/`IndexError` raised by a per-batter
  provider call is not caught by the inner handler. It aborts the whole scan.

## Model

| member | source | states |
|---|---|---|
| `StatsTypes.MatchupOf` | onetwothree/api/index.py:29-34 | away batters face the home probable pitcher; home batters face the away probable pitcher |
| `RecentForm.SumRecent` | onetwothree/api/index.py:69-76 | the counting loop returns exactly `Recent(log)`: last5, last10 and last20 sum the first 5, the first 10 and all log entries; the loop gives up (None) at an entry without `stat` |
| `RecentForm.DecodeSpec` | onetwothree/api/index.py:72-73 | reading a game log succeeds iff every entry has a `stat`; it then keeps each entry's home runs, in order |
| `RecentForm.SumPrefixMonotone` | onetwothree/api/index.py:74-76 | summing a longer prefix of home-run counts never gives less |
| `RecentForm.SumStep` | onetwothree/api/index.py:72-76 | extending a prefix by one entry adds that entry's home runs |
| `RecentForm.RecentOrdered` | onetwothree/api/index.py:71-76 | last5 <= last10 <= last20 |
| `RecentForm.RecentShortLog` | onetwothree/api/index.py:71-76 | a log of at most five games gives three equal counters |
| `RecentForm.RecentMissingStat` | onetwothree/api/index.py:73 | one log entry without `stat` means no counters, so the batter is skipped |
| `Scanner.GetLiveMlbStats` | onetwothree/api/index.py:1-102 | the loop program returns `Scan(client)`; no client gives exactly the fixed "could not be loaded" error row; a failing schedule gives one error row; an empty schedule gives [] |
| `ScanProperties.ScanSound` | onetwothree/api/index.py:14-102 | the result is one error row or only records; no player id appears twice; each record has a game of the schedule and a side justifying it (`JustifiedBy`); careerHRs > 0; last5 <= last10 <= last20 |
| `ScanProperties.ScanComplete` | onetwothree/api/index.py:26-90 | when the scan returns no error row, every batter who qualifies on a side of a scheduled game (truthy pitcher id, on the roster with id and name, career home runs > 0 against that pitcher, complete game log) appears in the result |
| `ScanProperties.FoldReaches` | onetwothree/api/index.py:26-44 | a loop that raises nothing performs the step on every element, from the state the earlier elements left |
| `ScanProperties.RosterGrows` | onetwothree/api/index.py:44-90 | a roster walk only adds to the seen-set |
| `ScanProperties.SideGrows` | onetwothree/api/index.py:29-44 | one side only adds to the seen-set |
| `ScanProperties.SidesGrow` | onetwothree/api/index.py:29-37 | the sides of a game only add to the seen-set |
| `ScanProperties.GamesGrow` | onetwothree/api/index.py:26-37 | the games only add to the seen-set, so a batter once emitted stays marked |
| `ScanProperties.SideMarks` | onetwothree/api/index.py:44-90 | after a side that raises nothing, each batter qualifying on it is in the seen-set (emitted now or earlier) |
| `ScanProperties.GameMarks` | onetwothree/api/index.py:26-90 | after a game that raises nothing, each batter qualifying on one of its sides is in the seen-set |
| `ScanProperties.ScheduleKeeps` | onetwothree/api/index.py:22-94 | after a scan that raises nothing, the seen-set is exactly the set of emitted ids, ids are distinct, and every record is justified |
| `ScanProperties.GameStepKeeps` | onetwothree/api/index.py:26-37 | one game keeps that invariant |
| `ScanProperties.VisitSideKeeps` | onetwothree/api/index.py:36-44 | one side keeps that invariant |
| `ScanProperties.VisitBatterKeeps` | onetwothree/api/index.py:44-90 | one batter keeps that invariant; the new record comes from a roster entry with that id and name, and the career count tested > 0 is the count stored |
| `ScanProperties.FoldKeeps` | onetwothree/api/index.py:26-44 | a loop over games, sides or roster keeps an invariant that each of its steps keeps |
| `ScanProperties.FoldAppend` | onetwothree/api/index.py:26-44 | running a loop over two parts is running it over the first part, then the second |
| `ScanProperties.FoldAborts` | onetwothree/api/index.py:99-102 | the first uncaught exception ends the loop with that exception, whatever follows it |
| `ScanProperties.AbortDiscards` | onetwothree/api/index.py:99-102 | an exception in game k, after earlier games gathered records, gives exactly one error row; the gathered records are discarded |
| `ScanProperties.GameIsAwayThenHome` | onetwothree/api/index.py:29-37 | a game is its away side, then its home side (at most two matchups), stopping at an exception |
| `ScanProperties.SideWithoutPitcher` | onetwothree/api/index.py:36-37 | a side whose pitcher id is absent or 0 adds no record and makes no lookup |
| `ScanProperties.BatterRules` | onetwothree/api/index.py:44-94 | a missing `person.id` aborts; an already seen batter, a missing split, 0 career home runs, a missing `fullName`, a missing game log or an entry without `stat` leave the state unchanged and the batter unmarked; a career lookup, or (after a positive count and a name) a game-log lookup, that raises anything but KeyError/IndexError aborts with that fault; an emitted batter is appended once and added to the seen-set |
| `ScanProperties.BatterEmitted` | onetwothree/api/index.py:53-90 | an unseen batter with career home runs > 0, a name and a complete game log is appended with those values and marked seen |
| `ScanProperties.SingleBatterSide` | onetwothree/api/index.py:40-90 | a side whose roster holds one emitted batter yields exactly that batter's record |
| `ScanProperties.SingleGameScan` | onetwothree/api/index.py:16-26 | a one-game schedule returns that game's records as rows |
| `ScanProperties.SevenGameLogForm` | onetwothree/api/index.py:71-76 | the log 1,0,0,1,0,1,0 gives last5 = 2, last10 = 3, last20 = 3 |
| `ScanProperties.OneGameScenario` | onetwothree/api/index.py:14-97 | one game, batter X with 2 career home runs against home pitcher P: the result is exactly X's record with careerHRs 2 and last5 over the first five games |
| `ScanProperties.SkippedBatterRetried` | onetwothree/api/index.py:48-90 | in a double-header, a batter with 0 home runs against the first pitcher is not marked, is evaluated again and is emitted against the second pitcher |

## Left out

- `onetwothree/api/get-stats.js`: a separate JavaScript handler that runs its lookups concurrently and fills last5/10/20 with `Math.random()` placeholders. It has no deterministic behaviour to model.
- The provider's internals (`statsapi.schedule`, `statsapi.get`) and its HTTP traffic. Their answers are inputs, already decoded into the fields the scan reads: an absent `roster` key becomes [], an absent `homeRuns` becomes 0, and an absent `stats` or `splits` in the game-log reply becomes an empty log. An empty `stats` list raises `IndexError`, so it is `Missing`.
- The diagnostic `print` calls. They only write log output.
- The text of exception messages. A fault is an opaque value (`ProviderError(message)` or `MissingPersonId`).
- Python dynamic typing: ids are modelled as integers, while the source accepts any hashable id (only an unhashable one fails, at the `in processed_players` test); a `homeRuns` that is not a number would raise a `TypeError` in the source. In the model home runs are naturals.
- The `limit=20` of the game-log query belongs to the provider. `last20` is the sum of every entry the provider returns.
- Repeated identical lookups: the provider is a fixed function, so asking the same question twice gives the same answer.
- HTTP status codes and headers of the endpoint.
