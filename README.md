# Football league results: a verified model

This project models the results core of a small five-a-side football league app, in
Dafny. The app records two kinds of match result for each gameweek:

- **Weight** results come from the players' weigh-ins, as goals per team.
- **Pitch** results are the scores of the games played, per team.

Whenever a week has both kinds, it also holds a **Combined** entry: the per-team sum of
weight goals and pitch goals. The league table adds each team's scores of one kind over
all weeks and ranks the teams by points. The pitch form turns the scores typed for a
week's fixture into the `teamId -> score` map that it submits.

The model has seven modules:

- `Wrappers`: the `Option` type.
- `Schedule` (`schedule.dfy`): the four-team name/id table `teamMapping`, the fixtures, and
  `fixtures.find` by week.
- `Results` (`results.dfy`): the results store of `store/resultsSlice.js`. It has a class
  `ResultsStore` whose reducers are methods that update its fields in place. Each method is
  proved equal to a specification function (`SubmitWeight`, `SubmitPitch`, `Recompute`),
  and the properties of the store are lemmas about those functions.
- `League` (`league.dfy`): the fold, the sort and the score lookup of
  `components/League.jsx`. The loops become methods proved against the fold functions, and
  the sort is a stable insertion sort.
- `LogPitch` (`logpitch.dfy`): `handleScoreChange` as a pure map update, and
  `handleSubmit` with its `forEach` as a loop proved against `PitchResults`.
- `Flow` (`flow.dfy`): the submission dispatched to the store, and the path from the form
  to the league table.
- `Collections` (`collections.dfy`) holds helper facts: the least element of a set and the
  sum of a map's values.

Modelling choices:

- **Week keys are integers.** `GW{n}` is modelled as the number `n`.
- **Week order.** The store keeps the order in which week keys were created, besides the
  map, because a JavaScript object enumerates non-numeric keys (`GW1`, `GW2`, ...) in
  insertion order. The league fold walks the weeks in that order.
- **Team keys are integers.** `String(team)` and `parseInt(teamId)` are the identity on
  them, so these conversions do not change anything.
- **Team row order.** The table's rows are listed in ascending team id before sorting,
  because a JavaScript object enumerates integer-like keys in ascending order.
- **The sort.** `Array.prototype.sort` with `(a, b) => b.points - a.points` is stable, so
  the sorted table ranks teams by points and breaks ties by ascending team id.
- **The pitch-week guard.** `updatePitchScores` rejects a missing, non-numeric or zero
  week. Its week argument is therefore an `Option<int>`, where `None` stands for a missing
  or non-number week (including `NaN`). `updateWeightScores` has no guard.
- **The pitch form's inputs.** An input key `${week}-${index}` is a pair `MatchKey(week,
  index)`. Distinct pairs give distinct strings, because the index is a non-negative
  integer with no `-` in it.
- **The form fields.** A field that was never typed into is `None`. A typed field always
  holds an integer, since the input stores `parseInt(...) || 0`.
- **Side effects.** `dispatch` is modelled by returning the payload (`HandleSubmit`) or by
  calling the store's method (`Flow.SubmitPitchForm`). The `setMatchScores({})` reset is
  the returned empty map.

The code sums raw scores and lists weeks in key order. It has no weight-goal formula, no
win/draw/loss standings or goal difference, and no most-recent-first ordering of results,
so the model has none either.

## Model

| member | source | states |
|---|---|---|
| Schedule.TeamId | my-football-app/src/components/LogPitch.jsx:5-10 | only the ids 1..4 are ever produced for a team name |
| Schedule.TeamIdInjective | my-football-app/src/components/LogPitch.jsx:5-10 | two names with the same id are the same name |
| Schedule.TeamIdRoundTrip | my-football-app/src/components/League.jsx:161-166 | a name maps to an id iff that id maps back to the name; exactly the ids 1..4 have a name |
| Schedule.FindFixture | my-football-app/src/components/LogPitch.jsx:29-31 | `None` iff no fixture has the week; otherwise the fixture at the first index with that week |
| Results.Touch | my-football-app/src/store/resultsSlice.js:14-16 | after it the week has a list: an existing list is kept, a missing one is empty and its week is appended to the key order, and every other week is unchanged |
| Results.FormatTeamKeys | my-football-app/src/store/resultsSlice.js:24-27 | the re-keyed copy of the team results equals the input map |
| Results.ComputeCombined | my-football-app/src/store/resultsSlice.js:92-99 | exactly the pitch teams get a score, each equal to its weight goals (0 when absent) plus its pitch goals |
| Results.ResultsStore.constructor | my-football-app/src/store/resultsSlice.js:3-5 | the store starts with no weeks |
| Results.ResultsStore.LoadFakeResults | my-football-app/src/store/resultsSlice.js:72-74 | the payload replaces the whole store |
| Results.ResultsStore.UpdateCombinedScore | my-football-app/src/store/resultsSlice.js:79-108 | an absent week changes nothing; otherwise the week's list becomes `Recompute` of it, and the week order is unchanged |
| Results.ResultsStore.UpdateWeightScores | my-football-app/src/store/resultsSlice.js:11-37 | the new state is `SubmitWeight` of the old one, and the store invariant is kept |
| Results.ResultsStore.UpdatePitchScores | my-football-app/src/store/resultsSlice.js:39-70 | the new state is `SubmitPitch` of the old one; a missing, non-numeric or zero week leaves the state unchanged |
| Results.ResultsStore.RecordPitch | my-football-app/src/store/resultsSlice.js:47-69 | past the week check, the new state is `SubmitPitch` of the old one for that week |
| Results.FindKind | my-football-app/src/store/resultsSlice.js:84-85 | `find` by type returns the first entry of that type |
| Results.OnlyWithout | my-football-app/src/store/resultsSlice.js:19-21 | filtering out a type removes every entry of that type and keeps the entries of every other type, in order |
| Results.AfterWeightShape | my-football-app/src/store/resultsSlice.js:14-36 | the week's list after a weight submission: without a Pitch entry, the old Weight entries are dropped and the new one is appended; with one, the old Combined entry is also dropped and the new Combined entry is appended after the new Weight entry |
| Results.AfterPitchShape | my-football-app/src/store/resultsSlice.js:47-69 | the mirror of the weight case for a pitch submission |
| Results.WeightEntryReplaced | my-football-app/src/store/resultsSlice.js:19-33 | after a weight submission the week has exactly one Weight entry, holding the submitted data |
| Results.PitchEntryReplaced | my-football-app/src/store/resultsSlice.js:52-66 | after a pitch submission the week has exactly one Pitch entry, holding the submitted data |
| Results.RecomputeEffect | my-football-app/src/store/resultsSlice.js:79-108 | without both a Weight and a Pitch entry the list is untouched, stale Combined entry included; with both, there is exactly one Combined entry, it is last and holds `CombinedScores`, and the Weight and Pitch entries are kept |
| Results.WeightKeepsOthers | my-football-app/src/store/resultsSlice.js:19-36 | a weight submission keeps the Pitch entries, and keeps a stale Combined entry when there is no Pitch entry |
| Results.PitchKeepsOthers | my-football-app/src/store/resultsSlice.js:52-69 | a pitch submission keeps the Weight entries, and keeps a stale Combined entry when there is no Weight entry |
| Results.AtMostOnePreserved | my-football-app/src/store/resultsSlice.js:11-70 | both submissions keep "at most one entry of each type" for a week |
| Results.AfterWeightIdempotent | my-football-app/src/store/resultsSlice.js:11-37 | submitting the same weight data twice gives the same list as once |
| Results.AfterPitchIdempotent | my-football-app/src/store/resultsSlice.js:39-70 | submitting the same pitch data twice gives the same list as once |
| Results.SubmitWeightEffect | my-football-app/src/store/resultsSlice.js:11-37 | for any week, the key order and the map stay consistent; a new week is appended to the order; the week holds exactly one Weight entry, the submitted one; every other week is unchanged |
| Results.SubmitPitchEffect | my-football-app/src/store/resultsSlice.js:39-70 | an invalid week changes nothing; a valid week behaves as in the weight case, with a Pitch entry |
| Results.StoreInvariantPreserved | my-football-app/src/store/resultsSlice.js:11-70 | both submissions keep "at most one entry of each type" in every week of the store |
| Results.SubmitWeightIdempotent | my-football-app/src/store/resultsSlice.js:11-37 | repeating a weight submission leaves the store as after the first one |
| Results.SubmitPitchIdempotent | my-football-app/src/store/resultsSlice.js:39-70 | repeating a pitch submission leaves the store as after the first one |
| League.AddWeek | my-football-app/src/components/League.jsx:27-33 | each team of the week's data gets its score added to its points, starting from 0 for a team with no row |
| League.Aggregate | my-football-app/src/components/League.jsx:18-41 | the match results are the weeks with an entry of the tab's type, in key order, and the standings are their fold |
| League.StandingsPoints | my-football-app/src/components/League.jsx:27-33 | a team has standings iff some listed entry scores it, and then its points are the sum of its scores |
| League.StandingsTotal | my-football-app/src/components/League.jsx:19-41 | all teams' points together equal the sum of every listed score |
| League.MatchResultsListed | my-football-app/src/components/League.jsx:22-40 | every listed week has an entry of the tab's type, listed unchanged; every week with one is listed; there are no more results than weeks |
| League.MatchResultsInOrder | my-football-app/src/components/League.jsx:22-39 | over distinct week keys, each week is listed at most once and the listed weeks follow the key order |
| League.RowsOfFacts | my-football-app/src/components/League.jsx:44 | the rows before sorting are exactly the standings, in ascending team id |
| League.SortByPoints | my-football-app/src/components/League.jsx:44-46 | the sorted rows are a permutation of the input with points non-increasing |
| League.SortRanked | my-football-app/src/components/League.jsx:44-46 | with rows in ascending team id, the stable sort breaks ties by ascending team id and keeps the total |
| League.TableRanked | my-football-app/src/components/League.jsx:43-46 | the table is a permutation of the standings rows, ranked by points then team id, and its points add up to every listed score |
| League.TableRows | my-football-app/src/components/League.jsx:19-46 | a team has a table row iff some listed entry scores it, and its points are its summed scores |
| League.ShownScoreMeaning | my-football-app/src/components/League.jsx:140-141 | a side shows a score iff its name is one of the four teams and the week's data has a score for that team's id |
| League.WeekLinesShape | my-football-app/src/components/League.jsx:120-123 | a week with no fixture of its number shows no lines |
| LogPitch.ScoreChange | my-football-app/src/components/LogPitch.jsx:33-41 | exactly the edited match's key is added or changed; the edited field holds the value; the other field is kept; every other match is unchanged |
| LogPitch.ScoreChangeLastWins | my-football-app/src/components/LogPitch.jsx:33-41 | typing into the same field twice keeps only the second value |
| LogPitch.ScoreChangeCommutes | my-football-app/src/components/LogPitch.jsx:33-41 | edits of different fields or different matches commute |
| LogPitch.CollectPitchResults | my-football-app/src/components/LogPitch.jsx:46-70 | the loop builds `PitchResults` over all the fixture's matches |
| LogPitch.HandleSubmit | my-football-app/src/components/LogPitch.jsx:43-81 | no fixture for the week: nothing is sent and the inputs are kept; otherwise the selected week and its collected results are sent, even when empty, and the inputs are reset |
| LogPitch.PitchResultsKeys | my-football-app/src/components/LogPitch.jsx:52-68 | a team has a result iff some match with both scores typed and both names known names it; only ids 1..4 occur |
| LogPitch.PitchResultsLastWins | my-football-app/src/components/LogPitch.jsx:67-68 | a team's result is the score of the last contributing match naming it; skipped matches do not stop later ones |
| LogPitch.PitchResultsSource | my-football-app/src/components/LogPitch.jsx:48-70 | every stored score comes from the last contributing match naming that team |
| LogPitch.PitchResultsEmptyInputs | my-football-app/src/components/LogPitch.jsx:52-55 | with nothing typed, the results are empty |
| LogPitch.PitchResultsDistinct | my-football-app/src/components/LogPitch.jsx:67-68 | when a match's teams differ and appear in no other contributing match, both its scores are stored under their ids |
| Flow.SubmitPitchForm | my-football-app/src/components/LogPitch.jsx:72-80 | submitting the form applies `SubmitPitch` with the collected results to the store and resets the inputs; without a fixture it changes neither |
| Flow.SubmittedWeekListed | my-football-app/src/components/League.jsx:22-40 | after a pitch submission for a non-zero week, the Pitch tab lists that week with exactly the submitted results |
| Flow.SubmittedScoresShown | my-football-app/src/components/League.jsx:121-141 | the table's line for a contributing match shows both typed scores when its teams appear in no other contributing match |

## Left out

- Rendering, CSS classes, the team colour tables, tab and week selection, the dropdown of
  unique weeks, the fixture date and time columns, and `console.error`/`console.log` output.
  These are display and logging only.
- The Weight tab of the league table. Its values are records, so `points += score` would
  concatenate strings rather than add. Only the Pitch and Combined tabs are modelled.
- Redux and React plumbing (`createSlice`, `useSelector`, `useState`), the startup loading
  of fake players in `App.jsx`, the weight form `LogWeights.jsx`, and the other slices and
  components. None of these is part of the results core.
- No component in the repository dispatches `loadFakeResults` or `updateWeightScores`: the
  weight form only displays changes. Both reducers are modelled as the store defines them.
- Dynamic typing is not modelled: string and number week or team keys, `NaN` scores or
  keys, and `|| 0` applied to `NaN`. Keys are integers, and a week that is missing or not
  a number is `None`.
- Week keys that are not of the form `GW{n}` (a `loadFakeResults` payload could hold
  them) are not representable.
- Team keys with a negative value. JavaScript enumerates those in insertion order, while
  the model lists all team rows in ascending id.
- Object prototype names (`teamMapping["toString"]`), which the JavaScript lookup would
  find. The model maps only the four team names.
- `WeightScore` fields other than `goals`. Nothing in the core reads them.
- League.SortByPoints: models only the stable behaviour that a standard
  `Array.prototype.sort` has. The comparator's subtraction is exact on unbounded
  integers, so floating-point overflow is not modelled.
