/**
 * The path of a pitch result through the application: the form's submission is
 * dispatched to the results store, and the stored entry is what the league table's Pitch
 * tab lists and shows for that week.
 */
module Flow {
  import opened Wrappers
  import opened Schedule
  import opened Results
  import opened League
  import opened LogPitch

  /**
   * Pressing Submit on the pitch form: `handleSubmit` followed by the dispatch of its
   * payload to `updatePitchScores`. Without a fixture for the selected week the store and
   * the inputs are left as they were.
   */
  method SubmitPitchForm(store: ResultsStore, fixtures: seq<Fixture>, selectedWeek: int, scores: MatchScores)
    returns (next: MatchScores)
    requires store.Valid()
    modifies store
    ensures store.Valid()
    ensures FindFixture(fixtures, selectedWeek).None? ==> store.State() == old(store.State()) && next == scores
    ensures FindFixture(fixtures, selectedWeek).Some? ==>
              var f := FindFixture(fixtures, selectedWeek).value;
              && store.State() == SubmitPitch(old(store.State()), Some(selectedWeek),
                                              PitchResults(f.week, f.matches, scores, |f.matches|))
              && next == map[]
  {
    var sent;
    sent, next := HandleSubmit(fixtures, selectedWeek, scores);
    if sent.Some? {
      store.UpdatePitchScores(Some(sent.value.week), sent.value.results);
    }
  }

  /**
   * A submission for a fixture of a non-zero week reaches the league table: the Pitch tab
   * lists that week with exactly the submitted results.
   */
  lemma SubmittedWeekListed(s: Store, week: int, r: map<int, int>)
    requires WellFormed(s) && week != 0
    ensures var s' := SubmitPitch(s, Some(week), r);
            MatchResult(week, r) in MatchResultsOver(s', s'.order, PitchTab)
  {
    var s' := SubmitPitch(s, Some(week), r);
    SubmitPitchEffect(s, Some(week), r);
    PitchEntryReplaced(EntriesAt(s, week), r);
    assert EntriesAt(s', week) == AfterPitch(EntriesAt(s, week), r);
    assert SelectedData(EntriesAt(s', week), PitchTab) == Some(r);
    assert week in s'.order;
    MatchResultsListed(s', s'.order, PitchTab);
  }

  /**
   * The table's line for a contributing match of the submitted fixture, whose teams appear
   * in no other contributing match, shows both typed scores.
   */
  lemma SubmittedScoresShown(fixtures: seq<Fixture>, selectedWeek: int, scores: MatchScores, i: int)
    requires FindFixture(fixtures, selectedWeek).Some?
    requires var ms := FindFixture(fixtures, selectedWeek).value.matches;
             && 0 <= i < |ms| && Contributes(selectedWeek, ms, scores, i)
             && TeamId(ms[i].home) != TeamId(ms[i].away)
             && (forall j, t :: 0 <= j < |ms| && j != i && Mentions(ms, i, t) && Contributes(selectedWeek, ms, scores, j)
                   ==> !Mentions(ms, j, t))
    ensures var f := FindFixture(fixtures, selectedWeek).value;
            var r := PitchResults(f.week, f.matches, scores, |f.matches|);
            var lines := WeekLines(fixtures, MatchResult(selectedWeek, r));
            && |lines| == |f.matches|
            && lines[i] == ScoreLine(selectedWeek, f.matches[i].home, f.matches[i].away,
                                     InputAt(scores, MatchKey(selectedWeek, i)).homeScore,
                                     InputAt(scores, MatchKey(selectedWeek, i)).awayScore)
  {
    var f := FindFixture(fixtures, selectedWeek).value;
    var r := PitchResults(f.week, f.matches, scores, |f.matches|);
    assert f.week == selectedWeek;
    PitchResultsDistinct(f.week, f.matches, scores, i);
    WeekLinesShape(fixtures, MatchResult(selectedWeek, r));
  }
}
