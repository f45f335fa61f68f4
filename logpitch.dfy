/**
 * The pitch-result form: the score inputs typed for each match of the selected week, and
 * the submission that turns the selected week's fixture plus those inputs into a
 * `teamId -> score` map for the results store.
 */
module LogPitch {
  import opened Wrappers
  import opened Schedule

  /** Which score field of a match an input edits (`"homeScore"` or `"awayScore"`). */
  datatype Side = HomeSide | AwaySide

  /** The `` `${week}-${matchIndex}` `` key of one match's inputs. */
  datatype MatchKey = MatchKey(week: int, index: int)

  /** The inputs of one match; `None` is a field that was never typed into. */
  datatype ScoreInput = ScoreInput(homeScore: Option<int>, awayScore: Option<int>)

  /** The form's `matchScores` state. */
  type MatchScores = map<MatchKey, ScoreInput>

  /** `matchScores[key]`, a match with no typed field when the key is absent. */
  function InputAt(scores: MatchScores, key: MatchKey): ScoreInput
  {
    if key in scores then scores[key] else ScoreInput(None, None)
  }

  /** The field `side` of an input. */
  function FieldOf(input: ScoreInput, side: Side): Option<int>
  {
    match side
    case HomeSide => input.homeScore
    case AwaySide => input.awayScore
  }

  /**
   * `handleScoreChange(week, matchIndex, team, value)`: the new `matchScores`, where the
   * edited field of the edited match holds `value`, the match's other field is kept, and
   * every other match is unchanged.
   */
  function ScoreChange(prev: MatchScores, week: int, index: int, side: Side, value: int): (next: MatchScores)
    ensures next.Keys == prev.Keys + {MatchKey(week, index)}
    ensures forall k :: k in prev && k != MatchKey(week, index) ==> next[k] == prev[k]
    ensures FieldOf(next[MatchKey(week, index)], side) == Some(value)
    ensures forall other :: other != side ==>
              FieldOf(next[MatchKey(week, index)], other) == FieldOf(InputAt(prev, MatchKey(week, index)), other)
  {
    var key := MatchKey(week, index);
    var current := InputAt(prev, key);
    prev[key := match side
                case HomeSide => current.(homeScore := Some(value))
                case AwaySide => current.(awayScore := Some(value))]
  }

  /** Typing into the same field twice keeps only the second value. */
  lemma ScoreChangeLastWins(prev: MatchScores, week: int, index: int, side: Side, v1: int, v2: int)
    ensures ScoreChange(ScoreChange(prev, week, index, side, v1), week, index, side, v2)
            == ScoreChange(prev, week, index, side, v2)
  {
  }

  /** Edits of two different fields, or of two different matches, commute. */
  lemma ScoreChangeCommutes(prev: MatchScores, w1: int, i1: int, s1: Side, v1: int,
                            w2: int, i2: int, s2: Side, v2: int)
    requires MatchKey(w1, i1) != MatchKey(w2, i2) || s1 != s2
    ensures ScoreChange(ScoreChange(prev, w1, i1, s1, v1), w2, i2, s2, v2)
            == ScoreChange(ScoreChange(prev, w2, i2, s2, v2), w1, i1, s1, v1)
  {
  }

  // ---------------------------------------------------------------------------
  // The submission
  // ---------------------------------------------------------------------------

  /** Both fields of a match were typed into. */
  predicate Complete(input: ScoreInput)
  {
    input.homeScore.Some? && input.awayScore.Some?
  }

  /**
   * Match `i` of the week's matches writes to the results: both its scores are typed and
   * both its team names are known.
   */
  predicate Contributes(week: int, matches: seq<Match>, scores: MatchScores, i: int)
    requires 0 <= i < |matches|
  {
    && Complete(InputAt(scores, MatchKey(week, i)))
    && TeamId(matches[i].home).Some?
    && TeamId(matches[i].away).Some?
  }

  /** Match `i` names the team with id `t`, on either side. */
  predicate Mentions(matches: seq<Match>, i: int, t: int)
    requires 0 <= i < |matches|
  {
    TeamId(matches[i].home) == Some(t) || TeamId(matches[i].away) == Some(t)
  }

  /**
   * The score match `i` records for team `t`: the away score when `t` plays away (it is
   * written second), the home score otherwise.
   */
  function ScoreFor(week: int, matches: seq<Match>, scores: MatchScores, i: int, t: int): int
    requires 0 <= i < |matches| && Contributes(week, matches, scores, i)
  {
    var input := InputAt(scores, MatchKey(week, i));
    if TeamId(matches[i].away) == Some(t) then input.awayScore.value else input.homeScore.value
  }

  /** `pitchResults` after the first `n` matches of the week have been visited. */
  function PitchResults(week: int, matches: seq<Match>, scores: MatchScores, n: nat): map<int, int>
    requires n <= |matches|
  {
    if n == 0 then map[]
    else
      var acc := PitchResults(week, matches, scores, n - 1);
      if Contributes(week, matches, scores, n - 1) then
        var input := InputAt(scores, MatchKey(week, n - 1));
        acc[TeamId(matches[n - 1].home).value := input.homeScore.value]
           [TeamId(matches[n - 1].away).value := input.awayScore.value]
      else acc
  }

  /** Some match among the first `n` contributes and names team `t`. */
  predicate MentionedBy(week: int, matches: seq<Match>, scores: MatchScores, n: nat, t: int)
    requires n <= |matches|
  {
    exists i :: 0 <= i < n && Contributes(week, matches, scores, i) && Mentions(matches, i, t)
  }

  /**
   * The `forEach` of `handleSubmit`: every match whose two scores are typed and whose two
   * team names are known writes the home score under the home team's id and then the
   * away score under the away team's id; any other match is skipped and the loop goes on.
   */
  method CollectPitchResults(fixture: Fixture, scores: MatchScores) returns (pitchResults: map<int, int>)
    ensures pitchResults == PitchResults(fixture.week, fixture.matches, scores, |fixture.matches|)
  {
    pitchResults := map[];
    var index := 0;
    while index < |fixture.matches|
      invariant 0 <= index <= |fixture.matches|
      invariant pitchResults == PitchResults(fixture.week, fixture.matches, scores, index)
    {
      var fixtureMatch := fixture.matches[index];
      var matchData := InputAt(scores, MatchKey(fixture.week, index));
      if matchData.homeScore.Some? && matchData.awayScore.Some? {
        var homeTeamId := TeamId(fixtureMatch.home);
        var awayTeamId := TeamId(fixtureMatch.away);
        if homeTeamId.Some? && awayTeamId.Some? {
          pitchResults := pitchResults[homeTeamId.value := matchData.homeScore.value];
          pitchResults := pitchResults[awayTeamId.value := matchData.awayScore.value];
        }
      }
      index := index + 1;
    }
  }

  /** The `updatePitchScores` payload that a submission dispatches. */
  datatype Submission = Submission(week: int, results: map<int, int>)

  /**
   * `handleSubmit`: with no fixture for the selected week nothing is dispatched and the
   * inputs are kept; otherwise the fixture's week and its collected results are
   * dispatched (even when no match contributed) and the inputs are reset to empty.
   */
  method HandleSubmit(fixtures: seq<Fixture>, selectedWeek: int, scores: MatchScores)
    returns (sent: Option<Submission>, next: MatchScores)
    ensures FindFixture(fixtures, selectedWeek).None? ==> sent.None? && next == scores
    ensures FindFixture(fixtures, selectedWeek).Some? ==>
              var f := FindFixture(fixtures, selectedWeek).value;
              && sent == Some(Submission(selectedWeek, PitchResults(f.week, f.matches, scores, |f.matches|)))
              && next == map[]
  {
    var selectedFixture := FindFixture(fixtures, selectedWeek);
    if selectedFixture.None? {
      return None, scores;
    }
    var pitchResults := CollectPitchResults(selectedFixture.value, scores);
    sent := Some(Submission(selectedFixture.value.week, pitchResults));
    next := map[];
  }

  // ---------------------------------------------------------------------------
  // Properties of the collected results
  // ---------------------------------------------------------------------------

  /**
   * The results hold a score for team `t` exactly when some contributing match names `t`,
   * and only the four known team ids can appear.
   */
  lemma {:induction false} PitchResultsKeys(week: int, matches: seq<Match>, scores: MatchScores, n: nat, t: int)
    requires n <= |matches|
    ensures t in PitchResults(week, matches, scores, n) <==> MentionedBy(week, matches, scores, n, t)
    ensures t in PitchResults(week, matches, scores, n) ==> 1 <= t <= 4
  {
    if n > 0 {
      PitchResultsKeys(week, matches, scores, n - 1, t);
      var i := n - 1;
      if MentionedBy(week, matches, scores, n, t) && !MentionedBy(week, matches, scores, n - 1, t) {
        var j :| 0 <= j < n && Contributes(week, matches, scores, j) && Mentions(matches, j, t);
        assert j == i;
      }
      if MentionedBy(week, matches, scores, n - 1, t) {
        var j :| 0 <= j < n - 1 && Contributes(week, matches, scores, j) && Mentions(matches, j, t);
        assert 0 <= j < n && Contributes(week, matches, scores, j) && Mentions(matches, j, t);
      }
      if Contributes(week, matches, scores, i) && Mentions(matches, i, t) {
        assert 0 <= i < n && Contributes(week, matches, scores, i) && Mentions(matches, i, t);
      }
    }
  }

  /**
   * The last contributing match that names team `t` decides its score: a later match
   * overwrites an earlier one, and within one match the away score overwrites the home
   * score when both sides name the same team.
   */
  lemma {:induction false} PitchResultsLastWins(week: int, matches: seq<Match>, scores: MatchScores,
                                                n: nat, i: int, t: int)
    requires 0 <= i < n <= |matches|
    requires Contributes(week, matches, scores, i) && Mentions(matches, i, t)
    requires forall j :: i < j < n && Contributes(week, matches, scores, j) ==> !Mentions(matches, j, t)
    ensures t in PitchResults(week, matches, scores, n)
    ensures PitchResults(week, matches, scores, n)[t] == ScoreFor(week, matches, scores, i, t)
  {
    if i < n - 1 {
      PitchResultsLastWins(week, matches, scores, n - 1, i, t);
      assert !(Contributes(week, matches, scores, n - 1) && Mentions(matches, n - 1, t));
    }
  }

  /**
   * Conversely, every score in the results comes from a contributing match that names the
   * team, with no later contributing match naming it.
   */
  lemma {:induction false} PitchResultsSource(week: int, matches: seq<Match>, scores: MatchScores, n: nat, t: int)
    requires n <= |matches|
    requires t in PitchResults(week, matches, scores, n)
    ensures exists i :: 0 <= i < n && Contributes(week, matches, scores, i) && Mentions(matches, i, t)
                       && ScoreFor(week, matches, scores, i, t) == PitchResults(week, matches, scores, n)[t]
                       && forall j :: i < j < n && Contributes(week, matches, scores, j) ==> !Mentions(matches, j, t)
  {
    var i := n - 1;
    if Contributes(week, matches, scores, i) && Mentions(matches, i, t) {
      assert 0 <= i < n && Contributes(week, matches, scores, i) && Mentions(matches, i, t)
             && ScoreFor(week, matches, scores, i, t) == PitchResults(week, matches, scores, n)[t];
    } else {
      PitchResultsSource(week, matches, scores, n - 1, t);
      var k :| 0 <= k < n - 1 && Contributes(week, matches, scores, k) && Mentions(matches, k, t)
               && ScoreFor(week, matches, scores, k, t) == PitchResults(week, matches, scores, n - 1)[t]
               && forall j :: k < j < n - 1 && Contributes(week, matches, scores, j) ==> !Mentions(matches, j, t);
      assert 0 <= k < n && Contributes(week, matches, scores, k) && Mentions(matches, k, t)
             && ScoreFor(week, matches, scores, k, t) == PitchResults(week, matches, scores, n)[t];
    }
  }

  /** With no typed input at all, the submission carries an empty results map. */
  lemma {:induction false} PitchResultsEmptyInputs(week: int, matches: seq<Match>, n: nat)
    requires n <= |matches|
    ensures PitchResults(week, matches, map[], n) == map[]
  {
    if n > 0 {
      PitchResultsEmptyInputs(week, matches, n - 1);
    }
  }

  /**
   * When the contributing matches name pairwise distinct teams, each contributing match's
   * home and away scores both survive under their team ids.
   */
  lemma PitchResultsDistinct(week: int, matches: seq<Match>, scores: MatchScores, i: int)
    requires 0 <= i < |matches| && Contributes(week, matches, scores, i)
    requires TeamId(matches[i].home) != TeamId(matches[i].away)
    requires forall j, t :: 0 <= j < |matches| && j != i && Mentions(matches, i, t) && Contributes(week, matches, scores, j)
               ==> !Mentions(matches, j, t)
    ensures var r := PitchResults(week, matches, scores, |matches|);
            var input := InputAt(scores, MatchKey(week, i));
            && TeamId(matches[i].home).value in r && r[TeamId(matches[i].home).value] == input.homeScore.value
            && TeamId(matches[i].away).value in r && r[TeamId(matches[i].away).value] == input.awayScore.value
  {
    var h := TeamId(matches[i].home).value;
    var a := TeamId(matches[i].away).value;
    assert Mentions(matches, i, h) && Mentions(matches, i, a);
    PitchResultsLastWins(week, matches, scores, |matches|, i, h);
    PitchResultsLastWins(week, matches, scores, |matches|, i, a);
  }
}
