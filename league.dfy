/**
 * The league table: for the selected tab it folds every week's entry of that type into
 * per-team point totals (a plain sum), lists the weeks that have such an entry, sorts the
 * per-team rows by points, descending, and looks up the scores shown for each fixture.
 *
 * Only the numeric tabs (Pitch and Combined) are modelled: the values of a Weight entry
 * are records, which the table's `+=` would not add.
 */
module League {
  import opened Wrappers
  import opened Results
  import opened Schedule
  import Collections

  /** The numeric-valued tabs of the table. */
  datatype Tab = PitchTab | CombinedTab

  function TabKind(tab: Tab): Kind
  {
    match tab
    case PitchTab => PitchKind
    case CombinedTab => CombinedKind
  }

  /** The data of `entries.find(e => e.type === activeTab)`, if there is such an entry. */
  function SelectedData(es: seq<Entry>, tab: Tab): (r: Option<map<int, int>>)
  {
    match Find(es, TabKind(tab))
    case Some(Pitch(d)) => Some(d)
    case Some(Combined(d)) => Some(d)
    case _ => None
  }

  /** One item of `matchResults`: the week key and the selected entry's data. */
  datatype MatchResult = MatchResult(week: int, data: map<int, int>)

  /** `matchResults` over the week keys `weeks`, in that order. */
  function MatchResultsOver(s: Store, weeks: seq<int>, tab: Tab): seq<MatchResult>
  {
    if weeks == [] then []
    else
      var prev := MatchResultsOver(s, weeks[..|weeks| - 1], tab);
      var week := weeks[|weeks| - 1];
      match SelectedData(EntriesAt(s, week), tab)
      case None => prev
      case Some(d) => prev + [MatchResult(week, d)]
  }

  /** A score of `m`, 0 when the team has none. */
  function Get0(m: map<int, int>, team: int): int
  {
    if team in m then m[team] else 0
  }

  /** The standings accumulator after adding one week's data to it. */
  function AddScores(acc: map<int, int>, d: map<int, int>): map<int, int>
  {
    map t | t in acc.Keys + d.Keys :: Get0(acc, t) + Get0(d, t)
  }

  /** The standings accumulator after the given match results, folded in order. */
  function Standings(mrs: seq<MatchResult>): map<int, int>
  {
    if mrs == [] then map[]
    else AddScores(Standings(mrs[..|mrs| - 1]), mrs[|mrs| - 1].data)
  }

  /** A reference definition: the sum of a team's scores over the match results. */
  function PointsOf(mrs: seq<MatchResult>, team: int): int
  {
    if mrs == [] then 0
    else PointsOf(mrs[..|mrs| - 1], team) + Get0(mrs[|mrs| - 1].data, team)
  }

  /** The sum of every score of every match result. */
  ghost function SumOfScores(mrs: seq<MatchResult>): int
  {
    if mrs == [] then 0
    else SumOfScores(mrs[..|mrs| - 1]) + Collections.SumValues(mrs[|mrs| - 1].data)
  }

  /**
   * The inner `forEach` of the fold: every team of one week's data gets its score added to
   * its points, starting from 0 for a team without a row yet.
   */
  method AddWeek(standings: map<int, int>, data: map<int, int>) returns (updated: map<int, int>)
    ensures updated == AddScores(standings, data)
  {
    updated := standings;
    var todo := data.Keys;
    while todo != {}
      invariant todo <= data.Keys
      invariant updated == AddScores(standings, data - todo)
      decreases todo
    {
      Collections.NonEmptyHasMember(todo);
      var teamNum :| teamNum in todo;
      var points := if teamNum in updated then updated[teamNum] else 0;
      updated := updated[teamNum := points + data[teamNum]];
      todo := todo - {teamNum};
    }
    assert data - {} == data;
  }

  /**
   * The fold of the table: for every week key in order, the week's selected entry (if
   * any) adds each team's score to the team's points and is appended to the results.
   */
  method Aggregate(s: Store, tab: Tab) returns (standings: map<int, int>, matchResults: seq<MatchResult>)
    ensures matchResults == MatchResultsOver(s, s.order, tab)
    ensures standings == Standings(matchResults)
  {
    standings := map[];
    matchResults := [];
    var i := 0;
    while i < |s.order|
      invariant 0 <= i <= |s.order|
      invariant matchResults == MatchResultsOver(s, s.order[..i], tab)
      invariant standings == Standings(matchResults)
    {
      var gw := s.order[i];
      assert s.order[..i + 1][..i] == s.order[..i];
      var gameWeekData := SelectedData(EntriesAt(s, gw), tab);
      if gameWeekData.Some? {
        standings := AddWeek(standings, gameWeekData.value);
        matchResults := matchResults + [MatchResult(gw, gameWeekData.value)];
      }
      i := i + 1;
    }
    assert s.order[..|s.order|] == s.order;
  }

  // ---------------------------------------------------------------------------
  // Properties of the fold
  // ---------------------------------------------------------------------------

  /**
   * A team has a row iff some listed week's entry has a score for it, and its points are
   * the sum of its scores over those weeks.
   */
  lemma {:induction false} StandingsPoints(mrs: seq<MatchResult>, team: int)
    ensures team in Standings(mrs) <==> Scored(mrs, team)
    ensures team in Standings(mrs) ==> Standings(mrs)[team] == PointsOf(mrs, team)
  {
    if mrs != [] {
      var prev := mrs[..|mrs| - 1];
      StandingsPoints(prev, team);
      if team !in Standings(prev) {
        assert PointsOf(prev, team) == 0 by { PointsOfAbsent(prev, team); }
      }
      if Scored(mrs, team) {
        var i :| 0 <= i < |mrs| && team in mrs[i].data;
        if i < |mrs| - 1 {
          assert prev[i] == mrs[i];
        }
      }
      if exists i :: 0 <= i < |prev| && team in prev[i].data {
        var i :| 0 <= i < |prev| && team in prev[i].data;
        assert mrs[i] == prev[i];
      }
    }
  }

  /** A team that no listed week scores has no points. */
  lemma {:induction false} PointsOfAbsent(mrs: seq<MatchResult>, team: int)
    requires forall i :: 0 <= i < |mrs| ==> team !in mrs[i].data
    ensures PointsOf(mrs, team) == 0
  {
    if mrs != [] {
      var prev := mrs[..|mrs| - 1];
      assert forall i :: 0 <= i < |prev| ==> prev[i] == mrs[i];
      PointsOfAbsent(prev, team);
    }
  }

  /** Adding a week's data adds the sum of its scores to the sum of all points. */
  lemma {:induction false} SumAddScores(acc: map<int, int>, d: map<int, int>)
    ensures Collections.SumValues(AddScores(acc, d)) == Collections.SumValues(acc) + Collections.SumValues(d)
    decreases d.Keys
  {
    if d.Keys == {} {
      assert AddScores(acc, d) == acc;
      assert Collections.SumValues(d) == 0;
    } else {
      Collections.NonEmptyHasMember(d.Keys);
      var k :| k in d.Keys;
      var rest := d - {k};
      SumAddScores(acc, rest);
      var partial := AddScores(acc, rest);
      AddScoresStep(acc, d, k);
      Collections.SumValuesAdd(partial, k, d[k]);
      Collections.SumValuesRemove(d, k);
    }
  }

  /** Adding a week's data is adding all but one of its scores, then that one. */
  lemma AddScoresStep(acc: map<int, int>, d: map<int, int>, k: int)
    requires k in d
    ensures AddScores(acc, d) == AddScores(acc, d - {k})[k := Get0(AddScores(acc, d - {k}), k) + d[k]]
  {
    var partial := AddScores(acc, d - {k});
    assert AddScores(acc, d).Keys == partial.Keys + {k};
  }

  /** The points of all teams together are the sum of every score in the listed entries. */
  lemma {:induction false} StandingsTotal(mrs: seq<MatchResult>)
    ensures Collections.SumValues(Standings(mrs)) == SumOfScores(mrs)
  {
    if mrs != [] {
      StandingsTotal(mrs[..|mrs| - 1]);
      SumAddScores(Standings(mrs[..|mrs| - 1]), mrs[|mrs| - 1].data);
    }
  }

  /**
   * `matchResults` holds only weeks that have an entry of the selected type, each with
   * that entry's data unchanged, and every such week; weeks without one contribute nothing.
   * `MatchResultsInOrder` adds that each week is listed once, in key order.
   */
  lemma {:induction false} MatchResultsListed(s: Store, weeks: seq<int>, tab: Tab)
    ensures |MatchResultsOver(s, weeks, tab)| <= |weeks|
    ensures forall i :: 0 <= i < |MatchResultsOver(s, weeks, tab)| ==>
              var mr := MatchResultsOver(s, weeks, tab)[i];
              mr.week in weeks && SelectedData(EntriesAt(s, mr.week), tab) == Some(mr.data)
    ensures forall w :: w in weeks && SelectedData(EntriesAt(s, w), tab).Some? ==>
              MatchResult(w, SelectedData(EntriesAt(s, w), tab).value) in MatchResultsOver(s, weeks, tab)
  {
    if weeks != [] {
      var prefix := weeks[..|weeks| - 1];
      MatchResultsListed(s, prefix, tab);
      assert weeks == prefix + [weeks[|weeks| - 1]];
    }
  }

  /** No week key is listed twice. */
  predicate Distinct(weeks: seq<int>)
  {
    forall i, j :: 0 <= i < j < |weeks| ==> weeks[i] != weeks[j]
  }

  /** Every position of `x` in `weeks` comes before every position of `y`. */
  ghost predicate Before(weeks: seq<int>, x: int, y: int)
  {
    forall a, b :: 0 <= a < |weeks| && 0 <= b < |weeks| && weeks[a] == x && weeks[b] == y ==> a < b
  }

  /** Appending a new key keeps the order of the keys already listed. */
  lemma BeforeExtend(prefix: seq<int>, last: int, x: int, y: int)
    requires x in prefix && y in prefix && last !in prefix && Before(prefix, x, y)
    ensures Before(prefix + [last], x, y)
  {
  }

  /** A newly appended key comes after every key already listed. */
  lemma BeforeLast(prefix: seq<int>, last: int, x: int)
    requires x in prefix && last !in prefix
    ensures Before(prefix + [last], x, last)
  {
  }

  /**
   * Over distinct week keys, `matchResults` lists each week at most once, and in the order
   * of the keys.
   */
  lemma {:induction false} MatchResultsInOrder(s: Store, weeks: seq<int>, tab: Tab)
    requires Distinct(weeks)
    ensures forall i, j :: 0 <= i < j < |MatchResultsOver(s, weeks, tab)| ==>
              var mrs := MatchResultsOver(s, weeks, tab);
              mrs[i].week != mrs[j].week && Before(weeks, mrs[i].week, mrs[j].week)
  {
    if weeks != [] {
      var prefix := weeks[..|weeks| - 1];
      var last := weeks[|weeks| - 1];
      assert weeks == prefix + [last];
      assert Distinct(prefix) by {
        forall i, j | 0 <= i < j < |prefix| ensures prefix[i] != prefix[j] {
          assert prefix[i] == weeks[i] && prefix[j] == weeks[j];
        }
      }
      assert last !in prefix by {
        forall k | 0 <= k < |prefix| ensures prefix[k] != last {
          assert prefix[k] == weeks[k];
        }
      }
      MatchResultsInOrder(s, prefix, tab);
      MatchResultsListed(s, prefix, tab);
      var prev := MatchResultsOver(s, prefix, tab);
      var mrs := MatchResultsOver(s, weeks, tab);
      assert mrs == prev || mrs == prev + [MatchResult(last, mrs[|mrs| - 1].data)];
      forall i, j | 0 <= i < j < |mrs| ensures mrs[i].week != mrs[j].week && Before(weeks, mrs[i].week, mrs[j].week) {
        assert mrs[i] == prev[i];
        if j < |prev| {
          assert mrs[j] == prev[j];
          BeforeExtend(prefix, last, mrs[i].week, mrs[j].week);
        } else {
          assert mrs[j].week == last;
          BeforeLast(prefix, last, mrs[i].week);
        }
      }
    }
  }

  // ---------------------------------------------------------------------------
  // The table rows and their order
  // ---------------------------------------------------------------------------

  /** One row of the table. */
  datatype Row = Row(team: int, points: int)

  /** Some row of `rows` is the row of team `t`. */
  predicate HasTeam(rows: seq<Row>, t: int)
  {
    exists i :: 0 <= i < |rows| && rows[i].team == t
  }

  /**
   * `Object.values(standings)`: one row per team, in ascending team-id order (the order
   * in which an object enumerates integer-like keys).
   */
  ghost function RowsOf(m: map<int, int>): (rows: seq<Row>)
    decreases m.Keys
  {
    if m.Keys == {} then []
    else
      var k := Collections.Least(m.Keys);
      [Row(k, m[k])] + RowsOf(m - {k})
  }

  /** Each row of `RowsOf(m)` is the entry of its team in `m`. */
  lemma {:induction false} RowsOfEntries(m: map<int, int>)
    ensures forall i :: 0 <= i < |RowsOf(m)| ==> RowsOf(m)[i].team in m && RowsOf(m)[i].points == m[RowsOf(m)[i].team]
    decreases m.Keys
  {
    if m.Keys != {} {
      var k := Collections.Least(m.Keys);
      var smaller := m - {k};
      RowsOfEntries(smaller);
      var rows := RowsOf(m);
      var rest := RowsOf(smaller);
      assert rows == [Row(k, m[k])] + rest;
      forall i | 0 < i < |rows| ensures rows[i].team in m && rows[i].points == m[rows[i].team] {
        assert rows[i] == rest[i - 1];
      }
    }
  }

  /** The team ids of `RowsOf(m)` strictly ascend. */
  lemma {:induction false} RowsOfAscending(m: map<int, int>)
    ensures forall i, j :: 0 <= i < j < |RowsOf(m)| ==> RowsOf(m)[i].team < RowsOf(m)[j].team
    decreases m.Keys
  {
    if m.Keys != {} {
      var k := Collections.Least(m.Keys);
      var smaller := m - {k};
      RowsOfAscending(smaller);
      RowsOfEntries(smaller);
      var rows := RowsOf(m);
      var rest := RowsOf(smaller);
      assert rows == [Row(k, m[k])] + rest;
      forall i, j | 0 <= i < j < |rows| ensures rows[i].team < rows[j].team {
        assert rows[j] == rest[j - 1];
        if i > 0 {
          assert rows[i] == rest[i - 1];
        } else {
          assert rest[j - 1].team in smaller;
        }
      }
    }
  }

  /** Every team of `m` has a row in `RowsOf(m)`. */
  lemma {:induction false} RowsOfCovers(m: map<int, int>)
    ensures forall t :: t in m ==> HasTeam(RowsOf(m), t)
    decreases m.Keys
  {
    if m.Keys != {} {
      var k := Collections.Least(m.Keys);
      var smaller := m - {k};
      RowsOfCovers(smaller);
      var rows := RowsOf(m);
      var rest := RowsOf(smaller);
      assert rows == [Row(k, m[k])] + rest;
      forall t | t in m ensures HasTeam(rows, t) {
        if t == k {
          assert rows[0].team == t;
        } else {
          assert t in smaller;
          var i :| 0 <= i < |rest| && rest[i].team == t;
          assert rows[i + 1].team == t;
        }
      }
    }
  }

  /**
   * The rows list the map: each row is the entry of its team, team ids strictly ascend,
   * and every team of the map has a row.
   */
  lemma RowsOfFacts(m: map<int, int>)
    ensures forall i :: 0 <= i < |RowsOf(m)| ==> RowsOf(m)[i].team in m && RowsOf(m)[i].points == m[RowsOf(m)[i].team]
    ensures forall i, j :: 0 <= i < j < |RowsOf(m)| ==> RowsOf(m)[i].team < RowsOf(m)[j].team
    ensures forall t :: t in m ==> HasTeam(RowsOf(m), t)
  {
    RowsOfEntries(m);
    RowsOfAscending(m);
    RowsOfCovers(m);
  }

  /** The sum of the points of some rows. */
  function SumRows(rows: seq<Row>): int
  {
    if rows == [] then 0 else rows[0].points + SumRows(rows[1..])
  }

  /** `a` is ranked above `b`: more points, or as many points and a smaller team id. */
  predicate RankedAbove(a: Row, b: Row)
  {
    a.points > b.points || (a.points == b.points && a.team < b.team)
  }

  /**
   * A stable sort by the comparator `(a, b) => b.points - a.points`: rows with more
   * points come first, and rows with equal points keep their relative order.
   */
  function SortByPoints(rows: seq<Row>): (r: seq<Row>)
    ensures |r| == |rows|
    ensures multiset(r) == multiset(rows)
    ensures forall i, j :: 0 <= i < j < |r| ==> r[i].points >= r[j].points
  {
    if rows == [] then []
    else
      var tail := SortByPoints(rows[1..]);
      InsertMultiset(rows[0], tail);
      assert rows == [rows[0]] + rows[1..];
      Insert(rows[0], tail)
  }

  /** Places `x` before the first row that does not have more points than `x`. */
  function Insert(x: Row, sorted: seq<Row>): (r: seq<Row>)
    requires forall i, j :: 0 <= i < j < |sorted| ==> sorted[i].points >= sorted[j].points
    ensures |r| == |sorted| + 1
    ensures forall i :: 0 <= i < |r| ==> r[i] == x || r[i] in sorted
    ensures forall i, j :: 0 <= i < j < |r| ==> r[i].points >= r[j].points
  {
    if sorted == [] || x.points >= sorted[0].points then [x] + sorted
    else
      var rest := Insert(x, sorted[1..]);
      var r := [sorted[0]] + rest;
      assert forall i :: 0 < i < |r| ==> r[i] == rest[i - 1];
      assert forall i :: 0 <= i < |rest| ==> rest[i] == x || rest[i] in sorted[1..];
      assert forall y :: y in sorted[1..] ==> y.points <= sorted[0].points;
      r
  }

  /** Inserting adds exactly the inserted row. */
  lemma {:induction false} InsertMultiset(x: Row, sorted: seq<Row>)
    requires forall i, j :: 0 <= i < j < |sorted| ==> sorted[i].points >= sorted[j].points
    ensures multiset(Insert(x, sorted)) == multiset(sorted) + multiset{x}
  {
    if !(sorted == [] || x.points >= sorted[0].points) {
      InsertMultiset(x, sorted[1..]);
      assert sorted == [sorted[0]] + sorted[1..];
    }
  }

  /** The sorted table of a tab. */
  ghost function Table(s: Store, tab: Tab): seq<Row>
  {
    SortByPoints(RowsOf(Standings(MatchResultsOver(s, s.order, tab))))
  }

  /**
   * Inserting a row whose team id is below every other keeps the rows ranked by points,
   * then by ascending team id.
   */
  lemma {:induction false} InsertRanked(x: Row, sorted: seq<Row>)
    requires forall i, j :: 0 <= i < j < |sorted| ==> sorted[i].points >= sorted[j].points
    requires forall i, j :: 0 <= i < j < |sorted| ==> RankedAbove(sorted[i], sorted[j])
    requires forall i :: 0 <= i < |sorted| ==> x.team < sorted[i].team
    ensures forall i, j :: 0 <= i < j < |Insert(x, sorted)| ==> RankedAbove(Insert(x, sorted)[i], Insert(x, sorted)[j])
  {
    if !(sorted == [] || x.points >= sorted[0].points) {
      InsertRanked(x, sorted[1..]);
      var r := Insert(x, sorted);
      var rest := Insert(x, sorted[1..]);
      assert r == [sorted[0]] + rest;
      forall j | 0 < j < |r| ensures RankedAbove(r[0], r[j]) {
        var y := r[j];
        assert y in multiset(rest);
        if y != x {
          assert y in sorted[1..];
          var k :| 0 <= k < |sorted[1..]| && sorted[1..][k] == y;
          assert sorted[k + 1] == y;
        }
      }
    }
  }

  /** Inserting a row adds its points to the sum. */
  lemma {:induction false} InsertSum(x: Row, sorted: seq<Row>)
    requires forall i, j :: 0 <= i < j < |sorted| ==> sorted[i].points >= sorted[j].points
    ensures SumRows(Insert(x, sorted)) == x.points + SumRows(sorted)
  {
    if !(sorted == [] || x.points >= sorted[0].points) {
      InsertSum(x, sorted[1..]);
    }
  }

  /**
   * Sorting rows listed in strictly ascending team-id order ranks them by points,
   * non-increasing, with ties in ascending team-id order; the sort keeps the sum.
   */
  lemma {:induction false} SortRanked(rows: seq<Row>)
    requires forall i, j :: 0 <= i < j < |rows| ==> rows[i].team < rows[j].team
    ensures forall i, j :: 0 <= i < j < |SortByPoints(rows)| ==> RankedAbove(SortByPoints(rows)[i], SortByPoints(rows)[j])
    ensures SumRows(SortByPoints(rows)) == SumRows(rows)
  {
    if rows != [] {
      var tail := SortByPoints(rows[1..]);
      SortRanked(rows[1..]);
      forall i | 0 <= i < |tail| ensures rows[0].team < tail[i].team {
        assert tail[i] in multiset(rows[1..]);
        var k :| 0 <= k < |rows[1..]| && rows[1..][k] == tail[i];
        assert rows[k + 1] == tail[i];
      }
      InsertRanked(rows[0], tail);
      InsertSum(rows[0], tail);
    }
  }

  /** Listing the rows of a map keeps the sum of its values. */
  lemma {:induction false} RowsOfSum(m: map<int, int>)
    ensures SumRows(RowsOf(m)) == Collections.SumValues(m)
    decreases m.Keys
  {
    if m.Keys != {} {
      var k := Collections.Least(m.Keys);
      RowsOfSum(m - {k});
    }
  }

  /** Some listed week's entry has a score for team `t`. */
  predicate Scored(mrs: seq<MatchResult>, t: int)
  {
    exists i :: 0 <= i < |mrs| && t in mrs[i].data
  }

  /**
   * The table is a permutation of the per-team rows, ranked by points with ties in
   * ascending team-id order, and its points add up to every score of the selected entries.
   */
  lemma TableRanked(s: Store, tab: Tab)
    ensures var mrs := MatchResultsOver(s, s.order, tab);
            var table := Table(s, tab);
            && multiset(table) == multiset(RowsOf(Standings(mrs)))
            && (forall i, j :: 0 <= i < j < |table| ==> RankedAbove(table[i], table[j]))
            && SumRows(table) == SumOfScores(mrs)
  {
    var mrs := MatchResultsOver(s, s.order, tab);
    var standings := Standings(mrs);
    RowsOfFacts(standings);
    SortRanked(RowsOf(standings));
    RowsOfSum(standings);
    StandingsTotal(mrs);
  }

  /**
   * A team has a row in the table iff some selected entry has a score for it (no team is
   * pre-seeded), and its row's points are its summed scores.
   */
  lemma TableRows(s: Store, tab: Tab)
    ensures var mrs := MatchResultsOver(s, s.order, tab);
            var table := Table(s, tab);
            && (forall i :: 0 <= i < |table| ==> table[i].points == PointsOf(mrs, table[i].team))
            && (forall t :: HasTeam(table, t) <==> Scored(mrs, t))
  {
    var mrs := MatchResultsOver(s, s.order, tab);
    var standings := Standings(mrs);
    var rows := RowsOf(standings);
    var table := Table(s, tab);
    RowsOfFacts(standings);
    forall i | 0 <= i < |table| ensures table[i].points == PointsOf(mrs, table[i].team) {
      assert table[i] in multiset(rows);
      StandingsPoints(mrs, table[i].team);
    }
    forall t ensures HasTeam(table, t) <==> Scored(mrs, t) {
      StandingsPoints(mrs, t);
      if HasTeam(table, t) {
        var i :| 0 <= i < |table| && table[i].team == t;
        assert table[i] in multiset(rows);
      }
      if t in standings {
        var i :| 0 <= i < |rows| && rows[i].team == t;
        assert rows[i] in multiset(table);
      }
    }
  }

  // ---------------------------------------------------------------------------
  // The score shown for each match of a listed week
  // ---------------------------------------------------------------------------

  /** One row of the match-results table; `None` is shown as "-". */
  datatype ScoreLine = ScoreLine(week: int, home: string, away: string,
                                 homeScore: Option<int>, awayScore: Option<int>)

  /** `data[teamMapping[name]] ?? "-"`. */
  function ShownScore(data: map<int, int>, name: string): Option<int>
  {
    match TeamId(name)
    case None => None
    case Some(id) => if id in data then Some(data[id]) else None
  }

  /** The rows shown for one match result: one per match of the week's fixture, if any. */
  function WeekLines(fixtures: seq<Fixture>, mr: MatchResult): (lines: seq<ScoreLine>)
  {
    match FindFixture(fixtures, mr.week)
    case None => []
    case Some(f) =>
      seq(|f.matches|, i requires 0 <= i < |f.matches| =>
        ScoreLine(mr.week, f.matches[i].home, f.matches[i].away,
                  ShownScore(mr.data, f.matches[i].home), ShownScore(mr.data, f.matches[i].away)))
  }

  /** A side shows a score exactly when its name is a known team with a score in the data. */
  lemma ShownScoreMeaning(data: map<int, int>, name: string, v: int)
    ensures ShownScore(data, name) == Some(v) <==>
              exists id :: TeamName(id) == Some(name) && id in data && data[id] == v
  {
  }

  /**
   * A week with no fixture of its number shows no rows. The second clause unfolds
   * `WeekLines` for the first fixture of the week, for use by callers.
   */
  lemma WeekLinesShape(fixtures: seq<Fixture>, mr: MatchResult)
    ensures (forall i :: 0 <= i < |fixtures| ==> fixtures[i].week != mr.week) ==> WeekLines(fixtures, mr) == []
    ensures forall f :: FindFixture(fixtures, mr.week) == Some(f) ==>
              |WeekLines(fixtures, mr)| == |f.matches| &&
              forall i :: 0 <= i < |f.matches| ==>
                WeekLines(fixtures, mr)[i] == ScoreLine(mr.week, f.matches[i].home, f.matches[i].away,
                                                        ShownScore(mr.data, f.matches[i].home),
                                                        ShownScore(mr.data, f.matches[i].away))
  {
  }
}
