/**
 * The gameweek results store (the `results` slice of the application state).
 *
 * The store maps a week key `GW{n}` to the list of that week's typed entries. A weight
 * submission or a pitch submission replaces the week's entry of its own type and then
 * rebuilds the week's Combined entry, which is written only when the week holds both a
 * Weight and a Pitch entry. Week keys are modelled by the week number `n`; team keys by
 * the canonical integer team id.
 */
module Results {
  import opened Wrappers
  import Collections

  /** A team's weight-loss score for one week; the combined score reads only `goals`. */
  datatype WeightScore = WeightScore(goals: int)

  /** The `type` tag of an entry. */
  datatype Kind = WeightKind | PitchKind | CombinedKind

  /** One typed entry of a week: its tag and its per-team data. */
  datatype Entry =
    | Weight(weightData: map<int, WeightScore>)
    | Pitch(pitchData: map<int, int>)
    | Combined(combinedData: map<int, int>)
  {
    function KindOf(): Kind
    {
      match this
      case Weight(_) => WeightKind
      case Pitch(_) => PitchKind
      case Combined(_) => CombinedKind
    }
  }

  // ---------------------------------------------------------------------------
  // One week's list of entries
  // ---------------------------------------------------------------------------

  /** `entries.filter(e => e.type !== k)`. */
  function Without(es: seq<Entry>, k: Kind): (r: seq<Entry>)
  {
    if es == [] then []
    else if es[0].KindOf() == k then Without(es[1..], k)
    else [es[0]] + Without(es[1..], k)
  }

  /** The entries of kind `k`, in list order (a reference view used by the lemmas). */
  function Only(es: seq<Entry>, k: Kind): (r: seq<Entry>)
  {
    if es == [] then []
    else if es[0].KindOf() == k then [es[0]] + Only(es[1..], k)
    else Only(es[1..], k)
  }

  /** `entries.find(e => e.type === k)`: the first entry of kind `k`. */
  function Find(es: seq<Entry>, k: Kind): (r: Option<Entry>)
  {
    if es == [] then None
    else if es[0].KindOf() == k then Some(es[0])
    else Find(es[1..], k)
  }

  /** A team's weight goals, 0 when the weight data has no score for it. */
  function WeightGoals(w: map<int, WeightScore>, team: int): int
  {
    if team in w then w[team].goals else 0
  }

  /** The Combined data of a week: one value per team of the pitch data. */
  function CombinedScores(w: map<int, WeightScore>, p: map<int, int>): map<int, int>
  {
    map t | t in p :: WeightGoals(w, t) + p[t]
  }

  /**
   * `updateCombinedScore` on one week's list: when both a Weight and a Pitch entry are
   * present, the old Combined entries are dropped and a fresh one is appended; otherwise
   * the list is left as it is.
   */
  function Recompute(es: seq<Entry>): seq<Entry>
  {
    match (Find(es, WeightKind), Find(es, PitchKind))
    case (Some(Weight(w)), Some(Pitch(p))) => Without(es, CombinedKind) + [Combined(CombinedScores(w, p))]
    case _ => es
  }

  /** A week's list after a weight submission of `r`. */
  function AfterWeight(es: seq<Entry>, r: map<int, WeightScore>): seq<Entry>
  {
    Recompute(Without(es, WeightKind) + [Weight(r)])
  }

  /** A week's list after a pitch submission of `r`. */
  function AfterPitch(es: seq<Entry>, r: map<int, int>): seq<Entry>
  {
    Recompute(Without(es, PitchKind) + [Pitch(r)])
  }

  /** The invariant the reducers are meant to keep: at most one entry of each kind. */
  predicate AtMostOnePerKind(es: seq<Entry>)
  {
    |Only(es, WeightKind)| <= 1 && |Only(es, PitchKind)| <= 1 && |Only(es, CombinedKind)| <= 1
  }

  // ---------------------------------------------------------------------------
  // The whole store
  // ---------------------------------------------------------------------------

  /**
   * The results map. `order` is the enumeration order of its keys (insertion order, as
   * for any non-numeric object key), `byWeek` the lists themselves.
   */
  datatype Store = Store(order: seq<int>, byWeek: map<int, seq<Entry>>)

  /** The order lists every key of the map exactly once. */
  ghost predicate WellFormed(s: Store)
  {
    && (forall i, j :: 0 <= i < j < |s.order| ==> s.order[i] != s.order[j])
    && (forall k :: k in s.byWeek <==> k in s.order)
  }

  /** The list stored under `GW{week}`, empty when the key is absent. */
  function EntriesAt(s: Store, week: int): seq<Entry>
  {
    if week in s.byWeek then s.byWeek[week] else []
  }

  /**
   * Creates the empty list of a week that has no key yet, appending the week to the key
   * order; an existing list, and every other week, is kept.
   */
  function Touch(s: Store, week: int): (t: Store)
    ensures week in t.byWeek
    ensures EntriesAt(t, week) == EntriesAt(s, week)
    ensures t.order == if week in s.byWeek then s.order else s.order + [week]
    ensures forall k :: k != week ==> EntriesAt(t, k) == EntriesAt(s, k) && (k in t.byWeek <==> k in s.byWeek)
  {
    if week in s.byWeek then s else Store(s.order + [week], s.byWeek[week := []])
  }

  /** `updateWeightScores({week, results: r})`; this reducer does not check the week. */
  function SubmitWeight(s: Store, week: int, r: map<int, WeightScore>): Store
  {
    var t := Touch(s, week);
    Store(t.order, t.byWeek[week := AfterWeight(t.byWeek[week], r)])
  }

  /** A pitch week that the guard rejects: missing, not a number, or 0. */
  predicate InvalidPitchWeek(week: Option<int>)
  {
    week.None? || week.value == 0
  }

  /**
   * `updatePitchScores({week, results: r})`. `week` is `None` when the payload's week is
   * missing or is not a number.
   */
  function SubmitPitch(s: Store, week: Option<int>, r: map<int, int>): Store
  {
    if InvalidPitchWeek(week) then s
    else
      var t := Touch(s, week.value);
      Store(t.order, t.byWeek[week.value := AfterPitch(t.byWeek[week.value], r)])
  }

  /** Every week of the store keeps the at-most-one-per-kind invariant. */
  predicate AllWeeksAtMostOne(s: Store)
  {
    forall k :: k in s.byWeek ==> AtMostOnePerKind(s.byWeek[k])
  }

  // ---------------------------------------------------------------------------
  // Helpers of the reducers that run a loop
  // ---------------------------------------------------------------------------

  /**
   * The `forEach` that copies the payload under `String(team)`: with canonical integer
   * team ids the copy has exactly the payload's keys and values.
   */
  method FormatTeamKeys<V>(results: map<int, V>) returns (formatted: map<int, V>)
    ensures formatted == results
  {
    formatted := map[];
    var todo := results.Keys;
    while todo != {}
      invariant todo <= results.Keys
      invariant formatted == results - todo
      decreases todo
    {
      Collections.NonEmptyHasMember(todo);
      var team :| team in todo;
      formatted := formatted[team := results[team]];
      todo := todo - {team};
    }
  }

  /**
   * The `forEach` over the pitch data's teams that fills `combinedData`: one value per
   * pitch team, its weight goals (or 0) plus its pitch score.
   */
  method ComputeCombined(weightData: map<int, WeightScore>, pitchData: map<int, int>)
    returns (combinedData: map<int, int>)
    ensures combinedData.Keys == pitchData.Keys
    ensures forall t :: t in pitchData ==> combinedData[t] == WeightGoals(weightData, t) + pitchData[t]
    ensures combinedData == CombinedScores(weightData, pitchData)
  {
    combinedData := map[];
    var todo := pitchData.Keys;
    while todo != {}
      invariant todo <= pitchData.Keys
      invariant combinedData == CombinedScores(weightData, pitchData - todo)
      decreases todo
    {
      Collections.NonEmptyHasMember(todo);
      var team :| team in todo;
      var weightGoals := if team in weightData then weightData[team].goals else 0;
      combinedData := combinedData[team := weightGoals + pitchData[team]];
      todo := todo - {team};
    }
  }

  // ---------------------------------------------------------------------------
  // The reducers, over the store's state
  // ---------------------------------------------------------------------------

  class ResultsStore {
    var weekOrder: seq<int>
    var results: map<int, seq<Entry>>

    ghost predicate Valid()
      reads this
    {
      WellFormed(Store(weekOrder, results))
    }

    /** The abstract value of the store. */
    function State(): Store
      reads this
    {
      Store(weekOrder, results)
    }

    /** `initialState`: no results. */
    constructor ()
      ensures Valid() && State() == Store([], map[])
    {
      weekOrder := [];
      results := map[];
    }

    /** `loadFakeResults`: the payload replaces the whole results map. */
    method LoadFakeResults(payload: Store)
      requires WellFormed(payload)
      modifies this
      ensures Valid() && State() == payload
    {
      weekOrder := payload.order;
      results := payload.byWeek;
    }

    /** `updateCombinedScore(state, week)`. */
    method UpdateCombinedScore(week: int)
      requires Valid()
      modifies this
      ensures Valid() && weekOrder == old(weekOrder)
      ensures results == if week in old(results) then old(results)[week := Recompute(old(results)[week])]
                         else old(results)
    {
      if week !in results {
        return;
      }
      var weekData := results[week];
      var weightEntry := Find(weekData, WeightKind);
      var pitchEntry := Find(weekData, PitchKind);
      if weightEntry.None? || pitchEntry.None? {
        return;
      }
      match (weightEntry.value, pitchEntry.value) {
        case (Weight(weightData), Pitch(pitchData)) =>
          var combinedData := ComputeCombined(weightData, pitchData);
          results := results[week := Without(results[week], CombinedKind)];
          results := results[week := results[week] + [Combined(combinedData)]];
        case _ =>
          FindKind(weekData, WeightKind);
          FindKind(weekData, PitchKind);
          assert false;
      }
    }

    /** `updateWeightScores({week, results: r})`. */
    method UpdateWeightScores(week: int, r: map<int, WeightScore>)
      requires Valid()
      modifies this
      ensures Valid() && State() == SubmitWeight(old(State()), week, r)
    {
      if week !in results {
        results := results[week := []];
        weekOrder := weekOrder + [week];
      }
      results := results[week := Without(results[week], WeightKind)];
      var formatted := FormatTeamKeys(r);
      results := results[week := results[week] + [Weight(formatted)]];
      UpdateCombinedScore(week);
    }

    /** `updatePitchScores({week, results: r})`; `week` is `None` when missing or not a number. */
    method UpdatePitchScores(week: Option<int>, r: map<int, int>)
      requires Valid()
      modifies this
      ensures Valid() && State() == SubmitPitch(old(State()), week, r)
      ensures InvalidPitchWeek(week) ==> weekOrder == old(weekOrder) && results == old(results)
    {
      if week.None? || week.value == 0 {
        return;
      }
      RecordPitch(week.value, r);
    }

    /** The part of `updatePitchScores` after the week check. */
    method RecordPitch(w: int, r: map<int, int>)
      requires Valid() && w != 0
      modifies this
      ensures Valid() && State() == SubmitPitch(old(State()), Some(w), r)
    {
      if w !in results {
        results := results[w := []];
        weekOrder := weekOrder + [w];
      }
      results := results[w := Without(results[w], PitchKind)];
      var formatted := FormatTeamKeys(r);
      results := results[w := results[w] + [Pitch(formatted)]];
      UpdateCombinedScore(w);
    }
  }

  // ---------------------------------------------------------------------------
  // Facts about filtering and finding
  // ---------------------------------------------------------------------------

  /** What `find` returns: the first entry of kind `k`, which is the head of `Only(es, k)`. */
  lemma {:induction false} FindKind(es: seq<Entry>, k: Kind)
    ensures Find(es, k).None? <==> Only(es, k) == []
    ensures Find(es, k).Some? ==> Find(es, k).value == Only(es, k)[0] && Find(es, k).value.KindOf() == k
  {
    if es != [] && es[0].KindOf() != k {
      FindKind(es[1..], k);
    }
  }

  /** Filtering out kind `k` empties `k` and keeps every other kind's entries in order. */
  lemma {:induction false} OnlyWithout(es: seq<Entry>, k: Kind, j: Kind)
    ensures Only(Without(es, k), j) == if j == k then [] else Only(es, j)
  {
    if es != [] {
      OnlyWithout(es[1..], k, j);
    }
  }

  /** `Only` distributes over concatenation. */
  lemma {:induction false} OnlyAppend(a: seq<Entry>, b: seq<Entry>, k: Kind)
    ensures Only(a + b, k) == Only(a, k) + Only(b, k)
  {
    if a == [] {
      assert a + b == b;
    } else {
      assert (a + b)[1..] == a[1..] + b;
      OnlyAppend(a[1..], b, k);
    }
  }

  /** `Without` distributes over concatenation. */
  lemma {:induction false} WithoutAppend(a: seq<Entry>, b: seq<Entry>, k: Kind)
    ensures Without(a + b, k) == Without(a, k) + Without(b, k)
  {
    if a == [] {
      assert a + b == b;
    } else {
      assert (a + b)[1..] == a[1..] + b;
      WithoutAppend(a[1..], b, k);
    }
  }

  /** Filtering a list with no entry of kind `k` changes nothing. */
  lemma {:induction false} WithoutAbsent(es: seq<Entry>, k: Kind)
    requires Only(es, k) == []
    ensures Without(es, k) == es
  {
    if es != [] {
      WithoutAbsent(es[1..], k);
    }
  }

  /** The kinds other than `k` of a list are the kinds of the list filtered of `k`. */
  lemma FindWithout(es: seq<Entry>, k: Kind, j: Kind)
    requires j != k
    ensures Find(Without(es, k), j) == Find(es, j)
  {
  }

  /** `find` of a kind in a list with one entry of that kind appended at the end. */
  lemma FindAfterAppend(es: seq<Entry>, e: Entry, j: Kind)
    ensures Find(es + [e], j) == if Find(es, j).Some? then Find(es, j)
                                 else if e.KindOf() == j then Some(e) else None
  {
    OnlyAppend(es, [e], j);
    FindKind(es, j);
    FindKind(es + [e], j);
    assert Only([e], j) == if e.KindOf() == j then [e] else [];
  }

  // ---------------------------------------------------------------------------
  // The properties of the reducers
  // ---------------------------------------------------------------------------

  /**
   * The shape of a week after a weight submission: the old Weight entries are gone and
   * the new one is appended; when the week has a Pitch entry, the Combined entries are
   * replaced by one rebuilt from the new weight data and the first Pitch entry.
   */
  lemma AfterWeightShape(es: seq<Entry>, r: map<int, WeightScore>)
    ensures Find(es, PitchKind).None? ==>
              AfterWeight(es, r) == Without(es, WeightKind) + [Weight(r)]
    ensures Find(es, PitchKind).Some? ==>
              Find(es, PitchKind).value.Pitch? &&
              AfterWeight(es, r) == Without(Without(es, WeightKind), CombinedKind)
                                    + [Weight(r)]
                                    + [Combined(CombinedScores(r, Find(es, PitchKind).value.pitchData))]
  {
    var base := Without(es, WeightKind);
    FindWithout(es, WeightKind, PitchKind);
    FindAfterAppend(base, Weight(r), PitchKind);
    FindAfterAppend(base, Weight(r), WeightKind);
    OnlyWithout(es, WeightKind, WeightKind);
    FindKind(base, WeightKind);
    FindKind(es, PitchKind);
    if Find(es, PitchKind).Some? {
      WithoutAppend(base, [Weight(r)], CombinedKind);
      assert Without([Weight(r)], CombinedKind) == [Weight(r)];
    }
  }

  /** The mirror image for a pitch submission. */
  lemma AfterPitchShape(es: seq<Entry>, r: map<int, int>)
    ensures Find(es, WeightKind).None? ==>
              AfterPitch(es, r) == Without(es, PitchKind) + [Pitch(r)]
    ensures Find(es, WeightKind).Some? ==>
              Find(es, WeightKind).value.Weight? &&
              AfterPitch(es, r) == Without(Without(es, PitchKind), CombinedKind)
                                   + [Pitch(r)]
                                   + [Combined(CombinedScores(Find(es, WeightKind).value.weightData, r))]
  {
    var base := Without(es, PitchKind);
    FindWithout(es, PitchKind, WeightKind);
    FindAfterAppend(base, Pitch(r), PitchKind);
    FindAfterAppend(base, Pitch(r), WeightKind);
    OnlyWithout(es, PitchKind, PitchKind);
    FindKind(base, PitchKind);
    FindKind(es, WeightKind);
    if Find(es, WeightKind).Some? {
      WithoutAppend(base, [Pitch(r)], CombinedKind);
      assert Without([Pitch(r)], CombinedKind) == [Pitch(r)];
    }
  }

  /** After a weight submission the week holds exactly one Weight entry, with data `r`. */
  lemma WeightEntryReplaced(es: seq<Entry>, r: map<int, WeightScore>)
    ensures Only(AfterWeight(es, r), WeightKind) == [Weight(r)]
    ensures Find(AfterWeight(es, r), WeightKind) == Some(Weight(r))
  {
    AfterWeightShape(es, r);
    var base := Without(es, WeightKind);
    OnlyWithout(es, WeightKind, WeightKind);
    if Find(es, PitchKind).None? {
      OnlyAppend(base, [Weight(r)], WeightKind);
    } else {
      var c := Combined(CombinedScores(r, Find(es, PitchKind).value.pitchData));
      var kept := Without(base, CombinedKind);
      OnlyWithout(base, CombinedKind, WeightKind);
      OnlyAppend(kept, [Weight(r)], WeightKind);
      OnlyAppend(kept + [Weight(r)], [c], WeightKind);
      assert Only([c], WeightKind) == [];
      assert Only([Weight(r)], WeightKind) == [Weight(r)];
    }
    FindKind(AfterWeight(es, r), WeightKind);
  }

  /** After a pitch submission the week holds exactly one Pitch entry, with data `r`. */
  lemma PitchEntryReplaced(es: seq<Entry>, r: map<int, int>)
    ensures Only(AfterPitch(es, r), PitchKind) == [Pitch(r)]
    ensures Find(AfterPitch(es, r), PitchKind) == Some(Pitch(r))
  {
    AfterPitchShape(es, r);
    var base := Without(es, PitchKind);
    OnlyWithout(es, PitchKind, PitchKind);
    if Find(es, WeightKind).None? {
      OnlyAppend(base, [Pitch(r)], PitchKind);
    } else {
      var c := Combined(CombinedScores(Find(es, WeightKind).value.weightData, r));
      var kept := Without(base, CombinedKind);
      OnlyWithout(base, CombinedKind, PitchKind);
      OnlyAppend(kept, [Pitch(r)], PitchKind);
      OnlyAppend(kept + [Pitch(r)], [c], PitchKind);
      assert Only([c], PitchKind) == [];
      assert Only([Pitch(r)], PitchKind) == [Pitch(r)];
    }
    FindKind(AfterPitch(es, r), PitchKind);
  }

  /**
   * Combined is rebuilt only when the week has both a Weight and a Pitch entry: otherwise
   * the list is returned untouched, stale Combined entry included; when it is rebuilt
   * there is exactly one Combined entry, it is the last one, and every other entry keeps
   * its place in the list.
   */
  lemma RecomputeEffect(es: seq<Entry>)
    ensures Find(es, WeightKind).None? || Find(es, PitchKind).None? ==> Recompute(es) == es
    ensures Find(es, WeightKind).Some? && Find(es, PitchKind).Some? ==>
              Find(es, WeightKind).value.Weight? && Find(es, PitchKind).value.Pitch? &&
              var c := Combined(CombinedScores(Find(es, WeightKind).value.weightData,
                                               Find(es, PitchKind).value.pitchData));
              && |Recompute(es)| > 0
              && Recompute(es)[|Recompute(es)| - 1] == c
              && Only(Recompute(es), CombinedKind) == [c]
              && Only(Recompute(es), WeightKind) == Only(es, WeightKind)
              && Only(Recompute(es), PitchKind) == Only(es, PitchKind)
  {
    FindKind(es, WeightKind);
    FindKind(es, PitchKind);
    if Find(es, WeightKind).Some? && Find(es, PitchKind).Some? {
      var c := Combined(CombinedScores(Find(es, WeightKind).value.weightData,
                                       Find(es, PitchKind).value.pitchData));
      var kept := Without(es, CombinedKind);
      assert Recompute(es) == kept + [c];
      OnlyWithout(es, CombinedKind, CombinedKind);
      OnlyWithout(es, CombinedKind, WeightKind);
      OnlyWithout(es, CombinedKind, PitchKind);
      OnlyAppend(kept, [c], CombinedKind);
      OnlyAppend(kept, [c], WeightKind);
      OnlyAppend(kept, [c], PitchKind);
      assert Only([c], CombinedKind) == [c];
      assert Only([c], WeightKind) == [];
      assert Only([c], PitchKind) == [];
    }
  }

  /**
   * A weight submission to a week without a Pitch entry leaves any (stale) Combined entry
   * exactly as it was, and never touches the week's Pitch entries.
   */
  lemma WeightKeepsOthers(es: seq<Entry>, r: map<int, WeightScore>)
    ensures Only(AfterWeight(es, r), PitchKind) == Only(es, PitchKind)
    ensures Find(es, PitchKind).None? ==> Only(AfterWeight(es, r), CombinedKind) == Only(es, CombinedKind)
  {
    AfterWeightShape(es, r);
    var base := Without(es, WeightKind);
    OnlyWithout(es, WeightKind, PitchKind);
    OnlyWithout(es, WeightKind, CombinedKind);
    if Find(es, PitchKind).None? {
      OnlyAppend(base, [Weight(r)], PitchKind);
      OnlyAppend(base, [Weight(r)], CombinedKind);
      assert Only([Weight(r)], PitchKind) == [];
      assert Only([Weight(r)], CombinedKind) == [];
    } else {
      var c := Combined(CombinedScores(r, Find(es, PitchKind).value.pitchData));
      var kept := Without(base, CombinedKind);
      OnlyWithout(base, CombinedKind, PitchKind);
      OnlyAppend(kept, [Weight(r)], PitchKind);
      OnlyAppend(kept + [Weight(r)], [c], PitchKind);
      assert Only([c], PitchKind) == [];
      assert Only([Weight(r)], PitchKind) == [];
    }
  }

  /** The mirror image for a pitch submission. */
  lemma PitchKeepsOthers(es: seq<Entry>, r: map<int, int>)
    ensures Only(AfterPitch(es, r), WeightKind) == Only(es, WeightKind)
    ensures Find(es, WeightKind).None? ==> Only(AfterPitch(es, r), CombinedKind) == Only(es, CombinedKind)
  {
    AfterPitchShape(es, r);
    var base := Without(es, PitchKind);
    OnlyWithout(es, PitchKind, WeightKind);
    OnlyWithout(es, PitchKind, CombinedKind);
    if Find(es, WeightKind).None? {
      OnlyAppend(base, [Pitch(r)], WeightKind);
      OnlyAppend(base, [Pitch(r)], CombinedKind);
      assert Only([Pitch(r)], WeightKind) == [];
      assert Only([Pitch(r)], CombinedKind) == [];
    } else {
      var c := Combined(CombinedScores(Find(es, WeightKind).value.weightData, r));
      var kept := Without(base, CombinedKind);
      OnlyWithout(base, CombinedKind, WeightKind);
      OnlyAppend(kept, [Pitch(r)], WeightKind);
      OnlyAppend(kept + [Pitch(r)], [c], WeightKind);
      assert Only([c], WeightKind) == [];
      assert Only([Pitch(r)], WeightKind) == [];
    }
  }

  /** Both reducers keep "at most one entry of each kind" in the week they change. */
  lemma AtMostOnePreserved(es: seq<Entry>, w: map<int, WeightScore>, p: map<int, int>)
    requires AtMostOnePerKind(es)
    ensures AtMostOnePerKind(AfterWeight(es, w))
    ensures AtMostOnePerKind(AfterPitch(es, p))
  {
    WeightEntryReplaced(es, w);
    WeightKeepsOthers(es, w);
    var wb := Without(es, WeightKind);
    FindWithout(es, WeightKind, PitchKind);
    FindAfterAppend(wb, Weight(w), PitchKind);
    FindAfterAppend(wb, Weight(w), WeightKind);
    RecomputeEffect(wb + [Weight(w)]);
    PitchEntryReplaced(es, p);
    PitchKeepsOthers(es, p);
    var pb := Without(es, PitchKind);
    FindWithout(es, PitchKind, WeightKind);
    FindAfterAppend(pb, Pitch(p), PitchKind);
    FindAfterAppend(pb, Pitch(p), WeightKind);
    RecomputeEffect(pb + [Pitch(p)]);
  }

  /** Submitting the same weight data twice leaves the week as the first submission left it. */
  lemma AfterWeightIdempotent(es: seq<Entry>, r: map<int, WeightScore>)
    ensures AfterWeight(AfterWeight(es, r), r) == AfterWeight(es, r)
  {
    var once := AfterWeight(es, r);
    AfterWeightShape(es, r);
    AfterWeightShape(once, r);
    WeightKeepsOthers(es, r);
    FindKind(es, PitchKind);
    FindKind(once, PitchKind);
    var base := Without(es, WeightKind);
    OnlyWithout(es, WeightKind, WeightKind);
    if Find(es, PitchKind).None? {
      WithoutAppend(base, [Weight(r)], WeightKind);
      assert Without([Weight(r)], WeightKind) == [];
      WithoutAbsent(base, WeightKind);
    } else {
      var c := Combined(CombinedScores(r, Find(es, PitchKind).value.pitchData));
      var kept := Without(base, CombinedKind);
      assert once == kept + [Weight(r)] + [c];
      WithoutAppend(kept + [Weight(r)], [c], WeightKind);
      WithoutAppend(kept, [Weight(r)], WeightKind);
      assert Without([c], WeightKind) == [c];
      assert Without([Weight(r)], WeightKind) == [];
      OnlyWithout(base, CombinedKind, WeightKind);
      WithoutAbsent(kept, WeightKind);
      assert Without(once, WeightKind) == kept + [c];
      WithoutAppend(kept, [c], CombinedKind);
      assert Without([c], CombinedKind) == [];
      OnlyWithout(base, CombinedKind, CombinedKind);
      WithoutAbsent(kept, CombinedKind);
      FindWithout(once, WeightKind, PitchKind);
      WeightKeepsOthers(once, r);
    }
  }

  /** Submitting the same pitch data twice leaves the week as the first submission left it. */
  lemma AfterPitchIdempotent(es: seq<Entry>, r: map<int, int>)
    ensures AfterPitch(AfterPitch(es, r), r) == AfterPitch(es, r)
  {
    var once := AfterPitch(es, r);
    AfterPitchShape(es, r);
    AfterPitchShape(once, r);
    PitchKeepsOthers(es, r);
    FindKind(es, WeightKind);
    FindKind(once, WeightKind);
    var base := Without(es, PitchKind);
    OnlyWithout(es, PitchKind, PitchKind);
    if Find(es, WeightKind).None? {
      WithoutAppend(base, [Pitch(r)], PitchKind);
      assert Without([Pitch(r)], PitchKind) == [];
      WithoutAbsent(base, PitchKind);
    } else {
      var c := Combined(CombinedScores(Find(es, WeightKind).value.weightData, r));
      var kept := Without(base, CombinedKind);
      assert once == kept + [Pitch(r)] + [c];
      WithoutAppend(kept + [Pitch(r)], [c], PitchKind);
      WithoutAppend(kept, [Pitch(r)], PitchKind);
      assert Without([c], PitchKind) == [c];
      assert Without([Pitch(r)], PitchKind) == [];
      OnlyWithout(base, CombinedKind, PitchKind);
      WithoutAbsent(kept, PitchKind);
      assert Without(once, PitchKind) == kept + [c];
      WithoutAppend(kept, [c], CombinedKind);
      assert Without([c], CombinedKind) == [];
      OnlyWithout(base, CombinedKind, CombinedKind);
      WithoutAbsent(kept, CombinedKind);
      FindWithout(once, PitchKind, WeightKind);
      PitchKeepsOthers(once, r);
    }
  }

  // ---------------------------------------------------------------------------
  // Store-level properties
  // ---------------------------------------------------------------------------

  /**
   * A weight submission records exactly one Weight entry, equal to `r`, under `GW{week}`
   * (for every week number: this reducer has no guard), appends a new week key at the end
   * of the key order, and leaves every other week as it was.
   */
  lemma SubmitWeightEffect(s: Store, week: int, r: map<int, WeightScore>)
    requires WellFormed(s)
    ensures var s' := SubmitWeight(s, week, r);
            && WellFormed(s')
            && s'.order == (if week in s.byWeek then s.order else s.order + [week])
            && Only(EntriesAt(s', week), WeightKind) == [Weight(r)]
            && (forall k :: k != week ==> EntriesAt(s', k) == EntriesAt(s, k) && (k in s'.byWeek <==> k in s.byWeek))
  {
    WeightEntryReplaced(EntriesAt(s, week), r);
  }

  /**
   * A pitch submission with a missing, non-numeric or zero week leaves the whole store
   * unchanged; with a valid week it records exactly one Pitch entry, equal to `r`, and
   * leaves every other week as it was.
   */
  lemma SubmitPitchEffect(s: Store, week: Option<int>, r: map<int, int>)
    requires WellFormed(s)
    ensures InvalidPitchWeek(week) ==> SubmitPitch(s, week, r) == s
    ensures !InvalidPitchWeek(week) ==>
              var s' := SubmitPitch(s, week, r);
              && WellFormed(s')
              && s'.order == (if week.value in s.byWeek then s.order else s.order + [week.value])
              && Only(EntriesAt(s', week.value), PitchKind) == [Pitch(r)]
              && (forall k :: k != week.value ==> EntriesAt(s', k) == EntriesAt(s, k) && (k in s'.byWeek <==> k in s.byWeek))
  {
    if !InvalidPitchWeek(week) {
      PitchEntryReplaced(EntriesAt(s, week.value), r);
    }
  }

  /** Both reducers keep the at-most-one-per-kind invariant of every week of the store. */
  lemma StoreInvariantPreserved(s: Store, week: int, pitchWeek: Option<int>,
                                w: map<int, WeightScore>, p: map<int, int>)
    requires WellFormed(s) && AllWeeksAtMostOne(s)
    ensures AllWeeksAtMostOne(SubmitWeight(s, week, w))
    ensures AllWeeksAtMostOne(SubmitPitch(s, pitchWeek, p))
  {
    assert AtMostOnePerKind(EntriesAt(s, week)) by {
      if week !in s.byWeek {
        assert Only([], WeightKind) == [] && Only([], PitchKind) == [] && Only([], CombinedKind) == [];
      }
    }
    AtMostOnePreserved(EntriesAt(s, week), w, p);
    if !InvalidPitchWeek(pitchWeek) {
      var pw := pitchWeek.value;
      assert AtMostOnePerKind(EntriesAt(s, pw)) by {
        if pw !in s.byWeek {
          assert Only([], WeightKind) == [] && Only([], PitchKind) == [] && Only([], CombinedKind) == [];
        }
      }
      AtMostOnePreserved(EntriesAt(s, pw), w, p);
    }
  }

  /** Re-submitting the same weight payload for the same week changes nothing. */
  lemma SubmitWeightIdempotent(s: Store, week: int, r: map<int, WeightScore>)
    ensures SubmitWeight(SubmitWeight(s, week, r), week, r) == SubmitWeight(s, week, r)
  {
    AfterWeightIdempotent(EntriesAt(s, week), r);
    var once := SubmitWeight(s, week, r);
    assert once.byWeek[week := AfterWeight(once.byWeek[week], r)] == once.byWeek;
  }

  /** Re-submitting the same pitch payload for the same week changes nothing. */
  lemma SubmitPitchIdempotent(s: Store, week: Option<int>, r: map<int, int>)
    ensures SubmitPitch(SubmitPitch(s, week, r), week, r) == SubmitPitch(s, week, r)
  {
    if !InvalidPitchWeek(week) {
      AfterPitchIdempotent(EntriesAt(s, week.value), r);
      var once := SubmitPitch(s, week, r);
      assert once.byWeek[week.value := AfterPitch(once.byWeek[week.value], r)] == once.byWeek;
    }
  }
}
