/**
 * The fixed team enumeration and the schedule of fixtures that the pitch form and the
 * league table both read. The name-to-id table `teamMapping` appears twice in the
 * repository (the pitch form and the league table), with the same four entries; it is
 * defined once here.
 */
module Schedule {
  import opened Wrappers

  /** One match of a fixture: the two team names as written in the schedule. */
  datatype Match = Match(home: string, away: string)

  /** One gameweek of the schedule: its week number and its matches, in order. */
  datatype Fixture = Fixture(week: int, matches: seq<Match>)

  /** `teamMapping[name]`: the numeric team id of a team name, `None` for an unknown name. */
  function TeamId(name: string): (r: Option<int>)
    ensures r.Some? ==> 1 <= r.value <= 4
  {
    if name == "Red" then Some(1)
    else if name == "Blue" then Some(2)
    else if name == "Green" then Some(3)
    else if name == "Black" then Some(4)
    else None
  }

  /** The team name of each of the four ids (the inverse of `TeamId`). */
  function TeamName(id: int): (r: Option<string>)
  {
    if id == 1 then Some("Red")
    else if id == 2 then Some("Blue")
    else if id == 3 then Some("Green")
    else if id == 4 then Some("Black")
    else None
  }

  /** Two different names never map to the same id. */
  lemma TeamIdInjective(a: string, b: string)
    requires TeamId(a).Some? && TeamId(a) == TeamId(b)
    ensures a == b
  {
  }

  /** The table is a bijection between the four names and the ids 1..4. */
  lemma TeamIdRoundTrip(name: string, id: int)
    ensures TeamId(name) == Some(id) <==> TeamName(id) == Some(name)
    ensures (TeamName(id).Some?) <==> 1 <= id <= 4
  {
  }

  /** `fixtures.find(f => f.week === week)`: the first fixture of that week, if any. */
  function FindFixture(fixtures: seq<Fixture>, week: int): (r: Option<Fixture>)
    ensures r.None? <==> (forall i :: 0 <= i < |fixtures| ==> fixtures[i].week != week)
    ensures r.Some? ==> exists i :: 0 <= i < |fixtures| && fixtures[i] == r.value && r.value.week == week
                                    && forall j :: 0 <= j < i ==> fixtures[j].week != week
  {
    if fixtures == [] then None
    else if fixtures[0].week == week then Some(fixtures[0])
    else
      var r := FindFixture(fixtures[1..], week);
      assert r.Some? ==> exists i :: 1 <= i < |fixtures| && fixtures[i] == r.value && r.value.week == week
                                     && forall j :: 0 <= j < i ==> fixtures[j].week != week by {
        if r.Some? {
          var i :| 0 <= i < |fixtures[1..]| && fixtures[1..][i] == r.value && r.value.week == week
                   && forall j :: 0 <= j < i ==> fixtures[1..][j].week != week;
          assert forall j :: 0 <= j < i + 1 ==> fixtures[j].week != week by {
            forall j | 0 <= j < i + 1 ensures fixtures[j].week != week {
              if j > 0 { assert fixtures[j] == fixtures[1..][j - 1]; }
            }
          }
        }
      }
      r
  }
}
