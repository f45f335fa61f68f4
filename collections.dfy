/**
 * Small facts about Dafny's built-in collections: drawing a key from a non-empty set, the
 * least key of a set of integer keys (the order in which a JavaScript object enumerates
 * integer-like keys), and the sum of a map's values.
 */
module Collections {

  /** A non-empty set has a member (the loops draw the next key from their to-do set). */
  lemma NonEmptyHasMember(s: set<int>)
    requires s != {}
    ensures exists x :: x in s
  {
    if forall x :: x !in s {
      assert false;
    }
  }

  /** `k` is the least element of `s`. */
  ghost predicate IsLeast(k: int, s: set<int>)
  {
    k in s && forall j :: j in s ==> k <= j
  }

  /** A non-empty set of integers has a least element. */
  lemma {:induction false} HasLeast(s: set<int>)
    requires s != {}
    ensures exists k :: IsLeast(k, s)
    decreases |s|
  {
    NonEmptyHasMember(s);
    var x :| x in s;
    if !IsLeast(x, s) {
      var y :| y in s && y < x;
      var rest := s - {x};
      assert y in rest;
      HasLeast(rest);
      var m :| IsLeast(m, rest);
      assert IsLeast(m, s) by {
        forall j | j in s ensures m <= j {
          if j != x {
            assert j in rest;
          }
        }
      }
    }
  }

  /** The least key of a non-empty set. */
  ghost function Least(s: set<int>): (k: int)
    requires s != {}
    ensures k in s && forall j :: j in s ==> k <= j
  {
    HasLeast(s);
    var k :| IsLeast(k, s);
    k
  }

  /** The sum of a map's values, taken in ascending key order. */
  ghost function SumValues(m: map<int, int>): int
    decreases m.Keys
  {
    if m.Keys == {} then 0
    else
      var k := Least(m.Keys);
      m[k] + SumValues(m - {k})
  }

  /** The sum does not depend on the order: any key can be taken out first. */
  lemma {:induction false} SumValuesRemove(m: map<int, int>, k: int)
    requires k in m
    ensures SumValues(m) == m[k] + SumValues(m - {k})
    decreases m.Keys
  {
    var least := Least(m.Keys);
    if least != k {
      var rest := m - {least};
      assert k in rest;
      SumValuesRemove(rest, k);
      var both := rest - {k};
      assert both == (m - {k}) - {least};
      assert least in m - {k};
      SumValuesRemove(m - {k}, least);
    }
  }

  /** Adding `v` to the value of `k` (0 when absent) adds `v` to the sum. */
  lemma SumValuesAdd(m: map<int, int>, k: int, v: int)
    ensures SumValues(m[k := (if k in m then m[k] else 0) + v]) == SumValues(m) + v
  {
    var m' := m[k := (if k in m then m[k] else 0) + v];
    SumValuesRemove(m', k);
    assert m' - {k} == m - {k};
    if k in m {
      SumValuesRemove(m, k);
    } else {
      assert m - {k} == m;
    }
  }
}
