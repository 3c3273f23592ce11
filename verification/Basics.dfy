// Shared vocabulary: optional values, outcomes, and finite sums over maps.

module Basics {

  datatype Option<+T> = None | Some(value: T)

  datatype Result<+T> = Ok(value: T) | Err(error: string)

  // The sum of the values of a finite map; the choice of key is immaterial (SumMinus).
  ghost function Sum<K>(m: map<K, int>): int
    decreases |m|
  {
    if m == map[] then 0 else
      var k :| k in m;
      m[k] + Sum(m - {k})
  }

  lemma {:induction false} SumMinus<K>(m: map<K, int>, k: K)
    requires k in m
    ensures Sum(m) == m[k] + Sum(m - {k})
    decreases |m|
  {
    var c :| c in m && Sum(m) == m[c] + Sum(m - {c});
    if c != k {
      SumMinus(m - {c}, k);
      SumMinus(m - {k}, c);
      assert m - {c} - {k} == m - {k} - {c};
    }
  }

  // Writing one key changes the sum by the difference at that key.
  lemma SumUpdate<K>(m: map<K, int>, k: K, v: int)
    ensures Sum(m[k := v]) == Sum(m) + v - (if k in m then m[k] else 0)
  {
    SumMinus(m[k := v], k);
    if k in m {
      SumMinus(m, k);
      assert m[k := v] - {k} == m - {k};
    } else {
      assert m[k := v] - {k} == m;
    }
  }

  // With no negative entry, any part of a sum is at most the whole.
  lemma {:induction false} SumSubset<K>(part: map<K, int>, whole: map<K, int>)
    requires forall k :: k in whole ==> whole[k] >= 0
    requires forall k :: k in part ==> k in whole && part[k] == whole[k]
    ensures 0 <= Sum(part) <= Sum(whole)
    decreases |whole|
  {
    if whole == map[] {
      assert part == map[];
    } else {
      var k :| k in whole;
      SumMinus(whole, k);
      SumSubset(part - {k}, whole - {k});
      if k in part {
        SumMinus(part, k);
      } else {
        assert part - {k} == part;
      }
    }
  }

  // t is reached from s in n steps.
  ghost predicate Path<S(!new)>(step: (S, S) -> bool, s: S, t: S, n: nat)
    decreases n
  {
    if n == 0 then s == t else exists u :: step(s, u) && Path(step, u, t, n - 1)
  }

  lemma {:induction false} PathTrans<S(!new)>(step: (S, S) -> bool, s: S, t: S, u: S, n: nat, m: nat)
    requires Path(step, s, t, n) && Path(step, t, u, m)
    ensures Path(step, s, u, n + m)
    decreases n
  {
    if n > 0 {
      var v :| step(s, v) && Path(step, v, t, n - 1);
      PathTrans(step, v, t, u, n - 1, m);
    }
  }

  // What every step keeps, every run keeps.
  lemma {:induction false} PathKeeps<S(!new)>(step: (S, S) -> bool, good: S -> bool, s: S, t: S, n: nat)
    requires forall a, b :: good(a) && step(a, b) ==> good(b)
    requires good(s) && Path(step, s, t, n)
    ensures good(t)
    decreases n
  {
    if n > 0 {
      var u :| step(s, u) && Path(step, u, t, n - 1);
      PathKeeps(step, good, u, t, n - 1);
    }
  }

  // t is reached from s.
  ghost predicate Reaches<S(!new)>(step: (S, S) -> bool, s: S, t: S) {
    exists n: nat :: Path(step, s, t, n)
  }

  lemma ReachesKeeps<S(!new)>(step: (S, S) -> bool, good: S -> bool, s: S, t: S)
    requires forall a, b :: good(a) && step(a, b) ==> good(b)
    requires good(s) && Reaches(step, s, t)
    ensures good(t)
  {
    var n: nat :| Path(step, s, t, n);
    PathKeeps(step, good, s, t, n);
  }

  lemma ReachesTrans<S(!new)>(step: (S, S) -> bool, s: S, t: S, u: S)
    requires Reaches(step, s, t) && Reaches(step, t, u)
    ensures Reaches(step, s, u)
  {
    var n: nat :| Path(step, s, t, n);
    var m: nat :| Path(step, t, u, m);
    PathTrans(step, s, t, u, n, m);
  }

  lemma ReachesNow<S(!new)>(step: (S, S) -> bool, s: S)
    ensures Reaches(step, s, s)
  {
    assert Path(step, s, s, 0);
  }

  lemma ReachesInOne<S(!new)>(step: (S, S) -> bool, s: S, t: S)
    requires step(s, t)
    ensures Reaches(step, s, t)
  {
    assert Path(step, t, t, 0);
    assert Path(step, s, t, 1);
  }

  lemma ReachesInThree<S(!new)>(step: (S, S) -> bool, s: S, a: S, b: S, t: S)
    requires step(s, a) && step(a, b) && step(b, t)
    ensures Reaches(step, s, t)
  {
    assert Path(step, t, t, 0);
    assert Path(step, b, t, 1);
    assert Path(step, a, t, 2);
    assert Path(step, s, t, 3);
  }
}
