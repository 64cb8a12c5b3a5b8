/** Sizes of finite sets. */
module Sets {

  lemma {:induction false} SubsetSize<T>(a: set<T>, b: set<T>)
    requires a <= b
    ensures |a| <= |b|
  {
    if a != {} {
      var x :| x in a;
      SubsetSize(a - {x}, b - {x});
    }
  }

  /** Two sets that differ at most in v differ in size by what v contributes. */
  lemma SameElsewhere<T>(a: set<T>, b: set<T>, v: T)
    requires a - {v} == b - {v}
    ensures |b| == |a| - (if v in a then 1 else 0) + (if v in b then 1 else 0)
  {
    assert v in a ==> a == (a - {v}) + {v};
    assert v in b ==> b == (b - {v}) + {v};
  }

  lemma UnionSize<T>(a: set<T>, b: set<T>)
    ensures |a + b| <= |a| + |b|
  {
    assert a + b == a + (b - a);
    SubsetSize(b - a, b);
  }

  /** There is always an unused number. */
  lemma {:induction false} Unused(used: set<nat>) returns (p: nat)
    ensures forall q :: q in used ==> q < p
    decreases |used|
  {
    if used == {} {
      p := 0;
    } else {
      var q :| q in used;
      var r := Unused(used - {q});
      p := if q < r then r else q + 1;
      assert used == (used - {q}) + {q};
    }
  }

  /** A new key that is taken out again leaves the map as it was. */
  lemma PutAndTake<K, V>(m: map<K, V>, k: K, x: V, y: V)
    requires k !in m
    ensures m[k := x] - {k} == m && m[k := x][k := y] - {k} == m
  {
  }
}
