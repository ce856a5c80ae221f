// Cardinality facts about finite sets that the store and the flood both need.
module Sets {

  ghost predicate Distinct<T>(s: seq<T>) {
    forall i, j | 0 <= i < j < |s| :: s[i] != s[j]
  }

  /** An injective image of a set has as many elements as the set. */
  lemma {:induction false} InjectionBound<A, B>(s: set<A>, t: set<B>, f: map<A, B>)
    requires s <= f.Keys
    requires forall a | a in s :: f[a] in t
    requires forall a, b | a in s && b in s && f[a] == f[b] :: a == b
    ensures |s| <= |t|
    decreases s
  {
    if s != {} {
      var a :| a in s;
      InjectionBound(s - {a}, t - {f[a]}, f);
    }
  }

  lemma {:induction false} SubsetBound<A>(s: set<A>, t: set<A>)
    requires s <= t
    ensures |s| <= |t|
    ensures |s| == |t| ==> s == t
    decreases s
  {
    if s == {} {
    } else {
      var a :| a in s;
      SubsetBound(s - {a}, t - {a});
    }
  }

  /** Pigeonhole: integers within lo..hi number at most hi - lo + 1. */
  lemma {:induction false} IntervalBound(s: set<int>, lo: int, hi: int)
    requires forall x | x in s :: lo <= x <= hi
    requires lo <= hi + 1
    ensures |s| <= hi - lo + 1
    decreases hi - lo + 1
  {
    if lo <= hi {
      var t := s - {hi};
      IntervalBound(t, lo, hi - 1);
      assert s <= t + {hi};
      SubsetBound(s, t + {hi});
    } else {
      assert forall x :: x !in s;
      assert s == {};
    }
  }
}
