/** Lists without repetitions, and the sets of their elements. */
module Lists {

  predicate Distinct<T(==)>(s: seq<T>) {
    forall i, j | 0 <= i < j < |s| :: s[i] != s[j]
  }

  ghost function Elems(s: seq<nat>): set<nat> {
    set k | k in s
  }

  lemma {:induction false} CountDistinct(s: seq<nat>)
    requires Distinct(s)
    ensures |Elems(s)| == |s|
  {
    if s == [] {
      assert Elems(s) == {};
    } else {
      var t := s[1..];
      CountDistinct(t);
      assert s == [s[0]] + t;
      assert Elems(s) == Elems(t) + {s[0]} && s[0] !in Elems(t);
    }
  }

  lemma {:induction false} SnocDistinct(s: seq<nat>, k: nat)
    requires Distinct(s) && k !in s
    ensures Distinct(s + [k])
  {
  }

  lemma {:induction false} CountUnion(s: set<nat>, t: set<nat>)
    ensures |s + t| <= |s| + |t|
    ensures s !! t ==> |s + t| == |s| + |t|
  {
    assert |s + t| == |s| + |t - s| by {
      assert s + t == s + (t - s);
    }
    assert t == (t - s) + (t * s);
  }

  lemma {:induction false} CountSubset(s: set<nat>, t: set<nat>)
    requires s <= t
    ensures |s| <= |t| && (|s| == |t| ==> s == t)
  {
    assert t == s + (t - s);
  }

  lemma {:induction false} CountElems(s: seq<nat>)
    ensures |Elems(s)| <= |s|
  {
    if s != [] {
      CountElems(s[1..]);
      assert Elems(s) == Elems(s[1..]) + {s[0]} by {
        assert s == [s[0]] + s[1..];
      }
    } else {
      assert Elems(s) == {};
    }
  }
}
