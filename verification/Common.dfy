/** What every module of the model shares. */
module Common {

  datatype Option<+T> = None | Some(value: T)

  function Min(x: nat, y: nat): nat { if x <= y then x else y }

  predicate Distinct<T(==)>(s: seq<T>) { forall i, j :: 0 <= i < j < |s| ==> s[i] != s[j] }

  lemma {:induction false} DistinctCount<T>(s: seq<T>)
    requires Distinct(s)
    ensures |set x | x in s| == |s|
    decreases |s|
  {
    var all := set x | x in s;
    if s != [] {
      var front := s[..|s| - 1];
      DistinctCount(front);
      var some := set x | x in front;
      assert all == some + {s[|s| - 1]} by { assert s == front + [s[|s| - 1]]; }
      assert s[|s| - 1] !in some;
    } else {
      assert all == {};
    }
  }

  /** Distinct elements all found in another list need at least as many places there. */
  lemma Pigeonhole<T>(mine: seq<T>, theirs: seq<T>)
    requires Distinct(mine) && forall x :: x in mine ==> x in theirs
    ensures |mine| <= |theirs|
  {
    DistinctCount(mine);
    var ms, ts := set x | x in mine, set x | x in theirs;
    assert ms <= ts;
    assert |ts| == |ms| + |ts - ms| by { assert ts == ms + (ts - ms); }
    CountBound(theirs);
  }

  lemma {:induction false} CountBound<T>(s: seq<T>)
    ensures |set x | x in s| <= |s|
    decreases |s|
  {
    var all := set x | x in s;
    if s != [] {
      var front := s[..|s| - 1];
      CountBound(front);
      var some := set x | x in front;
      assert all == some + {s[|s| - 1]} by { assert s == front + [s[|s| - 1]]; }
    } else {
      assert all == {};
    }
  }

  /** The elements in the order they first appear, each once. */
  function Unique<T(==)>(s: seq<T>): seq<T> {
    if s == [] then []
    else
      var front := Unique(s[..|s| - 1]);
      if s[|s| - 1] in front then front else front + [s[|s| - 1]]
  }

  lemma {:induction false} UniqueIsDistinct<T>(s: seq<T>)
    ensures Distinct(Unique(s))
    ensures forall x :: x in Unique(s) <==> x in s
    decreases |s|
  {
    if s != [] {
      UniqueIsDistinct(s[..|s| - 1]);
      assert s == s[..|s| - 1] + [s[|s| - 1]];
    }
  }
}
