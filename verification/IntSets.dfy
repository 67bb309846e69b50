/** Ascending iteration over a finite set of integers, as over the keys of an ordered map. */
module IntSets {
  predicate IsLeast(x: int, s: set<int>) {
    x in s && forall y :: y in s ==> x <= y
  }

  lemma Pick<T>(s: set<T>) returns (x: T)
    requires |s| > 0
    ensures x in s
  {
    x :| x in s;
  }

  lemma {:induction false} LeastExists(s: set<int>)
    requires |s| > 0
    ensures exists x :: IsLeast(x, s)
    decreases |s|
  {
    var x := Pick(s);
    if s == {x} {
      assert IsLeast(x, s);
    } else {
      var rest := s - {x};
      assert s == rest + {x};
      LeastExists(rest);
      var y :| IsLeast(y, rest);
      assert IsLeast(if x < y then x else y, s);
    }
  }

  ghost function Least(s: set<int>): (least: int)
    requires |s| > 0
    ensures IsLeast(least, s)
  {
    LeastExists(s);
    var x :| IsLeast(x, s);
    x
  }

  lemma LeastIs(x: int, s: set<int>)
    requires |s| > 0 && IsLeast(x, s)
    ensures Least(s) == x
  {
  }
}
