// Iteration over a std::set of 64-bit identifiers visits them in ascending
// order; Ascending(s) is that visiting order.
module OrderedSets {
  import opened Common

  predicate StrictlyIncreasing(xs: seq<u64>)
  {
    forall i, j :: 0 <= i < j < |xs| ==> xs[i] < xs[j]
  }

  predicate IsLeast(m: u64, s: set<u64>)
  {
    m in s && forall y :: y in s ==> m <= y
  }

  lemma {:induction false} LeastExists(s: set<u64>)
    requires s != {}
    ensures exists m :: IsLeast(m, s)
  {
    var x :| x in s;
    if s != {x} {
      LeastExists(s - {x});
      var m :| IsLeast(m, s - {x});
      assert forall y :: y in s ==> y == x || y in s - {x};
      if x < m {
        assert IsLeast(x, s);
      } else {
        assert IsLeast(m, s);
      }
    } else {
      assert IsLeast(x, s);
    }
  }

  lemma LeastUnique(m1: u64, m2: u64, s: set<u64>)
    requires IsLeast(m1, s) && IsLeast(m2, s)
    ensures m1 == m2
  {
  }

  /** The smallest element of a non-empty set (std::set::begin). */
  ghost function Least(s: set<u64>): (m: u64)
    requires s != {}
    ensures IsLeast(m, s)
  {
    LeastExists(s);
    var m :| IsLeast(m, s); m
  }

  /** The elements of `s` in the order a std::set iterator visits them. */
  ghost function Ascending(s: set<u64>): seq<u64>
    decreases |s|
  {
    if s == {} then [] else
      var m := Least(s);
      [m] + Ascending(s - {m})
  }

  /** Ascending(s) lists each element of s exactly once, in increasing order. */
  lemma {:induction false} AscendingEnumerates(s: set<u64>)
    ensures |Ascending(s)| == |s|
    ensures forall x :: x in s <==> x in Ascending(s)
    ensures StrictlyIncreasing(Ascending(s))
    decreases |s|
  {
    if s != {} {
      var m := Least(s);
      AscendingEnumerates(s - {m});
      var tail := Ascending(s - {m});
      assert Ascending(s) == [m] + tail;
      forall i, j | 0 <= i < j < |Ascending(s)|
        ensures Ascending(s)[i] < Ascending(s)[j]
      {
        if i == 0 {
          assert Ascending(s)[j] == tail[j - 1];
          assert tail[j - 1] in s - {m};
        }
      }
    }
  }

  /** The members of Ascending(s) are those of s. */
  lemma AscendingMembers(s: set<u64>)
    ensures forall x :: x in s <==> x in Ascending(s)
  {
    AscendingEnumerates(s);
  }

  /** Unfolding step used by loops that walk a set from its least element. */
  lemma AscendingStep(s: set<u64>, m: u64)
    requires IsLeast(m, s)
    ensures Ascending(s) == [m] + Ascending(s - {m})
  {
    LeastUnique(m, Least(s), s);
  }

  /** One round of a loop that takes the least remaining element: `done` grows by it. */
  lemma AscendingLoopStep(all: set<u64>, done: seq<u64>, rest: set<u64>, m: u64)
    requires Ascending(all) == done + Ascending(rest)
    requires IsLeast(m, rest)
    ensures Ascending(all) == (done + [m]) + Ascending(rest - {m})
  {
    AscendingStep(rest, m);
  }

  lemma AscendingEmpty()
    ensures Ascending({}) == []
  {
  }
}
