/** Finite sets of numbers in increasing order: what Python's sorted does to a set. */
module Sorting {
  ghost predicate Increasing(s: seq<int>) {
    forall i, j | 0 <= i < j < |s| :: s[i] < s[j]
  }

  predicate IsLeast(s: set<nat>, m: nat) {
    m in s && forall x | x in s :: m <= x
  }

  lemma {:induction false} HasLeast(s: set<nat>)
    requires s != {}
    ensures exists m :: IsLeast(s, m)
    decreases |s|
  {
    var x :| x in s;
    if s == {x} {
      assert IsLeast(s, x);
    } else {
      HasLeast(s - {x});
      var m :| IsLeast(s - {x}, m);
      var least := if x < m then x else m;
      forall y | y in s ensures least <= y {
        if y != x { assert y in s - {x}; }
      }
      assert IsLeast(s, least);
    }
  }

  function Least(s: set<nat>): (m: nat)
    requires s != {}
    ensures IsLeast(s, m)
  {
    HasLeast(s);
    var m :| IsLeast(s, m);
    m
  }

  lemma LeastGoesFirst(s: set<nat>, m: nat, rest: seq<nat>)
    requires IsLeast(s, m) && Increasing(rest) && Elements(rest) == s - {m}
    ensures Increasing([m] + rest) && Elements([m] + rest) == s
  {
    forall j | 0 <= j < |rest| ensures m < rest[j] {
      assert rest[j] in Elements(rest);
    }
    JoinElements([m], rest);
  }

  /** Python's sorted of a set. */
  function Sorted(s: set<nat>): (r: seq<nat>)
    ensures Increasing(r) && |r| == |s| && Elements(r) == s
    decreases |s|
  {
    if s == {} then [] else
      var m := Least(s);
      var rest := Sorted(s - {m});
      LeastGoesFirst(s, m, rest);
      [m] + rest
  }

  function Elements(s: seq<nat>): set<nat> {
    set x | x in s
  }

  lemma {:induction false} DistinctCount(s: seq<nat>)
    requires Increasing(s)
    ensures |Elements(s)| == |s|
  {
    if s != [] {
      var front, last := s[..|s| - 1], s[|s| - 1];
      DistinctCount(front);
      assert last !in front;
      assert s == front + [last];
      assert Elements(s) == Elements(front) + {last};
    }
  }

  lemma JoinElements(s: seq<nat>, t: seq<nat>)
    ensures Elements(s + t) == Elements(s) + Elements(t)
  {
  }

  lemma {:induction false} SubsetSize(a: set<nat>, b: set<nat>)
    requires a <= b
    ensures |a| <= |b|
    ensures |a| == |b| ==> a == b
  {
    if a != {} {
      var x :| x in a;
      SubsetSize(a - {x}, b - {x});
    }
  }
}
