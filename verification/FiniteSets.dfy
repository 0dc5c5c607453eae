/** Picking elements out of finite sets of integers. */
module FiniteSets {

  lemma {:induction false} Pick<T>(s: set<T>) returns (x: T)
    requires s != {}
    ensures x in s
  {
    x :| x in s;
  }

  lemma {:induction false} Missing<T>(a: set<T>, b: set<T>) returns (x: T)
    requires !(b <= a)
    ensures x in b && x !in a
  {
    x :| x in b && x !in a;
  }

  lemma {:induction false} LeastBelow(s: set<int>, m: int)
    requires m in s
    ensures exists n :: n in s && forall x :: x in s ==> n <= x
  {
    if x :| x in s && x < m {
      var t := s - {m};
      LeastBelow(t, x);
      var n :| n in t && forall y :: y in t ==> n <= y;
      assert n <= x < m && forall y :: y in s ==> y in t || y == m;
      assert n in s && forall y :: y in s ==> n <= y;
    } else {
      assert forall y :: y in s ==> m <= y;
    }
  }

  lemma {:induction false} LeastExists(s: set<int>)
    requires s != {}
    ensures exists m :: m in s && forall x :: x in s ==> m <= x
  {
    var m := Pick(s);
    LeastBelow(s, m);
  }

  function Least(s: set<int>): (m: int)
    requires s != {}
    ensures m in s && forall x :: x in s ==> m <= x
  {
    LeastExists(s);
    var m :| m in s && forall x :: x in s ==> m <= x;
    m
  }

  /** Strictly increasing, and everything above `i`. */
  ghost predicate Above(ps: seq<int>, i: int) {
    ps != [] ==> i < ps[0] && Above(ps[1..], ps[0])
  }

  lemma {:induction false} AboveMember(ps: seq<int>, i: int, x: int)
    requires Above(ps, i) && x in ps
    ensures i < x && ps[0] <= x && (x in ps[1..] <==> x != ps[0])
  {
    assert ps == [ps[0]] + ps[1..];
    if x in ps[1..] {
      AboveMember(ps[1..], ps[0], x);
    }
  }

  /** sorted() of a set. */
  function Sorted(s: set<int>): seq<int> {
    if s == {} then [] else [Least(s)] + Sorted(s - {Least(s)})
  }

  lemma {:induction false} SortedSorts(s: set<int>, i: int)
    requires forall x :: x in s ==> i < x
    ensures Above(Sorted(s), i)
    ensures forall x :: x in Sorted(s) <==> x in s
  {
    if s != {} {
      var m := Least(s);
      SortedSorts(s - {m}, m);
      assert Sorted(s)[1..] == Sorted(s - {m});
    }
  }
}
