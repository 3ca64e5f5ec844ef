/** Least elements and lower bounds of finite sets of integers: what ordered iteration over a std::map needs. */
module IntSets {

  lemma {:induction false} LeastBelow(s: set<int>, x: int)
    requires x in s
    ensures exists k :: k in s && forall j :: j in s ==> k <= j
    decreases |s|
  {
    if j :| j in s && j < x {
      LeastBelow(s - {x}, j);
      var k :| k in s - {x} && forall j :: j in s - {x} ==> k <= j;
      assert forall j :: j in s ==> j == x || j in s - {x};
    }
  }

  lemma NonEmpty(s: set<int>)
    requires s != {}
    ensures exists x :: x in s
  {
    if forall x :: x !in s {
      assert false;
    }
  }

  lemma LeastExists(s: set<int>)
    requires s != {}
    ensures exists k :: k in s && forall j :: j in s ==> k <= j
  {
    NonEmpty(s);
    var x :| x in s;
    LeastBelow(s, x);
  }

  method FirstKey(s: set<int>) returns (k: int)
    requires s != {}
    ensures k in s && forall j :: j in s ==> k <= j
  {
    LeastExists(s);
    k :| k in s && forall j :: j in s ==> k <= j;
  }

  ghost predicate Bounds(lo: int, s: set<int>) {
    forall j :: j in s ==> lo < j
  }

  lemma LowerBound(s: set<int>) returns (lo: int)
    ensures Bounds(lo, s)
  {
    if s == {} {
      lo := 0;
    } else {
      LeastExists(s);
      var m :| m in s && forall j :: j in s ==> m <= j;
      lo := m - 1;
    }
  }
}
