/** Finite sets. */
module Sets {
  lemma {:induction false} Bound<T(!new)>(s: set<T>, size: T -> int) returns (n: nat)
    ensures forall x | x in s :: size(x) < n
    decreases |s|
  {
    if s == {} {
      n := 0;
    } else {
      var x :| x in s;
      var m := Bound(s - {x}, size);
      n := if size(x) < m then m else size(x) + 1;
    }
  }

  lemma SizeWithin<T>(a: set<T>, b: set<T>)
    requires a <= b
    ensures |a| <= |b|
  {
    if a != {} {
      var x :| x in a;
      SizeWithin(a - {x}, b - {x});
    }
  }

  lemma AtMostOneElement<T>(s: set<T>)
    requires forall a, b | a in s && b in s :: a == b
    ensures |s| <= 1
  {
    if s != {} {
      var a :| a in s;
      assert s == {a};
    }
  }

  lemma SomeLeft<T>(part: set<T>, all: set<T>)
    requires part <= all
    ensures part == all || exists x :: x in all && x !in part
  {
    if forall x | x in all :: x in part {
      assert part == all;
    }
  }
}
