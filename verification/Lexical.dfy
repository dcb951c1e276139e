/** Lexicographic order, given what number each element is compared by. */
module Lexical {

  predicate Before<T(==)>(a: seq<T>, b: seq<T>, rank: T -> int) {
    if a == [] then b != []
    else b != [] && (rank(a[0]) < rank(b[0]) || (a[0] == b[0] && Before(a[1..], b[1..], rank)))
  }

  ghost predicate Ranks<T(!new)>(rank: T -> int) {
    forall x, y :: rank(x) == rank(y) ==> x == y
  }

  lemma {:induction false} BeforeOrders<T(!new)>(a: seq<T>, b: seq<T>, rank: T -> int)
    requires Ranks(rank)
    ensures !(Before(a, b, rank) && Before(b, a, rank))
    ensures Before(a, b, rank) || Before(b, a, rank) || a == b
    ensures !Before(a, a, rank)
  {
    if a == [] || b == [] {
      if a != [] {
        BeforeOrders(a[1..], a[1..], rank);
      }
    } else {
      BeforeOrders(a[1..], b[1..], rank);
      assert a == [a[0]] + a[1..] && b == [b[0]] + b[1..];
    }
  }

  lemma {:induction false} BeforeTransitive<T>(a: seq<T>, b: seq<T>, c: seq<T>, rank: T -> int)
    requires Before(a, b, rank) && Before(b, c, rank)
    ensures Before(a, c, rank)
  {
    if a == [] {
    } else if a[0] == b[0] == c[0] {
      BeforeTransitive(a[1..], b[1..], c[1..], rank);
    }
  }

  /** After equally long beginnings, the beginnings decide unless they are the same. */
  lemma {:induction false} BeforeConcat<T(!new)>(a: seq<T>, b: seq<T>, x: seq<T>, y: seq<T>, rank: T -> int)
    requires Ranks(rank) && |a| == |b|
    ensures Before(a + x, b + y, rank) <==> Before(a, b, rank) || (a == b && Before(x, y, rank))
  {
    if a == [] {
      assert a + x == x && b + y == y;
    } else {
      assert (a + x)[1..] == a[1..] + x && (b + y)[1..] == b[1..] + y;
      assert a == [a[0]] + a[1..] && b == [b[0]] + b[1..];
      BeforeConcat(a[1..], b[1..], x, y, rank);
    }
  }

  /** One more element at the end decides between equal beginnings. */
  lemma BeforeAppend<T(!new)>(a: seq<T>, b: seq<T>, x: T, y: T, rank: T -> int)
    requires Ranks(rank) && |a| == |b|
    ensures Before(a + [x], b + [y], rank) <==> Before(a, b, rank) || (a == b && rank(x) < rank(y))
  {
    BeforeConcat(a, b, [x], [y], rank);
    assert [x][1..] == [] && [y][1..] == [];
  }

  /** Against a longer sequence, its beginning of the same length decides, and loses a tie. */
  lemma BeforeLonger<T(!new)>(a: seq<T>, b: seq<T>, rank: T -> int)
    requires Ranks(rank) && |a| <= |b|
    ensures Before(a, b, rank) <==> Before(a, b[..|a|], rank) || (a == b[..|a|] && |a| < |b|)
  {
    assert a + [] == a && b[..|a|] + b[|a|..] == b;
    BeforeConcat(a, b[..|a|], [], b[|a|..], rank);
  }

  /** Empty, or starting with an element below everything in `s`. */
  ghost predicate Under<T(!new)>(x: seq<T>, s: seq<T>, rank: T -> int) {
    x != [] ==> forall c :: c in s ==> rank(x[0]) < rank(c)
  }

  /** Such endings only break ties, however long the beginnings are. */
  lemma {:induction false} BeforeSplit<T(!new)>(a: seq<T>, b: seq<T>, x: seq<T>, y: seq<T>, rank: T -> int)
    requires Ranks(rank) && Under(x, b, rank) && Under(y, a, rank)
    ensures Before(a + x, b + y, rank) <==> Before(a, b, rank) || (a == b && Before(x, y, rank))
  {
    if a == [] {
      assert a + x == x && (b == [] ==> b + y == y);
    } else if b == [] {
      assert b + y == y;
    } else {
      assert (a + x)[1..] == a[1..] + x && (b + y)[1..] == b[1..] + y;
      assert a == [a[0]] + a[1..] && b == [b[0]] + b[1..];
      BeforeSplit(a[1..], b[1..], x, y, rank);
    }
  }
}
