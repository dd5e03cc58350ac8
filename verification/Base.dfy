/** Types and small facts shared by every component. */
module Base {

  datatype Option<+T> = None | Some(value: T)

  /** A UUID. Equality is all the system ever asks of one. */
  type Id = nat

  /** An instant or a duration, in nanoseconds. */
  type Time = int

  const SECOND: Time := 1_000_000_000

  /** SQL's COALESCE(MAX(x), 0) over a column of positive numbers. */
  ghost function Max0(s: set<nat>): (m: nat)
    ensures forall x :: x in s ==> x <= m
    ensures s != {} ==> m in s
    ensures s == {} ==> m == 0
  {
    if s == {} then 0
    else
      var x :| x in s;
      var rest := Max0(s - {x});
      assert forall y :: y in s ==> y == x || y in s - {x};
      if x > rest then x else rest
  }

  /** The same maximum, computed row by row. */
  method ComputeMax0(s: set<nat>) returns (m: nat)
    ensures m == Max0(s)
  {
    m := 0;
    var rest := s;
    while rest != {}
      invariant rest <= s
      invariant forall x :: x in s - rest ==> x <= m
      invariant m in s - rest || (m == 0 && forall x :: x in s - rest ==> x == 0)
      decreases rest
    {
      var x :| x in rest;
      assert forall y :: y in s - (rest - {x}) ==> y == x || y in s - rest;
      rest := rest - {x};
      if x > m {
        m := x;
      }
    }
    assert s - rest == s;
  }

  ghost function Min(s: set<nat>): (m: nat)
    requires s != {}
    ensures m in s && forall x :: x in s ==> m <= x
  {
    var x :| x in s;
    if s == {x} then x
    else
      assert s - {x} != {};
      var rest := Min(s - {x});
      assert forall y :: y in s ==> y == x || y in s - {x};
      if x < rest then x else rest
  }

  method ComputeMin(s: set<nat>) returns (m: nat)
    requires s != {}
    ensures m == Min(s)
  {
    m :| m in s;
    var rest := s - {m};
    while rest != {}
      invariant rest <= s && m in s
      invariant forall x :: x in s ==> x in rest || m <= x
      decreases rest
    {
      var x :| x in rest;
      rest := rest - {x};
      if x < m {
        m := x;
      }
    }
  }

  /** ORDER BY seq ASC LIMIT n */
  ghost function Ascending(s: set<nat>, limit: nat): (page: seq<nat>)
    ensures forall i :: 0 <= i < |page| ==> page[i] in s
    decreases limit
  {
    if limit == 0 || s == {} then [] else [Min(s)] + Ascending(s - {Min(s)}, limit - 1)
  }

  /** The numbers from + 1 .. from + count. */
  ghost function Upto(from: nat, count: nat): seq<nat> {
    seq(count, i requires 0 <= i => from + 1 + i)
  }

  lemma {:induction false} AscendingInterval(s: set<nat>, from: nat, top: nat, limit: nat)
    requires from <= top && forall q: nat :: q in s <==> from < q <= top
    ensures Ascending(s, limit) == Upto(from, if limit < top - from then limit else top - from)
    decreases limit
  {
    if limit > 0 && from < top {
      assert from + 1 in s;
      assert Min(s) == from + 1;
      AscendingInterval(s - {from + 1}, from + 1, top, limit - 1);
      var n := if limit < top - from then limit else top - from;
      assert Upto(from, n) == [from + 1] + Upto(from + 1, n - 1);
    } else if from == top {
      assert s == {};
    }
  }

  /** A page holds the smallest elements in rising order, as many as the limit allows, and leaves out only
      larger ones. */
  lemma {:induction false} AscendingIs(s: set<nat>, limit: nat)
    ensures var page := Ascending(s, limit);
            && |page| == (if limit < |s| then limit else |s|)
            && (forall i, j :: 0 <= i < j < |page| ==> page[i] < page[j])
            && (forall x, i :: x in s && x !in page && 0 <= i < |page| ==> page[i] < x)
    decreases limit
  {
    if limit > 0 && s != {} {
      var m := Min(s);
      var rest := Ascending(s - {m}, limit - 1);
      AscendingIs(s - {m}, limit - 1);
      assert Ascending(s, limit) == [m] + rest && |s - {m}| == |s| - 1;
      forall x, i | x in s && x !in [m] + rest && 0 <= i < |[m] + rest|
        ensures ([m] + rest)[i] < x
      {
        assert m in [m] + rest && x in s - {m};
        assert forall r :: r in rest ==> r in [m] + rest;
      }
    }
  }

  /** What stands before the first separator, and what after it, can be read off the joined text. */
  lemma {:induction false} SplitAtFirst(a: string, x: string, b: string, y: string, mark: char)
    requires a + [mark] + x == b + [mark] + y && mark !in a && mark !in b
    ensures a == b && x == y
  {
    var joined := a + [mark] + x;
    assert joined[|a|] == mark && joined[|b|] == mark;
    assert forall i :: 0 <= i < |a| ==> joined[i] == a[i];
    assert forall i :: 0 <= i < |b| ==> joined[i] == b[i];
    assert |a| == |b|;
    assert a == joined[..|a|] && b == joined[..|b|];
    assert x == joined[|a| + 1..] && y == joined[|b| + 1..];
  }
}
