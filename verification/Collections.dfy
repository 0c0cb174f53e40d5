/** Loops over query results and map values, whose order the database or runtime chooses. */
module Collections {
  /** The elements of a set, in some order, each once. */
  method Enumerate<T(==)>(s: set<T>) returns (q: seq<T>)
    ensures forall x :: x in q <==> x in s
    ensures |q| == |s|
    ensures forall i, j :: 0 <= i < j < |q| ==> q[i] != q[j]
  {
    q := [];
    var rest := s;
    while rest != {}
      invariant rest <= s && |q| + |rest| == |s|
      invariant forall x :: x in q <==> x in s && x !in rest
      invariant forall i, j :: 0 <= i < j < |q| ==> q[i] != q[j]
      decreases |rest|
    {
      var x :| x in rest;
      rest, q := rest - {x}, q + [x];
    }
  }

  predicate StrictlyIncreasing(q: seq<int>) {
    forall i, j :: 0 <= i < j < |q| ==> q[i] < q[j]
  }

  /** The elements of a set in increasing order. */
  method Sorted(s: set<int>) returns (q: seq<int>)
    ensures forall x :: x in q <==> x in s
    ensures StrictlyIncreasing(q) && |q| == |s|
  {
    q := [];
    var rest := s;
    while rest != {}
      invariant rest <= s && |q| + |rest| == |s|
      invariant forall x :: x in q <==> x in s && x !in rest
      invariant StrictlyIncreasing(q)
      invariant forall x, y :: x in q && y in rest ==> x < y
      decreases |rest|
    {
      var m := Minimum(rest);
      assert forall i :: 0 <= i < |q| ==> q[i] in q;
      rest, q := rest - {m}, q + [m];
    }
  }

  method Minimum(s: set<int>) returns (m: int)
    requires s != {}
    ensures m in s && forall x :: x in s ==> m <= x
  {
    var q := Enumerate(s);
    m := q[0];
    for i := 1 to |q|
      invariant m in s
      invariant forall j :: 0 <= j < i ==> m <= q[j]
    {
      if q[i] < m {
        m := q[i];
      }
    }
  }

  lemma Pick<T>(s: set<T>) returns (x: T)
    requires s != {}
    ensures x in s
  {
    x :| x in s;
  }

  lemma SetOfCons<T>(x: T, rest: seq<T>)
    requires x !in rest
    ensures (set r | r in [x] + rest) == {x} + (set r | r in rest) && x !in (set r | r in rest)
  {
  }

  predicate IsLeast(m: int, ids: set<int>) { m in ids && forall r :: r in ids ==> m <= r }

  lemma {:induction false} LeastExists(ids: set<int>)
    ensures ids == {} || exists m :: IsLeast(m, ids)
    decreases |ids|
  {
    if ids != {} {
      var x := Pick(ids);
      var rest := ids - {x};
      LeastExists(rest);
      assert forall r :: r in ids ==> r == x || r in rest;
      if rest != {} {
        var m :| IsLeast(m, rest);
        var least := if x < m then x else m;
        assert IsLeast(least, ids);
      } else {
        assert IsLeast(x, ids);
      }
    }
  }

  ghost function Least(ids: set<int>): (m: int)
    requires ids != {}
    ensures IsLeast(m, ids)
  {
    LeastExists(ids);
    var m :| IsLeast(m, ids);
    m
  }

  /** The elements in increasing order. */
  ghost function InOrder(ids: set<int>): seq<int>
    decreases |ids|
  {
    if ids == {} then [] else [Least(ids)] + InOrder(ids - {Least(ids)})
  }

  /** The increasing sequence of a set is unique. */
  lemma {:induction false} InOrderIsTheSorting(ids: set<int>, q: seq<int>)
    requires StrictlyIncreasing(q) && forall x :: x in q <==> x in ids
    ensures InOrder(ids) == q
    decreases |q|
  {
    if q != [] {
      assert q[0] in q;
    }
    if ids != {} {
      var m := Least(ids);
      assert m in q && q[0] in q;
      assert m == q[0];
      forall x ensures x in q[1..] <==> x in ids - {m} {
        if x in q[1..] {
          var i :| 0 <= i < |q[1..]| && q[1..][i] == x;
          assert q[i + 1] == x;
        }
      }
      InOrderIsTheSorting(ids - {m}, q[1..]);
    }
  }

  lemma {:induction false} InOrderSorts(ids: set<int>)
    ensures StrictlyIncreasing(InOrder(ids)) && |InOrder(ids)| == |ids|
    ensures forall x :: x in InOrder(ids) <==> x in ids
    decreases |ids|
  {
    if ids != {} {
      var m := Least(ids);
      InOrderSorts(ids - {m});
      var q, rest := InOrder(ids), InOrder(ids - {m});
      forall i, j | 0 <= i < j < |q| ensures q[i] < q[j] {
        assert q[j] == rest[j - 1] && rest[j - 1] in rest;
        assert i > 0 ==> q[i] == rest[i - 1];
      }
      forall x ensures x in q <==> x in ids {
        assert x in q <==> x == m || x in rest;
      }
    }
  }
}
