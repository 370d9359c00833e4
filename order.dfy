/**
 * The ordering that `sorted(...)` puts on model items.
 *
 * `Account` and `Room` items are compared by an ordering defined outside
 * this model; here it is an abstract strict total order `lt`, and
 * `Sorted` is the list `sorted` returns for a set of values.
 */
module Order {

  /** `lt` is irreflexive, transitive and relates any two distinct values. */
  ghost predicate StrictTotal<T(!new)>(lt: (T, T) -> bool) {
    && (forall x :: !lt(x, x))
    && (forall x, y, z :: lt(x, y) && lt(y, z) ==> lt(x, z))
    && (forall x, y :: x != y ==> lt(x, y) || lt(y, x))
  }

  /** Every element of `r` comes before every later element. */
  ghost predicate StrictlySorted<T>(r: seq<T>, lt: (T, T) -> bool) {
    forall i, j :: 0 <= i < j < |r| ==> lt(r[i], r[j])
  }

  /** `m` is the smallest element of `s`. */
  predicate IsLeast<T(==)>(m: T, s: set<T>, lt: (T, T) -> bool) {
    m in s && forall x :: x in s && x != m ==> lt(m, x)
  }

  /** A non-empty finite set has a least element. */
  lemma {:induction false} LeastExists<T(!new)>(s: set<T>, lt: (T, T) -> bool)
    requires StrictTotal(lt)
    requires s != {}
    ensures exists m :: IsLeast(m, s, lt)
    decreases s
  {
    var y :| y in s;
    if s == {y} {
      assert IsLeast(y, s, lt);
    } else {
      LeastExists(s - {y}, lt);
      var m :| IsLeast(m, s - {y}, lt);
      if lt(m, y) {
        assert IsLeast(m, s, lt);
      } else {
        assert IsLeast(y, s, lt);
      }
    }
  }

  /** The elements of `s`, smallest first: what `sorted` returns. */
  function Sorted<T(==, !new)>(s: set<T>, lt: (T, T) -> bool): (r: seq<T>)
    requires StrictTotal(lt)
    ensures |r| == |s|
    decreases s
  {
    if s == {} then []
    else
      var m := Least(s, lt);
      [m] + Sorted(s - {m}, lt)
  }

  /** The least element of a non-empty set. */
  function Least<T(==, !new)>(s: set<T>, lt: (T, T) -> bool): (m: T)
    requires StrictTotal(lt)
    requires s != {}
    ensures m in s
  {
    LeastExists(s, lt);
    var m :| IsLeast(m, s, lt); m
  }

  lemma LeastIsLeast<T(!new)>(s: set<T>, lt: (T, T) -> bool)
    requires StrictTotal(lt)
    requires s != {}
    ensures IsLeast(Least(s, lt), s, lt)
  {
  }

  /** `Sorted(s)` lists every element of `s` once, in increasing order. */
  lemma SortedSpec<T(!new)>(s: set<T>, lt: (T, T) -> bool)
    requires StrictTotal(lt)
    ensures forall x :: x in Sorted(s, lt) <==> x in s
    ensures StrictlySorted(Sorted(s, lt), lt)
  {
    SortedMembers(s, lt);
    SortedOrdered(s, lt);
  }

  /** `Sorted(s)` holds exactly the elements of `s`. */
  lemma {:induction false} SortedMembers<T(!new)>(s: set<T>, lt: (T, T) -> bool)
    requires StrictTotal(lt)
    ensures forall x :: x in Sorted(s, lt) <==> x in s
    decreases s
  {
    if s != {} {
      var m := Least(s, lt);
      SortedMembers(s - {m}, lt);
      assert Sorted(s, lt) == [m] + Sorted(s - {m}, lt);
    }
  }

  /** Each element of `Sorted(s)` comes before the later ones. */
  lemma {:induction false} SortedOrdered<T(!new)>(s: set<T>, lt: (T, T) -> bool)
    requires StrictTotal(lt)
    ensures StrictlySorted(Sorted(s, lt), lt)
    decreases s
  {
    if s != {} {
      var m := Least(s, lt);
      var tail := Sorted(s - {m}, lt);
      assert Sorted(s, lt) == [m] + tail;
      SortedOrdered(s - {m}, lt);
      assert forall k :: 0 <= k < |tail| ==> lt(m, tail[k]) by {
        LeastIsLeast(s, lt);
        SortedMembers(s - {m}, lt);
        forall k | 0 <= k < |tail| ensures lt(m, tail[k]) {
          assert tail[k] in s - {m};
        }
      }
      ConsSorted(m, tail, lt);
    }
  }

  /** Putting an element that comes before all of `tail` in front keeps it sorted. */
  lemma ConsSorted<T>(m: T, tail: seq<T>, lt: (T, T) -> bool)
    requires StrictlySorted(tail, lt)
    requires forall k :: 0 <= k < |tail| ==> lt(m, tail[k])
    ensures StrictlySorted([m] + tail, lt)
  {
    var r := [m] + tail;
    forall i, j | 0 <= i < j < |r| ensures lt(r[i], r[j]) {
      assert r[j] == tail[j - 1];
      if i > 0 {
        assert r[i] == tail[i - 1];
      }
    }
  }

  /** A set has at most one least element. */
  lemma LeastUnique<T(!new)>(m1: T, m2: T, s: set<T>, lt: (T, T) -> bool)
    requires StrictTotal(lt)
    requires IsLeast(m1, s, lt) && IsLeast(m2, s, lt)
    ensures m1 == m2
  {
  }

  /** `Sorted` of a non-empty set starts with its least element. */
  lemma SortedCons<T(!new)>(s: set<T>, lt: (T, T) -> bool)
    requires StrictTotal(lt)
    requires s != {}
    ensures IsLeast(Sorted(s, lt)[0], s, lt)
    ensures Sorted(s, lt) == [Sorted(s, lt)[0]] + Sorted(s - {Sorted(s, lt)[0]}, lt)
  {
    LeastIsLeast(s, lt);
  }

  /** Dropping the head of a strictly sorted list of `s` leaves one of `s` without it. */
  lemma TailOfSorted<T(!new)>(r: seq<T>, s: set<T>, lt: (T, T) -> bool)
    requires StrictTotal(lt)
    requires StrictlySorted(r, lt)
    requires forall x :: x in r <==> x in s
    requires r != []
    ensures IsLeast(r[0], s, lt)
    ensures StrictlySorted(r[1..], lt)
    ensures forall x :: x in r[1..] <==> x in s - {r[0]}
  {
    forall x | x in s && x != r[0] ensures lt(r[0], x) {
      var i :| 0 <= i < |r| && r[i] == x;
    }
    forall x | x in r[1..] ensures x != r[0] {
      var i :| 0 <= i < |r[1..]| && r[1..][i] == x;
      assert lt(r[0], r[i + 1]);
    }
    forall x | x in s - {r[0]} ensures x in r[1..] {
      var i :| 0 <= i < |r| && r[i] == x;
      assert r[1..][i - 1] == x;
    }
  }

  /** A strictly sorted list of exactly the elements of `s` is `Sorted(s)`. */
  lemma {:induction false} SortedUnique<T(!new)>(r: seq<T>, s: set<T>, lt: (T, T) -> bool)
    requires StrictTotal(lt)
    requires StrictlySorted(r, lt)
    requires forall x :: x in r <==> x in s
    ensures r == Sorted(s, lt)
    decreases |r|
  {
    if r == [] {
      assert s == {} by {
        assert forall x :: x !in r;
      }
    } else {
      assert r[0] in s;
      TailOfSorted(r, s, lt);
      SortedCons(s, lt);
      LeastUnique(r[0], Sorted(s, lt)[0], s, lt);
      SortedUnique(r[1..], s - {r[0]}, lt);
      assert r == [r[0]] + r[1..];
    }
  }
}
