/**
 `StableSort` stands for Go's `sort.SliceStable`: the result is ordered, and elements
 that compare equal keep their order. `StableSortUnique` shows that these two facts
 determine the result, so nothing below depends on how the sort is computed.
 */
module Sorting {

  ghost predicate StrictWeak<T(!new)>(less: (T, T) -> bool) {
    && (forall x, y :: less(x, y) ==> !less(y, x))
    && (forall x, y, z :: less(x, z) ==> less(x, y) || less(y, z))
  }

  ghost predicate Ordered<T>(s: seq<T>, less: (T, T) -> bool) {
    forall i, j :: 0 <= i < j < |s| ==> !less(s[j], s[i])
  }

  predicate Tied<T>(x: T, y: T, less: (T, T) -> bool) {
    !less(x, y) && !less(y, x)
  }

  /** The elements of `s` tied with `z`, in the order they have in `s`. */
  function Ties<T>(s: seq<T>, z: T, less: (T, T) -> bool): seq<T> {
    if s == [] then []
    else Ties(s[..|s| - 1], z, less) + (if Tied(s[|s| - 1], z, less) then [s[|s| - 1]] else [])
  }

  /** `r` is a stable rearrangement of `s`: every group of tied elements is kept as it was. */
  ghost predicate Stable<T(!new)>(r: seq<T>, s: seq<T>, less: (T, T) -> bool) {
    forall z :: Ties(r, z, less) == Ties(s, z, less)
  }

  /** Inserts `x` behind every element that `x` does not precede. */
  function Insert<T>(s: seq<T>, x: T, less: (T, T) -> bool): (r: seq<T>)
    ensures |r| == |s| + 1
  {
    if s == [] || !less(x, s[|s| - 1]) then s + [x]
    else Insert(s[..|s| - 1], x, less) + [s[|s| - 1]]
  }

  function StableSort<T>(s: seq<T>, less: (T, T) -> bool): (r: seq<T>)
    ensures |r| == |s|
  {
    if s == [] then [] else Insert(StableSort(s[..|s| - 1], less), s[|s| - 1], less)
  }

  lemma {:induction false} InsertMultiset<T>(s: seq<T>, x: T, less: (T, T) -> bool)
    ensures multiset(Insert(s, x, less)) == multiset(s) + multiset{x}
  {
    if s != [] && less(x, s[|s| - 1]) {
      InsertMultiset(s[..|s| - 1], x, less);
      assert s == s[..|s| - 1] + [s[|s| - 1]];
    }
  }

  lemma {:induction false} StableSortMultiset<T>(s: seq<T>, less: (T, T) -> bool)
    ensures multiset(StableSort(s, less)) == multiset(s)
  {
    if s != [] {
      StableSortMultiset(s[..|s| - 1], less);
      InsertMultiset(StableSort(s[..|s| - 1], less), s[|s| - 1], less);
      assert s == s[..|s| - 1] + [s[|s| - 1]];
    }
  }

  /** Membership form of `StableSortMultiset`. */
  lemma StableSortMembers<T>(s: seq<T>, less: (T, T) -> bool)
    ensures forall x :: x in StableSort(s, less) <==> x in s
  {
    StableSortMultiset(s, less);
    forall x ensures x in StableSort(s, less) <==> x in s {
      assert x in multiset(StableSort(s, less)) <==> x in multiset(s);
    }
  }

  lemma {:induction false} InsertOrdered<T(!new)>(s: seq<T>, x: T, less: (T, T) -> bool)
    requires StrictWeak(less) && Ordered(s, less)
    ensures Ordered(Insert(s, x, less), less)
  {
    var r := Insert(s, x, less);
    if s != [] {
      var front, last := s[..|s| - 1], s[|s| - 1];
      if less(x, last) {
        InsertOrdered(front, x, less);
        InsertMultiset(front, x, less);
        var g := Insert(front, x, less);
        forall i | 0 <= i < |g| ensures !less(last, g[i]) {
          assert g[i] in multiset(front) + multiset{x};
          if g[i] != x {
            assert g[i] in front;
          }
        }
      } else {
        forall i | 0 <= i < |s| ensures !less(x, s[i]) {
          assert i < |s| - 1 ==> !less(last, s[i]);
        }
      }
    }
  }

  lemma {:induction false} StableSortOrdered<T(!new)>(s: seq<T>, less: (T, T) -> bool)
    requires StrictWeak(less)
    ensures Ordered(StableSort(s, less), less)
  {
    if s != [] {
      StableSortOrdered(s[..|s| - 1], less);
      InsertOrdered(StableSort(s[..|s| - 1], less), s[|s| - 1], less);
    }
  }

  lemma InsertTies<T(!new)>(s: seq<T>, x: T, z: T, less: (T, T) -> bool)
    requires StrictWeak(less)
    ensures Ties(Insert(s, x, less), z, less) == Ties(s, z, less) + (if Tied(x, z, less) then [x] else [])
  {
    var r := Insert(s, x, less);
    if s == [] || !less(x, s[|s| - 1]) {
      assert r[..|r| - 1] == s;
    } else {
      var front, last := s[..|s| - 1], s[|s| - 1];
      InsertTies(front, x, z, less);
      assert r[..|r| - 1] == Insert(front, x, less);
      assert less(x, last) ==> less(x, z) || less(z, last);
    }
  }

  lemma {:induction false} StableSortStable<T(!new)>(s: seq<T>, less: (T, T) -> bool)
    requires StrictWeak(less)
    ensures Stable(StableSort(s, less), s, less)
  {
    forall z ensures Ties(StableSort(s, less), z, less) == Ties(s, z, less) {
      if s != [] {
        StableSortStable(s[..|s| - 1], less);
        InsertTies(StableSort(s[..|s| - 1], less), s[|s| - 1], z, less);
      }
    }
  }

  lemma {:induction false} TiesMember<T(!new)>(s: seq<T>, z: T, less: (T, T) -> bool)
    requires StrictWeak(less)
    ensures forall x :: x in Ties(s, z, less) <==> x in s && Tied(x, z, less)
  {
    if s != [] {
      TiesMember(s[..|s| - 1], z, less);
      assert s == s[..|s| - 1] + [s[|s| - 1]];
    }
  }

  /** The group of `z` begins with its first member. */
  lemma {:induction false} TiesBegin<T>(s: seq<T>, z: T, less: (T, T) -> bool, i: nat)
    requires i < |s| && Tied(s[i], z, less) && forall j :: 0 <= j < i ==> !Tied(s[j], z, less)
    ensures Ties(s, z, less) != [] && Ties(s, z, less)[0] == s[i]
  {
    if i < |s| - 1 {
      TiesBegin(s[..|s| - 1], z, less, i);
    } else {
      NoTies(s[..|s| - 1], z, less);
    }
  }

  lemma {:induction false} NoTies<T>(s: seq<T>, z: T, less: (T, T) -> bool)
    requires forall j :: 0 <= j < |s| ==> !Tied(s[j], z, less)
    ensures Ties(s, z, less) == []
  {
    if s != [] {
      NoTies(s[..|s| - 1], z, less);
    }
  }

  /** Of two ordered sequences with the same groups of ties, one is as empty as the other, and they end alike. */
  lemma SameLast<T(!new)>(r: seq<T>, s: seq<T>, less: (T, T) -> bool)
    requires StrictWeak(less) && Ordered(r, less) && Ordered(s, less) && Stable(r, s, less) && r != []
    ensures s != [] && s[|s| - 1] == r[|r| - 1]
  {
    var x := r[|r| - 1];
    TiesMember(r, x, less);
    TiesMember(s, x, less);
    assert x in Ties(r, x, less);
    assert Ties(r, x, less) == Ties(s, x, less);
    var y := s[|s| - 1];
    TiesMember(r, y, less);
    TiesMember(s, y, less);
    assert y in Ties(s, y, less);
    assert Ties(r, y, less) == Ties(s, y, less);
    assert Tied(x, y, less);
    assert Ties(r, x, less)[|Ties(r, x, less)| - 1] == x;
    assert Ties(s, x, less)[|Ties(s, x, less)| - 1] == y;
  }

  /** Two ordered sequences with the same groups of ties are equal. */
  lemma {:induction false} StableSortUnique<T(!new)>(r: seq<T>, s: seq<T>, less: (T, T) -> bool)
    requires StrictWeak(less) && Ordered(r, less) && Ordered(s, less) && Stable(r, s, less)
    ensures r == s
    decreases |r|
  {
    if s != [] {
      assert Stable(s, r, less) by {
        assert forall z :: Ties(r, z, less) == Ties(s, z, less);
      }
      SameLast(s, r, less);
    }
    if r != [] {
      SameLast(r, s, less);
      var x := r[|r| - 1];
      var front, front' := r[..|r| - 1], s[..|s| - 1];
      forall z ensures Ties(front, z, less) == Ties(front', z, less) {
        assert Ties(r, z, less) == Ties(s, z, less);
        if Tied(x, z, less) {
          assert Ties(front, z, less) == Ties(r, z, less)[..|Ties(r, z, less)| - 1];
          assert Ties(front', z, less) == Ties(s, z, less)[..|Ties(s, z, less)| - 1];
        } else {
          assert Ties(front, z, less) == Ties(r, z, less) && Ties(front', z, less) == Ties(s, z, less);
        }
      }
      StableSortUnique(front, front', less);
      assert r == front + [x] && s == front' + [x];
    }
  }

  /** Sorting leaves an ordered sequence as it is. */
  lemma {:induction false} StableSortFixed<T>(s: seq<T>, less: (T, T) -> bool)
    requires Ordered(s, less)
    ensures StableSort(s, less) == s
  {
    if s != [] {
      StableSortFixed(s[..|s| - 1], less);
      assert s == s[..|s| - 1] + [s[|s| - 1]];
    }
  }

  /** An element that precedes everything is inserted in front. */
  lemma {:induction false} InsertFront<T>(s: seq<T>, x: T, less: (T, T) -> bool)
    requires forall i :: 0 <= i < |s| ==> less(x, s[i])
    ensures Insert(s, x, less) == [x] + s
  {
    if s != [] {
      var front := s[..|s| - 1];
      assert forall i :: 0 <= i < |front| ==> front[i] == s[i];
      InsertFront(front, x, less);
      assert [x] + front + [s[|s| - 1]] == [x] + s;
    }
  }

  /** An element that does not precede the first is inserted behind it. */
  lemma {:induction false} InsertBehindFirst<T>(h: T, s: seq<T>, x: T, less: (T, T) -> bool)
    requires !less(x, h)
    ensures Insert([h] + s, x, less) == [h] + Insert(s, x, less)
  {
    if s == [] {
      assert [h] + s == [h];
    } else {
      assert ([h] + s)[..|s|] == [h] + s[..|s| - 1];
      if less(x, s[|s| - 1]) {
        InsertBehindFirst(h, s[..|s| - 1], x, less);
      }
    }
  }

  /** Two comparisons that agree on `x` against the elements of `s` insert it alike. */
  lemma {:induction false} InsertAgrees<T>(s: seq<T>, x: T, f: (T, T) -> bool, g: (T, T) -> bool)
    requires forall i :: 0 <= i < |s| ==> f(x, s[i]) == g(x, s[i])
    ensures Insert(s, x, f) == Insert(s, x, g)
  {
    if s != [] {
      InsertAgrees(s[..|s| - 1], x, f, g);
    }
  }
}
