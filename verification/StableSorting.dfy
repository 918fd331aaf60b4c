/** Stable sorting by a total preorder (sort.SliceStable) and an exact account of
    which sequences sort to the same result. */
module StableSorting {
  import opened Seqs

  ghost predicate TotalPreorder<T(!new)>(le: (T, T) -> bool) {
    && (forall x, y :: le(x, y) || le(y, x))
    && (forall x, y, z :: le(x, y) && le(y, z) ==> le(x, z))
  }

  predicate Sorted<T>(s: seq<T>, le: (T, T) -> bool) {
    forall i, j :: 0 <= i < j < |s| ==> le(s[i], s[j])
  }

  predicate Same<T>(le: (T, T) -> bool, x: T, y: T) {
    le(x, y) && le(y, x)
  }

  /** Places `x` after every element it does not precede. */
  function Insert<T>(s: seq<T>, x: T, le: (T, T) -> bool): (r: seq<T>)
    ensures |r| == |s| + 1
  {
    if s == [] || le(s[|s| - 1], x) then s + [x]
    else Insert(s[..|s| - 1], x, le) + [s[|s| - 1]]
  }

  function StableSort<T>(s: seq<T>, le: (T, T) -> bool): (r: seq<T>)
    ensures |r| == |s|
  {
    if s == [] then []
    else Insert(StableSort(s[..|s| - 1], le), s[|s| - 1], le)
  }

  lemma {:induction false} InsertBag<T>(s: seq<T>, x: T, le: (T, T) -> bool)
    ensures multiset(Insert(s, x, le)) == multiset(s) + multiset{x}
  {
    if s != [] && !le(s[|s| - 1], x) {
      InsertBag(s[..|s| - 1], x, le);
      assert s == s[..|s| - 1] + [s[|s| - 1]];
    }
  }

  /** Sorting permutes. */
  lemma {:induction false} SortBag<T>(s: seq<T>, le: (T, T) -> bool)
    ensures multiset(StableSort(s, le)) == multiset(s)
  {
    if s != [] {
      SortBag(s[..|s| - 1], le);
      InsertBag(StableSort(s[..|s| - 1], le), s[|s| - 1], le);
      assert s == s[..|s| - 1] + [s[|s| - 1]];
    }
  }

  lemma {:induction false} InsertSorts<T(!new)>(s: seq<T>, x: T, le: (T, T) -> bool)
    requires TotalPreorder(le) && Sorted(s, le)
    ensures Sorted(Insert(s, x, le), le)
  {
    if s != [] && !le(s[|s| - 1], x) {
      var front := s[..|s| - 1];
      InsertSorts(front, x, le);
      var r := Insert(front, x, le);
      InsertBag(front, x, le);
      forall i | 0 <= i < |r| ensures le(r[i], s[|s| - 1]) {
        assert r[i] in multiset(front) + multiset{x};
      }
    }
  }

  lemma {:induction false} SortSorts<T(!new)>(s: seq<T>, le: (T, T) -> bool)
    requires TotalPreorder(le)
    ensures Sorted(StableSort(s, le), le)
  {
    if s != [] {
      SortSorts(s[..|s| - 1], le);
      InsertSorts(StableSort(s[..|s| - 1], le), s[|s| - 1], le);
    }
  }

  /** The elements of `s` that tie with `c`, in order. */
  function Ties<T>(s: seq<T>, le: (T, T) -> bool, c: T): seq<T> {
    Filter(s, x => Same(le, x, c))
  }

  lemma TiesAppend<T>(s: seq<T>, x: T, le: (T, T) -> bool, c: T)
    ensures Ties(s + [x], le, c) == Ties(s, le, c) + (if Same(le, x, c) then [x] else [])
  {
    FilterAppend(s, x, y => Same(le, y, c));
  }

  lemma {:induction false} InsertKeepsTies<T(!new)>(s: seq<T>, x: T, le: (T, T) -> bool, c: T)
    requires TotalPreorder(le) && Sorted(s, le)
    ensures Ties(Insert(s, x, le), le, c) == Ties(s + [x], le, c)
  {
    TiesAppend(s, x, le, c);
    if s != [] && !le(s[|s| - 1], x) {
      var front, last := s[..|s| - 1], s[|s| - 1];
      InsertKeepsTies(front, x, le, c);
      TiesAppend(Insert(front, x, le), last, le, c);
      TiesAppend(front, x, le, c);
      assert !(Same(le, x, c) && Same(le, last, c));
    }
  }

  /** Stability: sorting never reorders elements that tie. */
  lemma {:induction false} SortKeepsTies<T(!new)>(s: seq<T>, le: (T, T) -> bool, c: T)
    requires TotalPreorder(le)
    ensures Ties(StableSort(s, le), le, c) == Ties(s, le, c)
  {
    if s != [] {
      var front, last := s[..|s| - 1], s[|s| - 1];
      SortKeepsTies(front, le, c);
      SortSorts(front, le);
      InsertKeepsTies(StableSort(front, le), last, le, c);
      TiesAppend(StableSort(front, le), last, le, c);
    }
  }

  lemma SameMembers<T(!new)>(a: seq<T>, b: seq<T>, le: (T, T) -> bool)
    requires TotalPreorder(le) && forall c :: SameTies(a, b, le, c)
    ensures forall x :: x in a <==> x in b
  {
    forall x ensures x in a <==> x in b {
      assert SameTies(a, b, le, x);
      TiesMember(a, le, x);
      TiesMember(b, le, x);
    }
  }

  lemma LastIsGreatest<T(!new)>(s: seq<T>, le: (T, T) -> bool, x: T)
    requires TotalPreorder(le) && Sorted(s, le) && x in s
    ensures le(x, s[|s| - 1])
  {
    var i :| 0 <= i < |s| && s[i] == x;
    assert le(x, x);
  }

  /** Two sorted sequences with the same ties end in the same element, and have the same
      ties without it. */
  lemma PeelLast<T(!new)>(a: seq<T>, b: seq<T>, x: T, y: T, le: (T, T) -> bool, c: T)
    requires SameTies(a + [x], b + [y], le, x) && SameTies(a + [x], b + [y], le, c) && Same(le, x, x) && Same(le, y, x)
    ensures x == y && SameTies(a, b, le, c)
  {
    TiesAppend(a, x, le, x);
    TiesAppend(b, y, le, x);
    var s, t := Ties(a, le, x), Ties(b, le, x);
    assert x == (s + [x])[|s|] && y == (t + [y])[|t|];
    TiesAppend(a, x, le, c);
    TiesAppend(b, y, le, c);
    if Same(le, x, c) {
      DropLast(Ties(a, le, c), Ties(b, le, c), x);
    } else {
      assert Ties(a + [x], le, c) == Ties(a, le, c) && Ties(b + [y], le, c) == Ties(b, le, c);
    }
  }

  lemma DropLast<T>(s: seq<T>, t: seq<T>, x: T)
    ensures s + [x] == t + [x] ==> s == t
  {
    assert (s + [x])[..|s|] == s && (t + [x])[..|t|] == t;
  }

  lemma LastsTie<T(!new)>(a: seq<T>, b: seq<T>, le: (T, T) -> bool)
    requires TotalPreorder(le) && Sorted(a, le) && Sorted(b, le) && a != [] && b != []
    requires forall x :: x in a <==> x in b
    ensures Same(le, a[|a| - 1], a[|a| - 1]) && Same(le, b[|b| - 1], a[|a| - 1])
  {
    var x, y := a[|a| - 1], b[|b| - 1];
    assert x in a && y in b;
    LastIsGreatest(a, le, y);
    LastIsGreatest(b, le, x);
    LastIsGreatest(a, le, x);
  }

  lemma PeelAll<T(!new)>(a: seq<T>, b: seq<T>, x: T, y: T, le: (T, T) -> bool)
    requires (forall c :: SameTies(a + [x], b + [y], le, c)) && Same(le, x, x) && Same(le, y, x)
    ensures x == y && forall c :: SameTies(a, b, le, c)
  {
    assert SameTies(a + [x], b + [y], le, x);
    PeelLast(a, b, x, y, le, x);
    forall c ensures SameTies(a, b, le, c) {
      assert SameTies(a + [x], b + [y], le, c);
      PeelLast(a, b, x, y, le, c);
    }
  }

  /** A sorted sequence is determined by its groups of ties. */
  lemma {:induction false} SortedUnique<T(!new)>(a: seq<T>, b: seq<T>, le: (T, T) -> bool)
    requires TotalPreorder(le) && Sorted(a, le) && Sorted(b, le)
    requires forall c :: SameTies(a, b, le, c)
    ensures a == b
  {
    SameMembers(a, b, le);
    assert a != [] ==> a[0] in a;
    assert b != [] ==> b[0] in b;
    if a != [] && b != [] {
      var m, n := |a| - 1, |b| - 1;
      assert a == a[..m] + [a[m]] && b == b[..n] + [b[n]];
      LastsTie(a, b, le);
      PeelAll(a[..m], b[..n], a[m], b[n], le);
      SortedUnique(a[..m], b[..n], le);
    }
  }

  ghost predicate SameTies<T>(a: seq<T>, b: seq<T>, le: (T, T) -> bool, c: T) {
    Ties(a, le, c) == Ties(b, le, c)
  }

  lemma TiesMember<T(!new)>(s: seq<T>, le: (T, T) -> bool, x: T)
    requires TotalPreorder(le)
    ensures x in Ties(s, le, x) <==> x in s
  {
    FilterMember(s, z => Same(le, z, x), x);
  }

  /** Two sequences sort to the same result exactly when every group of ties
      reads the same, in order, in both. */
  lemma SameSortIffSameTies<T(!new)>(s: seq<T>, t: seq<T>, le: (T, T) -> bool)
    requires TotalPreorder(le)
    ensures StableSort(s, le) == StableSort(t, le) <==> forall c :: SameTies(s, t, le, c)
  {
    SortSorts(s, le);
    SortSorts(t, le);
    forall c ensures Ties(StableSort(s, le), le, c) == Ties(s, le, c)
                  && Ties(StableSort(t, le), le, c) == Ties(t, le, c) {
      SortKeepsTies(s, le, c);
      SortKeepsTies(t, le, c);
    }
    if forall c :: SameTies(s, t, le, c) {
      forall c ensures SameTies(StableSort(s, le), StableSort(t, le), le, c) {
        assert SameTies(s, t, le, c);
      }
      SortedUnique(StableSort(s, le), StableSort(t, le), le);
    }
  }

  /** Ties are indistinguishable within `s`. */
  ghost predicate TiesEqual<T>(s: seq<T>, le: (T, T) -> bool) {
    forall x, y :: x in s && y in s && Same(le, x, y) ==> x == y
  }

  lemma {:induction false} TiesOfBag<T(!new)>(s: seq<T>, le: (T, T) -> bool, c: T, x: T)
    requires TotalPreorder(le) && Same(le, x, c)
    requires forall y :: y in s && Same(le, y, c) ==> y == x
    ensures Ties(s, le, c) == seq(multiset(s)[x], _ => x)
  {
    if s != [] {
      var n := |s| - 1;
      assert s == s[..n] + [s[n]];
      TiesOfBag(s[..n], le, c, x);
    }
  }

  lemma PermutationKeepsTies<T(!new)>(s: seq<T>, t: seq<T>, le: (T, T) -> bool)
    requires TotalPreorder(le) && TiesEqual(s, le) && multiset(s) == multiset(t)
    ensures StableSort(s, le) == StableSort(t, le)
  {
    assert forall x :: x in s <==> x in multiset(s);
    assert forall x :: x in t <==> x in multiset(t);
    forall c ensures SameTies(s, t, le, c) {
      if x :| x in s && Same(le, x, c) {
        TiesOfBag(s, le, c, x);
        TiesOfBag(t, le, c, x);
      } else {
        FilterNone(s, y => Same(le, y, c));
        FilterNone(t, y => Same(le, y, c));
      }
    }
    SameSortIffSameTies(s, t, le);
  }

  function ToFront<T>(s: seq<T>, i: nat): (r: seq<T>)
    requires i < |s|
    ensures multiset(r) == multiset(s)
  {
    assert s == s[..i] + [s[i]] + s[i + 1..];
    [s[i]] + (s[..i] + s[i + 1..])
  }

  lemma {:induction false} FirstTie<T(!new)>(x: T, s: seq<T>, le: (T, T) -> bool)
    requires TotalPreorder(le)
    ensures Ties([x] + s, le, x) != [] && Ties([x] + s, le, x)[0] == x
  {
    if s == [] {
      assert [x] + s == [x] && [x][..0] == [];
    } else {
      var n := |s| - 1;
      FirstTie(x, s[..n], le);
      assert ([x] + s)[..n + 1] == [x] + s[..n];
    }
  }

  /** Mapping by a function the order does not see through commutes with sorting. */
  lemma {:induction false} SortMap<T>(s: seq<T>, f: T -> T, le: (T, T) -> bool)
    requires forall x, y :: x in s && y in s ==> le(f(x), f(y)) == le(x, y)
    ensures StableSort(Map(s, f), le) == Map(StableSort(s, le), f)
  {
    if s != [] {
      var n := |s| - 1;
      SortMap(s[..n], f, le);
      assert Map(s, f)[..n] == Map(s[..n], f);
      var sorted := StableSort(s[..n], le);
      SortBag(s[..n], le);
      forall x | x in sorted ensures x in s {
        assert x in multiset(s[..n]);
      }
      InsertMap(sorted, s[n], f, le);
    }
  }

  lemma {:induction false} InsertMap<T>(s: seq<T>, x: T, f: T -> T, le: (T, T) -> bool)
    requires forall y :: y in s ==> le(f(y), f(x)) == le(y, x)
    ensures Insert(Map(s, f), f(x), le) == Map(Insert(s, x, le), f)
  {
    if s != [] && !le(s[|s| - 1], x) {
      var n := |s| - 1;
      InsertMap(s[..n], x, f, le);
      assert Map(s, f)[..n] == Map(s[..n], f);
    }
  }
}
