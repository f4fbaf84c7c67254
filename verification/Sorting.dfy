/** Stable sorting, specified so that the result is unique. */
module Sorting {

  /** The leading n elements, or all there are. */
  function Take<T>(xs: seq<T>, n: nat): seq<T> { if |xs| <= n then xs else xs[..n] }

  ghost predicate StrictWeak<T(!new)>(less: (T, T) -> bool) {
    && (forall x :: !less(x, x))
    && (forall x, y, z :: less(x, y) && less(y, z) ==> less(x, z))
    && (forall x, y, z :: !less(x, y) && !less(y, z) ==> !less(x, z))
  }

  predicate Tied<T>(x: T, y: T, less: (T, T) -> bool) { !less(x, y) && !less(y, x) }

  ghost predicate Sorted<T>(xs: seq<T>, less: (T, T) -> bool) {
    forall i, j | 0 <= i < j < |xs| :: !less(xs[j], xs[i])
  }

  /** The elements of xs that tie with v, in order. */
  function Ties<T>(xs: seq<T>, v: T, less: (T, T) -> bool): seq<T> {
    if xs == [] then []
    else (if Tied(xs[0], v, less) then [xs[0]] else []) + Ties(xs[1..], v, less)
  }

  /** ys is xs sorted, with ties left in the order they had. */
  ghost predicate IsStableSort<T(!new)>(ys: seq<T>, xs: seq<T>, less: (T, T) -> bool) {
    Sorted(ys, less) && forall v :: Ties(ys, v, less) == Ties(xs, v, less)
  }

  function Insert<T>(x: T, ys: seq<T>, less: (T, T) -> bool): seq<T> {
    if ys == [] || !less(ys[0], x) then [x] + ys else [ys[0]] + Insert(x, ys[1..], less)
  }

  /** A stable sort: every element goes in front of the first one not smaller than it. */
  function StableSort<T>(xs: seq<T>, less: (T, T) -> bool): seq<T> {
    if xs == [] then [] else Insert(xs[0], StableSort(xs[1..], less), less)
  }

  lemma {:induction false} InsertKeepsSorted<T(!new)>(x: T, ys: seq<T>, less: (T, T) -> bool)
    requires StrictWeak(less) && Sorted(ys, less)
    ensures Sorted(Insert(x, ys, less), less)
    ensures |Insert(x, ys, less)| == |ys| + 1
    ensures forall k | 0 <= k <= |ys| :: Insert(x, ys, less)[k] == x || Insert(x, ys, less)[k] in ys
  {
    if ys == [] || !less(ys[0], x) {
      forall j | 0 <= j < |ys| ensures !less(ys[j], x) {
        if j > 0 { assert !less(ys[j], ys[0]); }
      }
    } else {
      InsertKeepsSorted(x, ys[1..], less);
      var rest := Insert(x, ys[1..], less);
      forall k | 0 <= k < |rest| ensures !less(rest[k], ys[0]) {
        if rest[k] != x {
          var m :| 0 <= m < |ys[1..]| && ys[1..][m] == rest[k];
          assert ys[m + 1] == rest[k];
        }
      }
    }
  }

  lemma TiesOfCons<T>(x: T, ys: seq<T>, v: T, less: (T, T) -> bool)
    ensures Ties([x] + ys, v, less) == (if Tied(x, v, less) then [x] else []) + Ties(ys, v, less)
  {
    assert ([x] + ys)[1..] == ys;
  }

  lemma OnlyOneTies<T(!new)>(x: T, y: T, v: T, less: (T, T) -> bool)
    requires StrictWeak(less) && less(x, y)
    ensures !(Tied(x, v, less) && Tied(y, v, less))
  {}

  lemma {:induction false} InsertTies<T(!new)>(x: T, ys: seq<T>, v: T, less: (T, T) -> bool)
    requires StrictWeak(less)
    ensures Ties(Insert(x, ys, less), v, less) == (if Tied(x, v, less) then [x] else []) + Ties(ys, v, less)
  {
    if ys == [] || !less(ys[0], x) {
      TiesOfCons(x, ys, v, less);
    } else {
      InsertTies(x, ys[1..], v, less);
      TiesOfCons(ys[0], Insert(x, ys[1..], less), v, less);
      OnlyOneTies(ys[0], x, v, less);
    }
  }

  lemma {:induction false} StableSortIsStable<T(!new)>(xs: seq<T>, less: (T, T) -> bool)
    requires StrictWeak(less)
    ensures IsStableSort(StableSort(xs, less), xs, less)
    ensures |StableSort(xs, less)| == |xs|
  {
    if xs != [] {
      StableSortIsStable(xs[1..], less);
      InsertKeepsSorted(xs[0], StableSort(xs[1..], less), less);
      forall v ensures Ties(StableSort(xs, less), v, less) == Ties(xs, v, less) {
        InsertTies(xs[0], StableSort(xs[1..], less), v, less);
      }
    }
  }

  lemma {:induction false} TiesAreMembers<T>(xs: seq<T>, v: T, less: (T, T) -> bool)
    ensures forall k | 0 <= k < |Ties(xs, v, less)| :: Ties(xs, v, less)[k] in xs && Tied(Ties(xs, v, less)[k], v, less)
    ensures v in xs && !less(v, v) ==> v in Ties(xs, v, less)
  {
    if xs != [] {
      TiesAreMembers(xs[1..], v, less);
      if v in xs && v != xs[0] { assert v in xs[1..]; }
    }
  }

  lemma HeadIsAmongTies<T(!new)>(ys: seq<T>, zs: seq<T>, less: (T, T) -> bool)
    requires StrictWeak(less) && Sorted(zs, less) && ys != [] && zs != []
    requires forall v :: Ties(ys, v, less) == Ties(zs, v, less)
    ensures !less(ys[0], zs[0])
  {
    TiesAreMembers(ys, ys[0], less);
    TiesAreMembers(zs, ys[0], less);
    var k :| 0 <= k < |Ties(zs, ys[0], less)| && Ties(zs, ys[0], less)[k] == ys[0];
    assert ys[0] in zs;
  }

  /** There is only one stable sort: sorted lists whose ties agree are equal. */
  lemma {:induction false} SortedIsUnique<T(!new)>(ys: seq<T>, zs: seq<T>, less: (T, T) -> bool)
    requires StrictWeak(less) && Sorted(ys, less) && Sorted(zs, less)
    requires forall v :: Ties(ys, v, less) == Ties(zs, v, less)
    ensures ys == zs
  {
    if ys == [] && zs != [] {
      TiesAreMembers(zs, zs[0], less);
    } else if ys != [] && zs == [] {
      TiesAreMembers(ys, ys[0], less);
    } else if ys != [] {
      HeadIsAmongTies(ys, zs, less);
      HeadIsAmongTies(zs, ys, less);
      assert Tied(ys[0], zs[0], less);
      assert Ties(ys, ys[0], less)[0] == ys[0] && Ties(zs, ys[0], less)[0] == zs[0];
      forall v ensures Ties(ys[1..], v, less) == Ties(zs[1..], v, less) {
        assert Ties(ys, v, less) == Ties(zs, v, less);
        var head := if Tied(ys[0], v, less) then [ys[0]] else [];
        assert Ties(ys, v, less) == head + Ties(ys[1..], v, less);
        assert Ties(zs, v, less) == head + Ties(zs[1..], v, less);
        assert Ties(ys[1..], v, less) == Ties(ys, v, less)[|head|..];
        assert Ties(zs[1..], v, less) == Ties(zs, v, less)[|head|..];
      }
      SortedIsUnique(ys[1..], zs[1..], less);
      assert ys == [ys[0]] + ys[1..] && zs == [zs[0]] + zs[1..];
    }
  }

  /** Sorting depends on its input only through the order of ties. */
  lemma SameTiesSameSort<T(!new)>(xs: seq<T>, ws: seq<T>, less: (T, T) -> bool)
    requires StrictWeak(less)
    requires forall v :: Ties(xs, v, less) == Ties(ws, v, less)
    ensures StableSort(xs, less) == StableSort(ws, less)
  {
    StableSortIsStable(xs, less);
    StableSortIsStable(ws, less);
    SortedIsUnique(StableSort(xs, less), StableSort(ws, less), less);
  }

  lemma {:induction false} InsertMembers<T>(x: T, ys: seq<T>, less: (T, T) -> bool)
    ensures |Insert(x, ys, less)| == |ys| + 1
    ensures forall y :: y in Insert(x, ys, less) <==> y == x || y in ys
  {
    if ys != [] && less(ys[0], x) {
      InsertMembers(x, ys[1..], less);
      assert ys == [ys[0]] + ys[1..];
    }
  }

  lemma {:induction false} SortKeepsMembers<T>(xs: seq<T>, less: (T, T) -> bool)
    ensures |StableSort(xs, less)| == |xs|
    ensures forall x :: x in StableSort(xs, less) <==> x in xs
  {
    if xs != [] {
      SortKeepsMembers(xs[1..], less);
      InsertMembers(xs[0], StableSort(xs[1..], less), less);
      assert xs == [xs[0]] + xs[1..];
    }
  }

  /** How often x stands in xs. */
  function Occurrences<T(==)>(xs: seq<T>, x: T): nat {
    if xs == [] then 0 else (if xs[0] == x then 1 else 0) + Occurrences(xs[1..], x)
  }

  lemma {:induction false} OccurrencesConcat<T>(a: seq<T>, b: seq<T>, x: T)
    ensures Occurrences(a + b, x) == Occurrences(a, x) + Occurrences(b, x)
  {
    if a == [] {
      assert a + b == b;
    } else {
      OccurrencesConcat(a[1..], b, x);
      assert (a + b)[1..] == a[1..] + b;
    }
  }

  lemma {:induction false} InsertOccurrences<T>(x: T, ys: seq<T>, less: (T, T) -> bool, v: T)
    ensures Occurrences(Insert(x, ys, less), v) == Occurrences(ys, v) + if x == v then 1 else 0
  {
    if ys == [] || !less(ys[0], x) {
      assert ([x] + ys)[1..] == ys;
    } else {
      InsertOccurrences(x, ys[1..], less, v);
      assert ([ys[0]] + Insert(x, ys[1..], less))[1..] == Insert(x, ys[1..], less);
    }
  }

  /** Sorting loses and adds nothing. */
  lemma {:induction false} SortKeepsOccurrences<T>(xs: seq<T>, less: (T, T) -> bool, v: T)
    ensures Occurrences(StableSort(xs, less), v) == Occurrences(xs, v)
  {
    if xs != [] {
      SortKeepsOccurrences(xs[1..], less, v);
      InsertOccurrences(xs[0], StableSort(xs[1..], less), less, v);
    }
  }

  lemma Associate<T>(a: seq<T>, b: seq<T>, c: seq<T>)
    ensures a + (b + c) == (a + b) + c
  {
  }

  lemma {:induction false} TiesConcat<T>(a: seq<T>, b: seq<T>, v: T, less: (T, T) -> bool)
    ensures Ties(a + b, v, less) == Ties(a, v, less) + Ties(b, v, less)
  {
    if a == [] {
      assert a + b == b;
    } else {
      TiesConcat(a[1..], b, v, less);
      assert a + b == [a[0]] + (a[1..] + b) && a == [a[0]] + a[1..];
      TiesOfCons(a[0], a[1..] + b, v, less);
      TiesOfCons(a[0], a[1..], v, less);
      Associate(if Tied(a[0], v, less) then [a[0]] else [], Ties(a[1..], v, less), Ties(b, v, less));
    }
  }

  lemma {:induction false} NoTies<T>(xs: seq<T>, v: T, less: (T, T) -> bool)
    requires forall x | x in xs :: !Tied(x, v, less)
    ensures Ties(xs, v, less) == []
  {
    if xs != [] { NoTies(xs[1..], v, less); }
  }

  /** x put between the elements not above it and those above it. */
  ghost predicate FitsAt<T>(ys: seq<T>, x: T, j: nat, less: (T, T) -> bool) {
    j <= |ys| && (j > 0 ==> !less(x, ys[j - 1])) && forall k | j <= k < |ys| :: less(x, ys[k])
  }

  lemma FittedIsSorted<T(!new)>(ys: seq<T>, x: T, j: nat, less: (T, T) -> bool)
    requires StrictWeak(less) && Sorted(ys, less) && FitsAt(ys, x, j, less)
    ensures Sorted(ys[..j] + [x] + ys[j..], less)
  {
    forall k | 0 <= k < j ensures !less(x, ys[k]) {
      if k < j - 1 { assert !less(ys[j - 1], ys[k]); }
    }
    forall k | j <= k < |ys| ensures !less(ys[k], x) {
      assert less(x, ys[k]);
    }
  }

  lemma FittedTies<T(!new)>(ys: seq<T>, x: T, j: nat, v: T, less: (T, T) -> bool)
    requires StrictWeak(less) && FitsAt(ys, x, j, less)
    ensures Ties(ys[..j] + [x] + ys[j..], v, less) == Ties(ys, v, less) + Ties([x], v, less)
  {
    TiesConcat(ys[..j] + [x], ys[j..], v, less);
    TiesConcat(ys[..j], [x], v, less);
    TiesConcat(ys[..j], ys[j..], v, less);
    assert ys[..j] + ys[j..] == ys;
    if Tied(x, v, less) {
      forall y | y in ys[j..] ensures !Tied(y, v, less) {
        var k :| 0 <= k < |ys[j..]| && ys[j..][k] == y;
        assert less(x, ys[j + k]);
        OnlyOneTies(x, y, v, less);
      }
      NoTies(ys[j..], v, less);
    } else {
      assert Ties([x], v, less) == [];
    }
  }

  /** Fitting the next element into a stable sort sorts one element more. */
  lemma FittedIsStable<T(!new)>(ys: seq<T>, xs: seq<T>, x: T, j: nat, less: (T, T) -> bool)
    requires StrictWeak(less) && ys == StableSort(xs, less) && FitsAt(ys, x, j, less)
    ensures ys[..j] + [x] + ys[j..] == StableSort(xs + [x], less)
  {
    StableSortIsStable(xs, less);
    StableSortIsStable(xs + [x], less);
    FittedIsSorted(ys, x, j, less);
    forall v ensures Ties(ys[..j] + [x] + ys[j..], v, less) == Ties(StableSort(xs + [x], less), v, less) {
      FittedTies(ys, x, j, v, less);
      TiesConcat(xs, [x], v, less);
    }
    SortedIsUnique(ys[..j] + [x] + ys[j..], StableSort(xs + [x], less), less);
  }

  ghost predicate NoRepeats<T>(xs: seq<T>) { forall i, j | 0 <= i < j < |xs| :: xs[i] != xs[j] }

  lemma HeadIsMember<T>(ys: seq<T>)
    requires ys != []
    ensures ys[0] in ys
  {
  }

  lemma HeadIsLeast<T>(ys: seq<T>, x: T, less: (T, T) -> bool)
    requires Sorted(ys, less) && x in ys
    ensures x == ys[0] || !less(x, ys[0])
  {
  }

  lemma TailMembers<T>(ys: seq<T>, x: T)
    requires NoRepeats(ys) && ys != []
    ensures x in ys[1..] <==> x in ys && x != ys[0]
  {
    assert ys == [ys[0]] + ys[1..];
  }

  /** Where ties are equal, a set of elements has only one sorted listing, so however an unstable
      sort moves ties the result is the same. */
  lemma {:induction false} SortedListingIsUnique<T(!new)>(ys: seq<T>, zs: seq<T>, less: (T, T) -> bool)
    requires Sorted(ys, less) && Sorted(zs, less) && NoRepeats(ys) && NoRepeats(zs)
    requires forall x :: x in ys <==> x in zs
    requires forall x, y | x in ys && y in ys && Tied(x, y, less) :: x == y
    ensures ys == zs
  {
    if ys == [] {
      if zs != [] { HeadIsMember(zs); }
    } else if zs == [] {
      HeadIsMember(ys);
    } else {
      HeadIsLeast(ys, zs[0], less);
      HeadIsLeast(zs, ys[0], less);
      forall x ensures x in ys[1..] <==> x in zs[1..] {
        TailMembers(ys, x);
        TailMembers(zs, x);
      }
      SortedListingIsUnique(ys[1..], zs[1..], less);
      assert ys == [ys[0]] + ys[1..] && zs == [zs[0]] + zs[1..];
    }
  }

  lemma {:induction false} InsertKeepsNoRepeats<T(!new)>(x: T, ys: seq<T>, less: (T, T) -> bool)
    requires NoRepeats(ys) && x !in ys
    ensures NoRepeats(Insert(x, ys, less))
  {
    if ys != [] && less(ys[0], x) {
      TailMembers(ys, ys[0]);
      TailMembers(ys, x);
      InsertKeepsNoRepeats(x, ys[1..], less);
      InsertMembers(x, ys[1..], less);
    }
  }

  lemma {:induction false} SortKeepsNoRepeats<T(!new)>(xs: seq<T>, less: (T, T) -> bool)
    requires NoRepeats(xs)
    ensures NoRepeats(StableSort(xs, less))
  {
    if xs != [] {
      SortKeepsNoRepeats(xs[1..], less);
      SortKeepsMembers(xs[1..], less);
      TailMembers(xs, xs[0]);
      InsertKeepsNoRepeats(xs[0], StableSort(xs[1..], less), less);
    }
  }
}
