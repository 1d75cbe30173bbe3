/** The sequence that VectorImpl::sort promises (libmotou/MotoVectorImpl.cpp): the stable sorted
    permutation, and why there is only one. */
module StableSort {

  type Compare<!T> = (T, T) -> int

  /** Put x behind the last element that does not exceed it. */
  function Placed<T>(s: seq<T>, x: T, cmp: Compare<T>): (r: seq<T>)
    ensures |r| == |s| + 1
  {
    if s == [] || cmp(s[|s| - 1], x) <= 0 then s + [x]
    else Placed(s[..|s| - 1], x, cmp) + [s[|s| - 1]]
  }

  function Sorted<T>(s: seq<T>, cmp: Compare<T>): (r: seq<T>)
    ensures |r| == |s|
  {
    if s == [] then [] else Placed(Sorted(s[..|s| - 1], cmp), s[|s| - 1], cmp)
  }

  ghost predicate TotalPreorder<T(!new)>(cmp: Compare<T>) {
    && (forall x, y :: cmp(x, y) <= 0 <==> cmp(y, x) >= 0)
    && (forall x, y, z :: cmp(x, y) <= 0 && cmp(y, z) <= 0 ==> cmp(x, z) <= 0)
  }

  predicate Ordered<T>(s: seq<T>, cmp: Compare<T>) {
    forall i, j :: 0 <= i < j < |s| ==> cmp(s[i], s[j]) <= 0
  }

  /** No element exceeds its successor: what the loop of sort looks at. */
  predicate NoDescent<T>(s: seq<T>, cmp: Compare<T>) {
    forall i :: 0 < i < |s| ==> cmp(s[i - 1], s[i]) <= 0
  }

  /** The elements that compare equal to x, in their order in s. */
  function Class<T>(s: seq<T>, x: T, cmp: Compare<T>): seq<T> {
    if s == [] then []
    else Class(s[..|s| - 1], x, cmp) + Hit(s[|s| - 1], x, cmp)
  }

  function Hit<T>(y: T, x: T, cmp: Compare<T>): seq<T> { if cmp(y, x) == 0 then [y] else [] }

  /** t is a rearrangement of s that keeps equal elements in their order. */
  ghost predicate StableRearrangement<T(!new)>(s: seq<T>, t: seq<T>, cmp: Compare<T>) {
    forall x :: Class(t, x, cmp) == Class(s, x, cmp)
  }

  // ---- insertion ----

  lemma {:induction false} PlacedMembers<T>(s: seq<T>, x: T, cmp: Compare<T>)
    ensures multiset(Placed(s, x, cmp)) == multiset(s) + multiset{x}
  {
    if s != [] && cmp(s[|s| - 1], x) > 0 {
      PlacedMembers(s[..|s| - 1], x, cmp);
      assert s == s[..|s| - 1] + [s[|s| - 1]];
    }
  }

  /** Sorting loses and invents nothing, whatever the comparison does. */
  lemma {:induction false} SortedIsPermutation<T>(s: seq<T>, cmp: Compare<T>)
    ensures multiset(Sorted(s, cmp)) == multiset(s)
  {
    if s != [] {
      SortedIsPermutation(s[..|s| - 1], cmp);
      PlacedMembers(Sorted(s[..|s| - 1], cmp), s[|s| - 1], cmp);
      assert s == s[..|s| - 1] + [s[|s| - 1]];
    }
  }

  lemma {:induction false} PlacedBelow<T(!new)>(s: seq<T>, x: T, y: T, cmp: Compare<T>)
    requires cmp(x, y) <= 0 && forall i :: 0 <= i < |s| ==> cmp(s[i], y) <= 0
    ensures forall i :: 0 <= i <= |s| ==> cmp(Placed(s, x, cmp)[i], y) <= 0
  {
    if s != [] && cmp(s[|s| - 1], x) > 0 { PlacedBelow(s[..|s| - 1], x, y, cmp); }
  }

  lemma {:induction false} PlacedOrdered<T(!new)>(s: seq<T>, x: T, cmp: Compare<T>)
    requires TotalPreorder(cmp) && Ordered(s, cmp)
    ensures Ordered(Placed(s, x, cmp), cmp)
  {
    if s != [] {
      var last := s[|s| - 1];
      if cmp(last, x) > 0 {
        PlacedOrdered(s[..|s| - 1], x, cmp);
        PlacedBelow(s[..|s| - 1], x, last, cmp);
      } else {
        forall i | 0 <= i < |s| ensures cmp(s[i], x) <= 0 { assert i < |s| - 1 ==> cmp(s[i], last) <= 0; }
      }
    }
  }

  lemma {:induction false} SortedOrdered<T(!new)>(s: seq<T>, cmp: Compare<T>)
    requires TotalPreorder(cmp)
    ensures Ordered(Sorted(s, cmp), cmp)
  {
    if s != [] {
      SortedOrdered(s[..|s| - 1], cmp);
      PlacedOrdered(Sorted(s[..|s| - 1], cmp), s[|s| - 1], cmp);
    }
  }

  // ---- stability ----

  lemma ClassSnoc<T>(s: seq<T>, x: T, k: T, cmp: Compare<T>)
    ensures Class(s + [x], k, cmp) == Class(s, k, cmp) + Hit(x, k, cmp)
  {
    assert (s + [x])[..|s|] == s;
  }

  lemma {:induction false} PlacedClass<T(!new)>(s: seq<T>, x: T, k: T, cmp: Compare<T>)
    requires TotalPreorder(cmp)
    ensures Class(Placed(s, x, cmp), k, cmp) == Class(s + [x], k, cmp)
  {
    if s != [] && cmp(s[|s| - 1], x) > 0 {
      var front, last := s[..|s| - 1], s[|s| - 1];
      PlacedClass(front, x, k, cmp);
      ClassSnoc(Placed(front, x, cmp), last, k, cmp);
      ClassSnoc(front, x, k, cmp);
      ClassSnoc(s, x, k, cmp);
      HitsSwap(last, x, k, cmp);
    }
  }

  lemma HitsSwap<T(!new)>(y: T, x: T, k: T, cmp: Compare<T>)
    requires TotalPreorder(cmp) && cmp(y, x) > 0
    ensures forall a: seq<T> :: a + Hit(x, k, cmp) + Hit(y, k, cmp) == a + Hit(y, k, cmp) + Hit(x, k, cmp)
  {
    assert !(cmp(y, k) == 0 && cmp(x, k) == 0);
  }

  lemma {:induction false} SortedClass<T(!new)>(s: seq<T>, k: T, cmp: Compare<T>)
    requires TotalPreorder(cmp)
    ensures Class(Sorted(s, cmp), k, cmp) == Class(s, k, cmp)
  {
    if s != [] {
      var front, last := s[..|s| - 1], s[|s| - 1];
      SortedClass(front, k, cmp);
      var p := Sorted(front, cmp);
      PlacedClass(p, last, k, cmp);
      assert (p + [last])[..|p|] == p;
    }
  }

  /** Sorted is the stable sorted permutation. */
  lemma SortedIsStable<T(!new)>(s: seq<T>, cmp: Compare<T>)
    requires TotalPreorder(cmp)
    ensures Ordered(Sorted(s, cmp), cmp) && StableRearrangement(s, Sorted(s, cmp), cmp)
    ensures multiset(Sorted(s, cmp)) == multiset(s)
  {
    SortedOrdered(s, cmp);
    SortedIsPermutation(s, cmp);
    forall k ensures Class(Sorted(s, cmp), k, cmp) == Class(s, k, cmp) { SortedClass(s, k, cmp); }
  }

  // ---- uniqueness ----

  lemma {:induction false} ClassMembers<T>(s: seq<T>, k: T, cmp: Compare<T>)
    ensures forall y :: y in Class(s, k, cmp) <==> y in s && cmp(y, k) == 0
  {
    if s != [] {
      ClassMembers(s[..|s| - 1], k, cmp);
      assert s == s[..|s| - 1] + [s[|s| - 1]];
    }
  }

  lemma Greatest<T(!new)>(s: seq<T>, t: seq<T>, cmp: Compare<T>)
    requires TotalPreorder(cmp) && Ordered(t, cmp) && StableRearrangement(s, t, cmp) && s != [] && t != []
    ensures forall i :: 0 <= i < |s| ==> cmp(s[i], t[|t| - 1]) <= 0
  {
    forall i | 0 <= i < |s| ensures cmp(s[i], t[|t| - 1]) <= 0 {
      ClassMembers(s, s[i], cmp);
      ClassMembers(t, s[i], cmp);
      assert s[i] in Class(t, s[i], cmp);
      var j :| 0 <= j < |t| && t[j] == s[i];
    }
  }

  lemma ClassOfLast<T(!new)>(s: seq<T>, cmp: Compare<T>)
    requires TotalPreorder(cmp) && s != []
    ensures var c := Class(s, s[|s| - 1], cmp); c != [] && c[|c| - 1] == s[|s| - 1]
  {
  }

  /** Two ordered sequences with the same classes have the same last element. */
  lemma SameLast<T(!new)>(s: seq<T>, t: seq<T>, cmp: Compare<T>)
    requires TotalPreorder(cmp) && Ordered(s, cmp) && Ordered(t, cmp) && StableRearrangement(s, t, cmp)
    requires s != [] && t != []
    ensures s[|s| - 1] == t[|t| - 1]
  {
    var x, y := s[|s| - 1], t[|t| - 1];
    Greatest(s, t, cmp);
    Greatest(t, s, cmp);
    assert cmp(x, y) == 0;
    ClassOfLast(s, cmp);
    ClassOfLast(t, cmp);
    SameKeySameClass(t, x, y, cmp);
  }

  lemma {:induction false} SameKeySameClass<T(!new)>(s: seq<T>, x: T, y: T, cmp: Compare<T>)
    requires TotalPreorder(cmp) && cmp(x, y) == 0
    ensures Class(s, x, cmp) == Class(s, y, cmp)
  {
    if s != [] { SameKeySameClass(s[..|s| - 1], x, y, cmp); }
  }

  lemma SameFront<T>(a: seq<T>, b: seq<T>, c: seq<T>)
    requires a + c == b + c
    ensures a == b
  {
    assert |a| == |b| && a == (a + c)[..|a|] && b == (b + c)[..|b|];
  }

  lemma FrontsRearrange<T(!new)>(s: seq<T>, t: seq<T>, cmp: Compare<T>)
    requires s != [] && t != [] && s[|s| - 1] == t[|t| - 1] && StableRearrangement(s, t, cmp)
    ensures StableRearrangement(s[..|s| - 1], t[..|t| - 1], cmp)
  {
    var sf, tf := s[..|s| - 1], t[..|t| - 1];
    forall x ensures Class(tf, x, cmp) == Class(sf, x, cmp) {
      assert Class(t, x, cmp) == Class(s, x, cmp);
      SameFront(Class(sf, x, cmp), Class(tf, x, cmp), Hit(s[|s| - 1], x, cmp));
    }
  }

  lemma NothingToArrange<T(!new)>(s: seq<T>, t: seq<T>, cmp: Compare<T>)
    requires TotalPreorder(cmp) && t == [] && forall x :: Class(s, x, cmp) == Class(t, x, cmp)
    ensures s == []
  {
    if s != [] { ClassOfLast(s, cmp); }
  }

  /** A stable sorted rearrangement is determined by what it rearranges. */
  lemma {:induction false} StableOrderIsUnique<T(!new)>(s: seq<T>, t: seq<T>, cmp: Compare<T>)
    requires TotalPreorder(cmp) && Ordered(s, cmp) && Ordered(t, cmp) && StableRearrangement(s, t, cmp)
    ensures s == t
    decreases |s|
  {
    if s == [] {
      NothingToArrange(t, s, cmp);
    } else if t == [] {
      NothingToArrange(s, t, cmp);
    } else {
      SameLast(s, t, cmp);
      FrontsRearrange(s, t, cmp);
      StableOrderIsUnique(s[..|s| - 1], t[..|t| - 1], cmp);
      assert s == s[..|s| - 1] + [s[|s| - 1]] && t == t[..|t| - 1] + [t[|t| - 1]];
    }
  }

  /** What sort must produce: any stable sorted rearrangement of s is Sorted(s). */
  lemma StableSortIsUnique<T(!new)>(s: seq<T>, t: seq<T>, cmp: Compare<T>)
    requires TotalPreorder(cmp)
    ensures Ordered(t, cmp) && StableRearrangement(s, t, cmp) <==> t == Sorted(s, cmp)
  {
    SortedIsStable(s, cmp);
    if Ordered(t, cmp) && StableRearrangement(s, t, cmp) {
      forall x ensures Class(t, x, cmp) == Class(Sorted(s, cmp), x, cmp) {
        assert Class(Sorted(s, cmp), x, cmp) == Class(s, x, cmp);
      }
      StableOrderIsUnique(Sorted(s, cmp), t, cmp);
    }
  }

  // ---- what the loop sees ----

  /** A sequence without descents is its own sort, whatever the comparison does elsewhere. */
  lemma {:induction false} NoDescentIsSorted<T>(s: seq<T>, cmp: Compare<T>)
    requires NoDescent(s, cmp)
    ensures Sorted(s, cmp) == s
  {
    if s != [] { NoDescentIsSorted(s[..|s| - 1], cmp); }
  }

  lemma SortedStep<T>(s: seq<T>, i: nat, cmp: Compare<T>)
    requires i < |s|
    ensures Sorted(s[..i + 1], cmp) == Placed(Sorted(s[..i], cmp), s[i], cmp)
  {
    assert s[..i + 1][..i] == s[..i];
  }

  /** c with its first i elements sorted. */
  ghost function Partly<T>(c: seq<T>, i: nat, cmp: Compare<T>): (r: seq<T>)
    requires i <= |c|
    ensures |r| == |c|
  {
    Sorted(c[..i], cmp) + c[i..]
  }

  /** One round of the outer loop: a has its first i elements sorted. */
  lemma SortRound<T>(c: seq<T>, a: seq<T>, i: nat, cmp: Compare<T>)
    requires 0 < i < |c| && a == Partly(c, i, cmp)
    ensures Placed(a[..i], a[i], cmp) + a[i + 1..] == Partly(c, i + 1, cmp)
    ensures cmp(a[i - 1], a[i]) <= 0 ==> a == Partly(c, i + 1, cmp)
  {
    SortedStep(c, i, cmp);
    assert a[..i] == Sorted(c[..i], cmp) && a[i] == c[i] && a[i + 1..] == c[i + 1..];
    assert a == a[..i] + [a[i]] + a[i + 1..];
  }

  /** Elements greater than x at the end stay behind it. */
  lemma {:induction false} PlacedPasses<T>(s: seq<T>, x: T, j: nat, cmp: Compare<T>)
    requires j <= |s| && forall k :: j <= k < |s| ==> cmp(s[k], x) > 0
    ensures Placed(s, x, cmp) == Placed(s[..j], x, cmp) + s[j..]
    decreases |s|
  {
    if j < |s| {
      var front := s[..|s| - 1];
      PlacedPasses(front, x, j, cmp);
      assert front[..j] == s[..j] && s[j..] == front[j..] + [s[|s| - 1]];
    } else {
      assert s[..j] == s;
    }
  }

  /** c while elements j to i - 1 stand one place higher, over element i. */
  ghost function Shift<T>(c: seq<T>, j: nat, i: nat): (r: seq<T>)
    requires j <= i < |c|
    ensures |r| == |c| && forall k :: 0 <= k < |c| ==> r[k] == if j < k <= i then c[k - 1] else c[k]
  {
    seq(|c|, k requires 0 <= k < |c| => if j < k <= i then c[k - 1] else c[k])
  }

  lemma ShiftStep<T>(c: seq<T>, i: nat, j: nat)
    requires 0 < j <= i < |c|
    ensures Shift(c, j, i)[j := c[j - 1]] == Shift(c, j - 1, i)
    ensures Shift(c, i, i) == c
  {
  }

  /** Where the inner loop of sort stops is where Placed puts the element. */
  lemma PlacedAt<T>(c: seq<T>, i: nat, j: nat, cmp: Compare<T>)
    requires j <= i < |c| && forall k :: j <= k < i ==> cmp(c[k], c[i]) > 0
    requires j == 0 || cmp(c[j - 1], c[i]) <= 0
    ensures Shift(c, j, i)[j := c[i]] == Placed(c[..i], c[i], cmp) + c[i + 1..]
  {
    PlacedPasses(c[..i], c[i], j, cmp);
    assert c[..i][..j] == c[..j] && c[..i][j..] == c[j..i];
    assert Placed(c[..j], c[i], cmp) == c[..j] + [c[i]];
    assert Shift(c, j, i)[j := c[i]] == c[..j] + [c[i]] + c[j..i] + c[i + 1..];
  }

  /** The inner loop of sort: shift the greater elements up by one place and drop element i in
      the place they leave. */
  method ShiftIn<T>(c: seq<T>, i: nat, cmp: Compare<T>) returns (a: seq<T>)
    requires 0 < i < |c| && cmp(c[i - 1], c[i]) > 0
    ensures a == Placed(c[..i], c[i], cmp) + c[i + 1..]
  {
    a := c;
    var temp, j := a[i], i - 1;
    ShiftStep(c, i, i);
    a := a[i := a[i - 1]];
    while j > 0 && cmp(a[j - 1], temp) > 0
      invariant 0 <= j < i && a == Shift(c, j, i)
      invariant forall k :: j <= k < i ==> cmp(c[k], temp) > 0
    {
      ShiftStep(c, i, j);
      a := a[j := a[j - 1]];
      j := j - 1;
    }
    PlacedAt(c, i, j, cmp);
    a := a[j := temp];
  }

  /** The outer loop of sort from the first descent on, when it works in a block of its own. */
  method SortRest<T>(c: seq<T>, first: nat, cmp: Compare<T>) returns (a: seq<T>)
    requires 0 < first < |c| && NoDescent(c[..first], cmp)
    ensures a == Sorted(c, cmp)
  {
    a := c;
    var i := first;
    NoDescentIsSorted(c[..first], cmp);
    while i < |c|
      invariant 0 < i <= |c| && a == Partly(c, i, cmp)
    {
      SortRound(c, a, i, cmp);
      if cmp(a[i - 1], a[i]) > 0 {
        a := ShiftIn(a, i, cmp);
      }
      i := i + 1;
    }
    assert c[..|c|] == c;
  }
}
