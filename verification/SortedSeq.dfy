/** The finite map that SortedVectorImpl keeps (libmotou/MotoVectorImpl.cpp): a sequence strictly
    ordered by key, where two elements have the same key when they compare equal. */
module SortedSeq {
  import opened Options
  import opened StableSort

  predicate Strict<T>(s: seq<T>, cmp: Compare<T>) {
    forall i, j :: 0 <= i < j < |s| ==> cmp(s[i], s[j]) < 0
  }

  /** The last element with the key of k. */
  function Lookup<T>(s: seq<T>, k: T, cmp: Compare<T>): Option<T> {
    if s == [] then None
    else if cmp(s[|s| - 1], k) == 0 then Some(s[|s| - 1])
    else Lookup(s[..|s| - 1], k, cmp)
  }

  /** How many elements stand before the place of x. */
  function Position<T>(s: seq<T>, x: T, cmp: Compare<T>): (p: nat)
    ensures p <= |s|
  {
    if s == [] || cmp(s[0], x) >= 0 then 0 else 1 + Position(s[1..], x, cmp)
  }

  predicate Present<T>(s: seq<T>, x: T, cmp: Compare<T>) {
    var p := Position(s, x, cmp);
    p < |s| && cmp(s[p], x) == 0
  }

  /** add: x takes the place of the element with its key, or a place of its own. */
  function Added<T>(s: seq<T>, x: T, cmp: Compare<T>): seq<T> {
    var p := Position(s, x, cmp);
    if Present(s, x, cmp) then s[p := x] else s[..p] + [x] + s[p..]
  }

  /** remove: drop the element with the key of x. */
  function Dropped<T>(s: seq<T>, x: T, cmp: Compare<T>): seq<T> {
    var p := Position(s, x, cmp);
    if Present(s, x, cmp) then s[..p] + s[p + 1..] else s
  }

  /** The naive merge. */
  function Merged<T>(s: seq<T>, t: seq<T>, cmp: Compare<T>): seq<T> {
    if t == [] then s else Added(Merged(s, t[..|t| - 1], cmp), t[|t| - 1], cmp)
  }

  /** The merge of a sorted vector into a non-empty one. */
  function FastMerged<T>(s: seq<T>, t: seq<T>, cmp: Compare<T>): seq<T>
    requires s != []
  {
    if t == [] then s
    else if cmp(t[|t| - 1], s[0]) <= 0 then t + s
    else if cmp(t[0], s[|s| - 1]) >= 0 then s + t
    else Merged(s, t, cmp)
  }

  // ---- positions ----

  lemma {:induction false} PositionSplits<T(!new)>(s: seq<T>, x: T, cmp: Compare<T>)
    requires TotalPreorder(cmp) && Ordered(s, cmp)
    ensures var p := Position(s, x, cmp);
            && (forall i :: 0 <= i < p ==> cmp(s[i], x) < 0)
            && (forall i :: p <= i < |s| ==> cmp(s[i], x) >= 0)
  {
    if s != [] {
      if cmp(s[0], x) >= 0 {
        forall i | 0 <= i < |s| ensures cmp(s[i], x) >= 0 {
          assert i > 0 ==> cmp(s[0], s[i]) <= 0;
          assert cmp(x, s[0]) <= 0;
        }
      } else {
        PositionSplits(s[1..], x, cmp);
        var p := Position(s[1..], x, cmp);
        forall i | 0 <= i < |s| ensures (i <= p ==> cmp(s[i], x) < 0) && (i > p ==> cmp(s[i], x) >= 0) {
          if i > 0 { assert s[i] == s[1..][i - 1]; }
        }
      }
    }
  }

  /** Behind the place of x, elements are greater, but for one with its key. */
  lemma PositionOf<T(!new)>(s: seq<T>, x: T, cmp: Compare<T>)
    requires TotalPreorder(cmp) && Strict(s, cmp)
    ensures var p := Position(s, x, cmp);
            && (forall i :: 0 <= i < p ==> cmp(s[i], x) < 0)
            && (forall i :: p < i < |s| ==> cmp(s[i], x) > 0)
            && (p < |s| ==> (if Present(s, x, cmp) then cmp(s[p], x) == 0 else cmp(s[p], x) > 0))
  {
    PositionSplits(s, x, cmp);
    var p := Position(s, x, cmp);
    forall i | p < i < |s| ensures cmp(s[i], x) > 0 {
      assert cmp(s[p], s[i]) < 0 && cmp(s[p], x) >= 0;
    }
  }

  /** The place of x is determined by the elements around it. */
  lemma {:induction false} PositionUnique<T(!new)>(s: seq<T>, x: T, p: nat, cmp: Compare<T>)
    requires p <= |s| && (forall i :: 0 <= i < p ==> cmp(s[i], x) < 0) && (p < |s| ==> cmp(s[p], x) >= 0)
    ensures Position(s, x, cmp) == p
  {
    if p > 0 { PositionUnique(s[1..], x, p - 1, cmp); }
  }

  // ---- order is kept ----

  lemma Less<T(!new)>(a: T, b: T, c: T, cmp: Compare<T>)
    requires TotalPreorder(cmp) && cmp(a, b) <= 0 && cmp(b, c) <= 0 && (cmp(a, b) < 0 || cmp(b, c) < 0)
    ensures cmp(a, c) < 0 && cmp(c, a) > 0
  {
    assert cmp(a, c) >= 0 <==> cmp(c, a) <= 0;
  }

  lemma StrictInsert<T>(s: seq<T>, p: nat, x: T, cmp: Compare<T>)
    requires Strict(s, cmp) && p <= |s|
    requires (forall i :: 0 <= i < p ==> cmp(s[i], x) < 0) && (forall i :: p <= i < |s| ==> cmp(x, s[i]) < 0)
    ensures Strict(s[..p] + [x] + s[p..], cmp)
  {
    var r := s[..p] + [x] + s[p..];
    forall i, j | 0 <= i < j < |r| ensures cmp(r[i], r[j]) < 0 {
      assert r[i] == (if i < p then s[i] else if i == p then x else s[i - 1]);
      assert r[j] == (if j < p then s[j] else if j == p then x else s[j - 1]);
    }
  }

  lemma StrictReplace<T>(s: seq<T>, p: nat, x: T, cmp: Compare<T>)
    requires Strict(s, cmp) && p < |s|
    requires (forall i :: 0 <= i < p ==> cmp(s[i], x) < 0) && (forall i :: p < i < |s| ==> cmp(x, s[i]) < 0)
    ensures Strict(s[p := x], cmp)
  {
  }

  lemma AddedStrict<T(!new)>(s: seq<T>, x: T, cmp: Compare<T>)
    requires TotalPreorder(cmp) && Strict(s, cmp)
    ensures Strict(Added(s, x, cmp), cmp)
  {
    PositionOf(s, x, cmp);
    if Present(s, x, cmp) {
      StrictReplace(s, Position(s, x, cmp), x, cmp);
    } else {
      StrictInsert(s, Position(s, x, cmp), x, cmp);
    }
  }

  lemma DroppedStrict<T(!new)>(s: seq<T>, x: T, cmp: Compare<T>)
    requires TotalPreorder(cmp) && Strict(s, cmp)
    ensures Strict(Dropped(s, x, cmp), cmp)
  {
  }

  lemma {:induction false} MergedStrict<T(!new)>(s: seq<T>, t: seq<T>, cmp: Compare<T>)
    requires TotalPreorder(cmp) && Strict(s, cmp)
    ensures Strict(Merged(s, t, cmp), cmp)
  {
    if t != [] {
      MergedStrict(s, t[..|t| - 1], cmp);
      AddedStrict(Merged(s, t[..|t| - 1], cmp), t[|t| - 1], cmp);
    }
  }

  // ---- the map ----

  /** In a strictly ordered sequence a lookup finds the one element with the key. */
  lemma {:induction false} LookupFinds<T(!new)>(s: seq<T>, k: T, cmp: Compare<T>)
    requires TotalPreorder(cmp) && Strict(s, cmp)
    ensures forall y :: y in s && cmp(y, k) == 0 <==> Lookup(s, k, cmp) == Some(y)
  {
    if s != [] {
      var front, last := s[..|s| - 1], s[|s| - 1];
      LookupFinds(front, k, cmp);
      assert s == front + [last];
      forall y | y in front && cmp(last, k) == 0 ensures cmp(y, k) != 0 {
        assert cmp(y, last) < 0;
      }
    }
  }

  lemma AddedMembers<T(!new)>(s: seq<T>, x: T, cmp: Compare<T>)
    requires TotalPreorder(cmp) && Strict(s, cmp)
    ensures forall y :: y in Added(s, x, cmp) <==> y == x || (y in s && cmp(y, x) != 0)
  {
    PositionOf(s, x, cmp);
    if Present(s, x, cmp) {
      ReplacedMembers(s, Position(s, x, cmp), x, cmp);
    } else {
      InsertedMembers(s, Position(s, x, cmp), x);
    }
  }

  lemma ReplacedMembers<T(!new)>(s: seq<T>, p: nat, x: T, cmp: Compare<T>)
    requires p < |s| && forall i :: 0 <= i < |s| ==> (cmp(s[i], x) == 0 <==> i == p)
    ensures forall y :: y in s[p := x] <==> y == x || (y in s && cmp(y, x) != 0)
  {
    var r := s[p := x];
    assert r[p] == x;
    forall y | y in s && cmp(y, x) != 0 ensures y in r {
      var i :| 0 <= i < |s| && s[i] == y;
      assert r[i] == y;
    }
    forall y | y in r && y != x ensures y in s && cmp(y, x) != 0 {
      var i :| 0 <= i < |r| && r[i] == y;
      assert s[i] == y;
    }
  }

  lemma InsertedMembers<T(!new)>(s: seq<T>, p: nat, x: T)
    requires p <= |s|
    ensures forall y :: y in s[..p] + [x] + s[p..] <==> y == x || y in s
  {
    assert s == s[..p] + s[p..];
  }

  lemma DroppedMembers<T(!new)>(s: seq<T>, x: T, cmp: Compare<T>)
    requires TotalPreorder(cmp) && Strict(s, cmp)
    ensures forall y :: y in Dropped(s, x, cmp) <==> y in s && cmp(y, x) != 0
  {
    PositionOf(s, x, cmp);
    if Present(s, x, cmp) {
      WithoutOne(s, Position(s, x, cmp), x, cmp);
    }
  }

  lemma WithoutOne<T(!new)>(s: seq<T>, p: nat, x: T, cmp: Compare<T>)
    requires p < |s| && forall i :: 0 <= i < |s| ==> (cmp(s[i], x) == 0 <==> i == p)
    ensures forall y :: y in s[..p] + s[p + 1..] <==> y in s && cmp(y, x) != 0
  {
    var r := s[..p] + s[p + 1..];
    forall y | y in s && cmp(y, x) != 0 ensures y in r {
      var i :| 0 <= i < |s| && s[i] == y;
      assert r[if i < p then i else i - 1] == y;
    }
    forall y | y in r ensures y in s && cmp(y, x) != 0 {
      var i :| 0 <= i < |r| && r[i] == y;
      assert s[if i < p then i else i + 1] == y;
    }
  }

  lemma SameKey<T(!new)>(x: T, y: T, k: T, cmp: Compare<T>)
    requires TotalPreorder(cmp) && cmp(y, k) == 0
    ensures cmp(y, x) == 0 <==> cmp(x, k) == 0
  {
    assert cmp(k, y) == 0;
  }

  /** add binds the key of x to x and no other key. */
  lemma AddedLookup<T(!new)>(s: seq<T>, x: T, k: T, cmp: Compare<T>)
    requires TotalPreorder(cmp) && Strict(s, cmp)
    ensures Lookup(Added(s, x, cmp), k, cmp) == if cmp(x, k) == 0 then Some(x) else Lookup(s, k, cmp)
  {
    AddedStrict(s, x, cmp);
    LookupFinds(Added(s, x, cmp), k, cmp);
    LookupFinds(s, k, cmp);
    AddedMembers(s, x, cmp);
    forall y | cmp(y, k) == 0 ensures cmp(y, x) == 0 <==> cmp(x, k) == 0 { SameKey(x, y, k, cmp); }
  }

  /** remove unbinds the key of x and no other key. */
  lemma DroppedLookup<T(!new)>(s: seq<T>, x: T, k: T, cmp: Compare<T>)
    requires TotalPreorder(cmp) && Strict(s, cmp)
    ensures Lookup(Dropped(s, x, cmp), k, cmp) == if cmp(x, k) == 0 then None else Lookup(s, k, cmp)
  {
    DroppedStrict(s, x, cmp);
    LookupFinds(Dropped(s, x, cmp), k, cmp);
    LookupFinds(s, k, cmp);
    DroppedMembers(s, x, cmp);
    forall y | cmp(y, k) == 0 ensures cmp(y, x) == 0 <==> cmp(x, k) == 0 { SameKey(x, y, k, cmp); }
  }

  /** The naive merge is the union of the maps, where the later item wins. */
  lemma {:induction false} MergedLookup<T(!new)>(s: seq<T>, t: seq<T>, k: T, cmp: Compare<T>)
    requires TotalPreorder(cmp) && Strict(s, cmp)
    ensures Lookup(Merged(s, t, cmp), k, cmp) == if Lookup(t, k, cmp).Some? then Lookup(t, k, cmp) else Lookup(s, k, cmp)
  {
    if t != [] {
      MergedLookup(s, t[..|t| - 1], k, cmp);
      MergedStrict(s, t[..|t| - 1], cmp);
      AddedLookup(Merged(s, t[..|t| - 1], cmp), t[|t| - 1], k, cmp);
    }
  }

  lemma {:induction false} ClassIsLookup<T(!new)>(s: seq<T>, k: T, cmp: Compare<T>)
    requires TotalPreorder(cmp) && Strict(s, cmp)
    ensures Class(s, k, cmp) == match Lookup(s, k, cmp) case None => [] case Some(y) => [y]
  {
    if s != [] {
      var front, last := s[..|s| - 1], s[|s| - 1];
      ClassIsLookup(front, k, cmp);
      if cmp(last, k) == 0 {
        LookupFinds(s, k, cmp);
        LookupFinds(front, k, cmp);
        assert forall y :: y in front ==> y in s;
      }
    }
  }

  /** The map determines the sequence. */
  lemma StrictIsCanonical<T(!new)>(s: seq<T>, t: seq<T>, cmp: Compare<T>)
    requires TotalPreorder(cmp) && Strict(s, cmp) && Strict(t, cmp)
    requires forall k :: Lookup(s, k, cmp) == Lookup(t, k, cmp)
    ensures s == t
  {
    forall k ensures Class(t, k, cmp) == Class(s, k, cmp) {
      ClassIsLookup(s, k, cmp);
      ClassIsLookup(t, k, cmp);
      assert Lookup(s, k, cmp) == Lookup(t, k, cmp);
    }
    StableOrderIsUnique(s, t, cmp);
  }

  // ---- the fast merge ----

  lemma {:induction false} LookupConcat<T>(s: seq<T>, t: seq<T>, k: T, cmp: Compare<T>)
    ensures Lookup(s + t, k, cmp) == if Lookup(t, k, cmp).Some? then Lookup(t, k, cmp) else Lookup(s, k, cmp)
  {
    if t == [] {
      assert s + t == s;
    } else {
      LookupConcat(s, t[..|t| - 1], k, cmp);
      assert (s + t)[..|s + t| - 1] == s + t[..|t| - 1];
    }
  }

  /** Two runs of which one lies wholly below the other. */
  lemma ConcatStrict<T(!new)>(a: seq<T>, b: seq<T>, cmp: Compare<T>)
    requires TotalPreorder(cmp) && Strict(a, cmp) && Strict(b, cmp)
    requires a != [] && b != [] && cmp(a[|a| - 1], b[0]) < 0
    ensures Strict(a + b, cmp)
    ensures forall i, j :: 0 <= i < |a| && 0 <= j < |b| ==> cmp(a[i], b[j]) < 0
  {
    forall i, j | 0 <= i < |a| && 0 <= j < |b| ensures cmp(a[i], b[j]) < 0 {
      if i < |a| - 1 { Less(a[i], a[|a| - 1], b[0], cmp); }
      if j > 0 { Less(a[i], b[0], b[j], cmp); }
    }
  }

  lemma AppendIsMerge<T(!new)>(s: seq<T>, t: seq<T>, cmp: Compare<T>)
    requires TotalPreorder(cmp) && Strict(s, cmp) && Strict(t, cmp) && s != [] && t != []
    requires cmp(s[|s| - 1], t[0]) < 0
    ensures s + t == Merged(s, t, cmp)
  {
    ConcatStrict(s, t, cmp);
    MergedStrict(s, t, cmp);
    forall k ensures Lookup(s + t, k, cmp) == Lookup(Merged(s, t, cmp), k, cmp) {
      LookupConcat(s, t, k, cmp);
      MergedLookup(s, t, k, cmp);
    }
    StrictIsCanonical(s + t, Merged(s, t, cmp), cmp);
  }

  lemma PrependIsMerge<T(!new)>(s: seq<T>, t: seq<T>, cmp: Compare<T>)
    requires TotalPreorder(cmp) && Strict(s, cmp) && Strict(t, cmp) && s != [] && t != []
    requires cmp(t[|t| - 1], s[0]) < 0
    ensures t + s == Merged(s, t, cmp)
  {
    ConcatStrict(t, s, cmp);
    MergedStrict(s, t, cmp);
    forall k ensures Lookup(t + s, k, cmp) == Lookup(Merged(s, t, cmp), k, cmp) {
      LookupConcat(t, s, k, cmp);
      MergedLookup(s, t, k, cmp);
      LookupApart(t, s, k, cmp);
    }
    StrictIsCanonical(t + s, Merged(s, t, cmp), cmp);
  }

  lemma LookupApart<T(!new)>(a: seq<T>, b: seq<T>, k: T, cmp: Compare<T>)
    requires TotalPreorder(cmp) && Strict(a, cmp) && Strict(b, cmp)
    requires forall i, j :: 0 <= i < |a| && 0 <= j < |b| ==> cmp(a[i], b[j]) < 0
    ensures Lookup(a, k, cmp) == None || Lookup(b, k, cmp) == None
  {
    LookupFinds(a, k, cmp);
    LookupFinds(b, k, cmp);
    forall x, y | x in a && y in b ensures !(cmp(x, k) == 0 && cmp(y, k) == 0) {
      var i :| 0 <= i < |a| && a[i] == x;
      var j :| 0 <= j < |b| && b[j] == y;
      assert cmp(a[i], b[j]) < 0;
    }
  }

  /** The fast merge gives what the naive one gives exactly when no boundary keys are equal. */
  lemma FastMergeIsMerge<T(!new)>(s: seq<T>, t: seq<T>, cmp: Compare<T>)
    requires TotalPreorder(cmp) && Strict(s, cmp) && Strict(t, cmp) && s != [] && t != []
    ensures FastMerged(s, t, cmp) == Merged(s, t, cmp) <==> cmp(t[|t| - 1], s[0]) != 0 && cmp(t[0], s[|s| - 1]) != 0
  {
    var high, low := cmp(t[|t| - 1], s[0]), cmp(t[0], s[|s| - 1]);
    MergedStrict(s, t, cmp);
    if high < 0 {
      PrependIsMerge(s, t, cmp);
      ConcatStrict(t, s, cmp);
    } else if high == 0 {
      var r := t + s;
      assert cmp(r[|t| - 1], r[|t|]) == 0;
    } else if low > 0 {
      AppendIsMerge(s, t, cmp);
    } else if low == 0 {
      var r := s + t;
      assert cmp(r[|s|], r[|s| - 1]) == 0;
    }
  }

  /** What the fast merge gives where one run lies below the other, equal boundary keys included: all
      elements of both, in order. */
  lemma FastMergeKeepsAll<T(!new)>(s: seq<T>, t: seq<T>, cmp: Compare<T>)
    requires TotalPreorder(cmp) && Strict(s, cmp) && Strict(t, cmp) && s != [] && t != []
    requires cmp(t[|t| - 1], s[0]) <= 0 || cmp(t[0], s[|s| - 1]) >= 0
    ensures Ordered(FastMerged(s, t, cmp), cmp) && multiset(FastMerged(s, t, cmp)) == multiset(s) + multiset(t)
  {
    if cmp(t[|t| - 1], s[0]) <= 0 {
      ConcatOrdered(t, s, cmp);
    } else {
      ConcatOrdered(s, t, cmp);
    }
  }

  lemma ConcatOrdered<T(!new)>(a: seq<T>, b: seq<T>, cmp: Compare<T>)
    requires TotalPreorder(cmp) && Strict(a, cmp) && Strict(b, cmp) && a != [] && b != [] && cmp(a[|a| - 1], b[0]) <= 0
    ensures Ordered(a + b, cmp)
  {
    var r := a + b;
    forall i, j | 0 <= i < j < |r| ensures cmp(r[i], r[j]) <= 0 {
      if i < |a| <= j {
        assert i < |a| - 1 ==> cmp(a[i], a[|a| - 1]) < 0;
        assert cmp(a[i], b[0]) <= 0;
        assert j > |a| ==> cmp(b[0], b[j - |a|]) < 0;
      }
    }
  }

  /** With equal boundary keys the fast merge holds both items of one key. */
  lemma FastMergeDuplicates(x: (int, int), y: (int, int))
    requires x.0 == y.0 && x != y
    ensures var cmp := (a: (int, int), b: (int, int)) => a.0 - b.0;
            FastMerged([x], [y], cmp) == [y, x] && Merged([x], [y], cmp) == [y]
  {
  }
}
