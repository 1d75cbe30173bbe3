/** How checkdir of aplogd/modemlog.c keeps the panic reports below a total size: it lists the
    directory in a doubly linked list and deletes the oldest files first. */
module PanicRetention {
  import opened StableSort

  const MAXTOTALSIZE: nat := 102400

  /** A directory entry and what lstat says of it. */
  datatype File = File(name: string, mtime: int, size: nat)

  function ByAge(): Compare<File> { (a: File, b: File) => a.mtime - b.mtime }

  function Sum(files: seq<File>): nat { if files == [] then 0 else Sum(files[..|files| - 1]) + files[|files| - 1].size }

  predicate Dotted(f: File) { f.name == "." || f.name == ".." }

  /** The entries that count, in the order of the list: the last one listed is first. */
  function Listed(entries: seq<File>): seq<File> {
    if entries == [] then []
    else
      var f := entries[|entries| - 1];
      (if Dotted(f) then [] else [f]) + Listed(entries[..|entries| - 1])
  }

  /** The order in which files go: by age, and among equals the last one listed first. */
  function Order(entries: seq<File>): seq<File> { Sorted(Listed(entries), ByAge()) }

  // ---- sums ----

  lemma {:induction false} SumConcat(a: seq<File>, b: seq<File>)
    ensures Sum(a + b) == Sum(a) + Sum(b)
  {
    if b == [] {
      assert a + b == a;
    } else {
      SumConcat(a, b[..|b| - 1]);
      assert (a + b)[..|a + b| - 1] == a + b[..|b| - 1];
    }
  }

  lemma SumOne(f: File)
    ensures Sum([f]) == f.size
  {
  }

  lemma {:induction false} SumNext(a: seq<File>, f: File)
    ensures Sum(a + [f]) == Sum(a) + f.size
  {
    SumConcat(a, [f]);
    SumOne(f);
  }

  lemma {:induction false} SumFront(f: File, a: seq<File>)
    ensures Sum([f] + a) == f.size + Sum(a)
  {
    SumConcat([f], a);
    SumOne(f);
  }

  lemma {:induction false} SumWithout(a: seq<File>, f: File, b: seq<File>)
    ensures Sum(a + [f] + b) == Sum(a + b) + f.size
  {
    SumConcat(a, b);
    SumConcat(a + [f], b);
    SumNext(a, f);
  }

  // ---- oldest first is the order of the stable sort ----

  lemma {:induction false} ClassConcat<T>(a: seq<T>, b: seq<T>, x: T, cmp: Compare<T>)
    ensures Class(a + b, x, cmp) == Class(a, x, cmp) + Class(b, x, cmp)
  {
    if b == [] {
      assert a + b == a;
    } else {
      var front, last := b[..|b| - 1], b[|b| - 1];
      ClassConcat(a, front, x, cmp);
      assert (a + b)[..|a + b| - 1] == a + front && (a + b)[|a + b| - 1] == last;
      Associates(Class(a, x, cmp), Class(front, x, cmp), Hit(last, x, cmp));
    }
  }

  lemma Associates<X>(a: seq<X>, b: seq<X>, c: seq<X>)
    ensures a + b + c == a + (b + c)
  {
  }

  lemma {:induction false} ClassAbove<T>(a: seq<T>, x: T, cmp: Compare<T>)
    requires forall i :: 0 <= i < |a| ==> cmp(a[i], x) != 0
    ensures Class(a, x, cmp) == []
  {
    if a != [] { ClassAbove(a[..|a| - 1], x, cmp); }
  }

  lemma AgeIsPreorder()
    ensures TotalPreorder(ByAge())
  {
  }

  /** o, older than everything before it, may as well be moved to the front. */
  lemma {:induction false} ClassMoved<T>(a: seq<T>, o: T, b: seq<T>, x: T, cmp: Compare<T>)
    requires cmp(o, x) == 0 ==> Class(a, x, cmp) == []
    ensures Class(a + [o] + b, x, cmp) == Class([o] + (a + b), x, cmp)
  {
    ClassConcat(a + [o], b, x, cmp);
    ClassConcat(a, [o], x, cmp);
    ClassConcat([o], a + b, x, cmp);
    ClassConcat(a, b, x, cmp);
    ClassOne(o, x, cmp);
    SwapEmpty(Class(a, x, cmp), Class([o], x, cmp), Class(b, x, cmp));
  }

  lemma ClassOne<T>(o: T, x: T, cmp: Compare<T>)
    ensures Class([o], x, cmp) == Hit(o, x, cmp)
  {
  }

  lemma SwapEmpty<X>(a: seq<X>, b: seq<X>, c: seq<X>)
    requires a == [] || b == []
    ensures a + b + c == b + (a + c)
  {
  }

  /** Files a, o and b with o the first of the oldest. */
  predicate OldestFirst(a: seq<File>, o: File, b: seq<File>) {
    && (forall j :: 0 <= j < |a| ==> o.mtime < a[j].mtime)
    && (forall j :: 0 <= j < |b| ==> o.mtime <= b[j].mtime)
  }

  lemma {:induction false} OldestClass(a: seq<File>, o: File, b: seq<File>, x: File)
    requires OldestFirst(a, o, b)
    ensures Class(a + [o] + b, x, ByAge()) == Class([o] + (a + b), x, ByAge())
  {
    if o.mtime == x.mtime { ClassAbove(a, x, ByAge()); }
    ClassMoved(a, o, b, x, ByAge());
  }

  /** The oldest file comes first in the stable sort, and the others as they would without it. */
  lemma OldestIsFirst(a: seq<File>, o: File, b: seq<File>)
    requires OldestFirst(a, o, b)
    ensures Sorted(a + [o] + b, ByAge()) == [o] + Sorted(a + b, ByAge())
  {
    var cmp := ByAge();
    var t := [o] + Sorted(a + b, cmp);
    AgeIsPreorder();
    SortedIsStable(a + b, cmp);
    forall x ensures Class(t, x, cmp) == Class(a + [o] + b, x, cmp) {
      OldestClass(a, o, b, x);
      ClassConcat([o], Sorted(a + b, cmp), x, cmp);
      ClassConcat([o], a + b, x, cmp);
      assert Class(Sorted(a + b, cmp), x, cmp) == Class(a + b, x, cmp);
    }
    SortedAbove(a + b, o);
    StableSortIsUnique(a + [o] + b, t, cmp);
  }

  lemma SortedMember(s: seq<File>, j: nat)
    requires j < |Sorted(s, ByAge())|
    ensures Sorted(s, ByAge())[j] in s
  {
    SortedIsPermutation(s, ByAge());
    InMultiset(Sorted(s, ByAge()), s, j);
  }

  lemma InMultiset<X>(r: seq<X>, s: seq<X>, j: nat)
    requires multiset(r) == multiset(s) && j < |r|
    ensures r[j] in s
  {
    assert r[j] in multiset(r);
  }

  lemma SortedAbove(s: seq<File>, o: File)
    requires forall j :: 0 <= j < |s| ==> o.mtime <= s[j].mtime
    ensures Ordered([o] + Sorted(s, ByAge()), ByAge())
  {
    AgeIsPreorder();
    SortedOrdered(s, ByAge());
    forall j: nat | j < |Sorted(s, ByAge())| ensures o.mtime <= Sorted(s, ByAge())[j].mtime { SortedMember(s, j); }
    FrontOrdered(o, Sorted(s, ByAge()));
  }

  lemma FrontOrdered(o: File, r: seq<File>)
    requires Ordered(r, ByAge()) && forall j :: 0 <= j < |r| ==> o.mtime <= r[j].mtime
    ensures Ordered([o] + r, ByAge())
  {
  }

  // ---- the running total ----

  /** What an int of 32 bits holds of a value. */
  function Wrap32(n: int): (r: int)
    ensures -0x8000_0000 <= r < 0x8000_0000
    ensures -0x8000_0000 <= n < 0x8000_0000 ==> r == n
  {
    (n + 0x8000_0000) % 0x1_0000_0000 - 0x8000_0000
  }

  lemma SameWrap(a: int, b: int, k: int)
    requires a == b + 0x1_0000_0000 * k
    ensures Wrap32(a) == Wrap32(b)
  {
  }

  /** Sums and differences may be wrapped as they are made. */
  lemma WrapSum(a: int, b: int)
    ensures Wrap32(Wrap32(a) + b) == Wrap32(a + b) && Wrap32(Wrap32(a) - b) == Wrap32(a - b)
    ensures Wrap32(a - Wrap32(b)) == Wrap32(a - b)
  {
    var k := (a + 0x8000_0000) / 0x1_0000_0000;
    SameWrap(a + b, Wrap32(a) + b, k);
    SameWrap(a - b, Wrap32(a) - b, k);
    var l := (b + 0x8000_0000) / 0x1_0000_0000;
    SameWrap(a - Wrap32(b), a - b, l);
  }

  /** A size more, or less, in the counter. */
  lemma CountSize(total: int, sum: int, size: int)
    requires total == Wrap32(sum)
    ensures Wrap32(total + size) == Wrap32(sum + size) && Wrap32(total - Wrap32(size)) == Wrap32(sum - size)
  {
    WrapSum(sum, size);
    WrapSum(sum, Wrap32(size));
  }

  lemma CountFront(f: File, files: seq<File>, total: int)
    requires total == Wrap32(Sum(files))
    ensures Wrap32(total + f.size) == Wrap32(Sum([f] + files))
  {
    SumFront(f, files);
    CountSize(total, Sum(files), f.size);
  }

  /** A total that calls for deleting. */
  predicate Heavy(n: int) { n > MAXTOTALSIZE }

  /** A total that does so once it is in an int. */
  predicate LooksHeavy(n: int) { Heavy(Wrap32(n)) }

  // ---- eviction ----

  /** Of the files of `list`, `deleted` have gone in order while the total was heavy, and `left`
      remain. */
  ghost predicate Evicting(heavy: int -> bool, list: seq<File>, deleted: seq<File>, left: seq<File>) {
    && deleted + Sorted(left, ByAge()) == Sorted(list, ByAge())
    && Sum(list) == Sum(deleted) + Sum(left)
    && HeavySoFar(heavy, Sum(list), deleted)
  }

  /** What remains of a total after the first k files have gone. */
  ghost function Rest(total: int, files: seq<File>, k: nat): int
    requires k <= |files|
  {
    total - Sum(files[..k])
  }

  /** Before each deletion the total was heavy. */
  ghost predicate HeavySoFar(heavy: int -> bool, total: int, deleted: seq<File>) {
    forall k: nat :: k < |deleted| ==> heavy(Rest(total, deleted, k))
  }

  lemma {:induction false} RestOfMore(total: int, files: seq<File>, more: seq<File>, k: nat)
    requires k <= |files| && files <= more
    ensures Rest(total, files, k) == Rest(total, more, k)
  {
    assert files[..k] == more[..k];
  }

  lemma {:induction false} RestOfAll(total: int, files: seq<File>)
    ensures Rest(total, files, |files|) == total - Sum(files)
  {
    assert files[..|files|] == files;
  }

  lemma {:induction false} HeavyOnceMore(heavy: int -> bool, total: int, deleted: seq<File>, o: File)
    requires HeavySoFar(heavy, total, deleted) && heavy(total - Sum(deleted))
    ensures HeavySoFar(heavy, total, deleted + [o])
  {
    RestOfAll(total, deleted);
    forall k: nat | k < |deleted + [o]| ensures heavy(Rest(total, deleted + [o], k)) {
      RestOfMore(total, deleted, deleted + [o], k);
    }
  }

  lemma EvictNone(heavy: int -> bool, list: seq<File>)
    ensures Evicting(heavy, list, [], list)
  {
    assert [] + Sorted(list, ByAge()) == Sorted(list, ByAge());
  }

  lemma {:induction false} EvictOrder(list: seq<File>, deleted: seq<File>, a: seq<File>, o: File, b: seq<File>)
    requires deleted + Sorted(a + [o] + b, ByAge()) == Sorted(list, ByAge()) && OldestFirst(a, o, b)
    ensures deleted + [o] + Sorted(a + b, ByAge()) == Sorted(list, ByAge())
  {
    OldestIsFirst(a, o, b);
    Associates(deleted, [o], Sorted(a + b, ByAge()));
  }

  lemma {:induction false} EvictSum(list: seq<File>, deleted: seq<File>, a: seq<File>, o: File, b: seq<File>)
    requires Sum(list) == Sum(deleted) + Sum(a + [o] + b)
    ensures Sum(list) == Sum(deleted + [o]) + Sum(a + b)
  {
    SumWithout(a, o, b);
    SumNext(deleted, o);
  }

  lemma {:induction false} EvictOne(heavy: int -> bool, list: seq<File>, deleted: seq<File>, a: seq<File>, o: File, b: seq<File>)
    requires Evicting(heavy, list, deleted, a + [o] + b) && OldestFirst(a, o, b) && heavy(Sum(a + [o] + b))
    ensures Evicting(heavy, list, deleted + [o], a + b)
  {
    EvictOrder(list, deleted, a, o, b);
    EvictSum(list, deleted, a, o, b);
    assert Sum(list) - Sum(deleted) == Sum(a + [o] + b);
    HeavyOnceMore(heavy, Sum(list), deleted, o);
  }

  /** The shortest prefix, oldest first, whose removal leaves a total that is not heavy. */
  ghost predicate Shortest(heavy: int -> bool, entries: seq<File>, deleted: seq<File>) {
    var total := Sum(Listed(entries));
    && deleted <= Order(entries)
    && HeavySoFar(heavy, total, deleted) && !heavy(total - Sum(deleted))
  }

  lemma {:induction false} EvictedIsShortest(heavy: int -> bool, entries: seq<File>, deleted: seq<File>, left: seq<File>)
    requires Evicting(heavy, Listed(entries), deleted, left) && !heavy(Sum(left))
    ensures Shortest(heavy, entries, deleted)
  {
  }

  /** There is only one such prefix. */
  lemma {:induction false} ShortestIsUnique(heavy: int -> bool, entries: seq<File>, d: seq<File>, e: seq<File>)
    requires Shortest(heavy, entries, d) && Shortest(heavy, entries, e)
    ensures d == e
  {
    var k := if |d| < |e| then |d| else |e|;
    var total := Sum(Listed(entries));
    RestOfAll(total, d);
    RestOfAll(total, e);
    RestOfMore(total, d[..k], d, k);
    RestOfMore(total, d[..k], e, k);
  }

  /** The list is the files of the directory, without itself and its parent. */
  lemma {:induction false} ListedFiles(entries: seq<File>, f: File)
    ensures f in Listed(entries) <==> f in entries && f.name != "." && f.name != ".."
  {
    if entries != [] {
      var last := |entries| - 1;
      assert entries == entries[..last] + [entries[last]];
      ListedFiles(entries[..last], f);
    }
  }

  /** Only such files go. */
  lemma {:induction false} OnlyFilesGo(heavy: int -> bool, entries: seq<File>, deleted: seq<File>, i: nat)
    requires Shortest(heavy, entries, deleted) && i < |deleted|
    ensures deleted[i] in entries && deleted[i].name != "." && deleted[i].name != ".."
  {
    assert deleted[i] == Order(entries)[i];
    SortedMember(Listed(entries), i);
    ListedFiles(entries, deleted[i]);
  }

  // ---- retention ----

  /** What checkdir is for: the prefix that brings the total to MAXTOTALSIZE or less. */
  ghost predicate Retained(entries: seq<File>, deleted: seq<File>) { Shortest(Heavy, entries, deleted) }

  /** What its counter makes it delete. */
  ghost predicate Stopped(entries: seq<File>, deleted: seq<File>) { Shortest(LooksHeavy, entries, deleted) }

  /** No rest of the files, oldest taken away, is heavy and yet looks light to an int. */
  ghost predicate NoEarlyStop(entries: seq<File>) {
    var total := Sum(Listed(entries));
    forall k: nat :: k <= |Order(entries)| && Heavy(Rest(total, Order(entries), k)) ==> LooksHeavy(Rest(total, Order(entries), k))
  }

  lemma {:induction false} PrefixSum(s: seq<File>, j: nat, k: nat)
    requires j <= k <= |s|
    ensures Sum(s[..j]) <= Sum(s[..k])
  {
    assert s[..k] == s[..j] + s[j..k];
    SumConcat(s[..j], s[j..k]);
  }

  lemma SumSorted(s: seq<File>)
    ensures Sum(Sorted(s, ByAge())) == Sum(s)
  {
    SortedIsPermutation(s, ByAge());
    SumIsOfBag(Sorted(s, ByAge()), s);
  }

  lemma BagAround<X>(x: seq<X>, f: X, y: seq<X>)
    ensures multiset(x + [f] + y) == multiset(x + y) + multiset{f}
  {
  }

  lemma Cancel<X>(m: multiset<X>, n: multiset<X>, f: X)
    requires m + multiset{f} == n + multiset{f}
    ensures m == n
  {
    assert m == (m + multiset{f}) - multiset{f};
    assert n == (n + multiset{f}) - multiset{f};
  }

  lemma SplitAt<X>(front: seq<X>, f: X, b: seq<X>) returns (x: seq<X>, y: seq<X>)
    requires multiset(front + [f]) == multiset(b)
    ensures b == x + [f] + y && multiset(front) == multiset(x + y)
  {
    assert f in multiset(b);
    var i :| 0 <= i < |b| && b[i] == f;
    x, y := b[..i], b[i + 1..];
    assert b == x + [f] + y;
    BagAround(x, f, y);
    Cancel(multiset(front), multiset(x + y), f);
  }

  /** The sum does not depend on the order. */
  lemma {:induction false} SumIsOfBag(a: seq<File>, b: seq<File>)
    requires multiset(a) == multiset(b)
    ensures Sum(a) == Sum(b)
    decreases |a|
  {
    if a == [] {
      assert |multiset(b)| == 0;
    } else {
      assert a == a[..|a| - 1] + [a[|a| - 1]];
      var x, y := SplitAt(a[..|a| - 1], a[|a| - 1], b);
      SumIsOfBag(a[..|a| - 1], x + y);
      SumWithout(x, a[|a| - 1], y);
    }
  }

  lemma {:induction false} RestIsNotNegative(entries: seq<File>, k: nat)
    requires k <= |Order(entries)|
    ensures Rest(Sum(Listed(entries)), Order(entries), k) >= 0
  {
    var o := Order(entries);
    PrefixSum(o, k, |o|);
    assert o[..|o|] == o;
    SumSorted(Listed(entries));
  }

  /** The counter is never heavier than what it counts. */
  lemma LooksHeavyIsHeavy(n: int)
    requires n >= 0 && LooksHeavy(n)
    ensures Heavy(n)
  {
  }

  lemma {:induction false} StopsInTime(entries: seq<File>, deleted: seq<File>)
    requires Stopped(entries, deleted) && NoEarlyStop(entries)
    ensures Retained(entries, deleted)
  {
    var o, total := Order(entries), Sum(Listed(entries));
    RestOfAll(total, deleted);
    RestOfMore(total, deleted, o, |deleted|);
    forall k: nat | k < |deleted| ensures Heavy(Rest(total, deleted, k)) {
      RestOfMore(total, deleted, o, k);
      RestIsNotNegative(entries, k);
      LooksHeavyIsHeavy(Rest(total, o, k));
    }
  }

  lemma {:induction false} NoneStopsEarly(entries: seq<File>, deleted: seq<File>)
    requires Stopped(entries, deleted) && Retained(entries, deleted)
    ensures NoEarlyStop(entries)
  {
    var o, total := Order(entries), Sum(Listed(entries));
    RestOfAll(total, deleted);
    RestOfMore(total, deleted, o, |deleted|);
    forall k: nat | k <= |o| && Heavy(Rest(total, o, k)) ensures LooksHeavy(Rest(total, o, k)) {
      if k >= |deleted| { PrefixSum(o, |deleted|, k); }
      RestOfMore(total, deleted, o, k);
    }
  }

  lemma SmallTotal(entries: seq<File>)
    requires Sum(Listed(entries)) < 0x8000_0000
    ensures NoEarlyStop(entries)
  {
  }

  /** The counter serves its purpose exactly when it never stops early, which a total below two
      gigabytes ensures. */
  lemma RetentionIsExact(entries: seq<File>, deleted: seq<File>)
    requires Stopped(entries, deleted)
    ensures Retained(entries, deleted) <==> NoEarlyStop(entries)
    ensures Sum(Listed(entries)) < 0x8000_0000 ==> Retained(entries, deleted)
  {
    if Sum(Listed(entries)) < 0x8000_0000 { SmallTotal(entries); }
    if NoEarlyStop(entries) { StopsInTime(entries, deleted); }
    if Retained(entries, deleted) { NoneStopsEarly(entries, deleted); }
  }

  /** A hundred kilobytes at most remain. */
  lemma RetainedSize(entries: seq<File>, deleted: seq<File>)
    requires Retained(entries, deleted)
    ensures Sum(Listed(entries)) - Sum(deleted) <= 102400
    ensures Sum(Listed(entries)) <= 102400 ==> deleted == []
  {
    if deleted != [] { assert Heavy(Rest(Sum(Listed(entries)), deleted, 0)); }
  }

  /** Two files of a gigabyte: nothing is deleted. */
  lemma {:induction false} LargeFilesStay(f: File, g: File)
    requires f.size == g.size == 0x4000_0000 && !Dotted(f) && !Dotted(g)
    ensures Stopped([f, g], []) && !Retained([f, g], [])
  {
    var files := [f, g];
    assert files[..0] == [];
    ListedNext(files, 0);
    ListedNext(files, 1);
    assert files[..2] == files && Listed(files) == [g] + ([f] + []);
    SumFront(g, [f] + []);
    SumFront(f, []);
    assert Sum(Listed(files)) == 0x8000_0000;
  }

  lemma {:induction false} ListedNext(entries: seq<File>, i: nat)
    requires i < |entries|
    ensures Listed(entries[..i + 1]) == (if Dotted(entries[i]) then [] else [entries[i]]) + Listed(entries[..i])
  {
    assert entries[..i + 1][..i] == entries[..i];
    assert [] + Listed(entries[..i]) == Listed(entries[..i]);
  }
}
