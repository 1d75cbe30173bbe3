/** SortedVectorImpl of libmotou/MotoVectorImpl.cpp: a copy-on-write vector kept in key order. */
module SortedVector {
  import opened Options
  import opened StableSort
  import opened SortedSeq
  import opened CowVector

  /** _indexOrderOf: the index of an element with the key of x, and the place of that key. */
  method IndexOrderOf<T(!new)>(s: seq<T>, x: T, cmp: Compare<T>) returns (index: Option<nat>, order: nat)
    requires TotalPreorder(cmp) && Strict(s, cmp)
    ensures order == Position(s, x, cmp)
    ensures index == if Present(s, x, cmp) then Some(order) else None
  {
    index := None;
    var l, h := 0, |s| - 1;
    while l <= h
      invariant 0 <= l <= h + 1 <= |s|
      invariant forall i :: 0 <= i < l ==> cmp(s[i], x) < 0
      invariant forall i :: h < i < |s| ==> cmp(s[i], x) > 0
    {
      var mid := l + (h - l) / 2;
      var c := cmp(s[mid], x);
      Around(s, x, mid, cmp);
      if c == 0 {
        PositionUnique(s, x, mid, cmp);
        return Some(mid), mid;
      } else if c < 0 {
        l := mid + 1;
      } else {
        h := mid - 1;
      }
    }
    PositionUnique(s, x, l, cmp);
    order := l;
  }

  /** What one comparison tells about the elements on either side. */
  lemma Around<T(!new)>(s: seq<T>, x: T, m: nat, cmp: Compare<T>)
    requires TotalPreorder(cmp) && Strict(s, cmp) && m < |s|
    ensures cmp(s[m], x) <= 0 ==> forall i :: 0 <= i < m ==> cmp(s[i], x) < 0
    ensures cmp(s[m], x) >= 0 ==> forall i :: m < i < |s| ==> cmp(s[i], x) > 0
  {
    if cmp(s[m], x) <= 0 {
      forall i | 0 <= i < m ensures cmp(s[i], x) < 0 { Less(s[i], s[m], x, cmp); }
    }
    if cmp(s[m], x) >= 0 {
      forall i | m < i < |s| ensures cmp(s[i], x) > 0 { Less(x, s[m], s[i], cmp); }
    }
  }

  /** What add reports: the detach of a shared block decides a replacement, _grow an insertion. */
  function AddStatus<T>(s: seq<T>, x: T, cmp: Compare<T>, capacity: nat, limit: nat, shared: bool, allocOk: bool): Status {
    PlaceStatus(Present(s, x, cmp), Position(s, x, cmp), |s|, capacity, limit, shared, allocOk)
  }

  function PlaceStatus(found: bool, at: nat, count: nat, capacity: nat, limit: nat, shared: bool, allocOk: bool): Status {
    if found then if shared && !allocOk then Fatal else Done(at)
    else InsertStatus(at, 1, count, capacity, limit, shared, allocOk)
  }

  /** One more element than this has no room, in size_t or in the block that would be asked for. */
  predicate NoRoom(count: nat, capacity: nat, limit: nat) {
    count + 1 > SIZE_MAX || (capacity < count + 1 && GrownCapacity(count + 1) > limit)
  }

  /** With memory, add returns the place of x, or aborts exactly for a new key that has no room. */
  lemma AddWithMemory<T>(s: seq<T>, x: T, cmp: Compare<T>, capacity: nat, limit: nat, shared: bool)
    requires |s| <= capacity
    ensures AddStatus(s, x, cmp, capacity, limit, shared, true) ==
            if !Present(s, x, cmp) && NoRoom(|s|, capacity, limit) then Fatal else Done(Position(s, x, cmp))
  {
  }

  /** add. */
  method Add<T(!new)>(v: Vector<T>, x: T, cmp: Compare<T>, allocOk: bool) returns (st: Status)
    requires v.Valid() && TotalPreorder(cmp) && Strict(v.Contents(), cmp)
    modifies v, v.storage
    ensures st == AddStatus(old(v.Contents()), x, cmp, old(v.Capacity()), v.limit, old(v.Shared()), allocOk)
    ensures v.Valid() && v.Contents() == if st.Done? then Added(old(v.Contents()), x, cmp) else old(v.Contents())
    ensures !st.Done? ==> v.Capacity() == old(v.Capacity()) && v.Shared() == old(v.Shared())
    ensures v.storage == null || fresh(v.storage) || v.storage == old(v.storage)
    ensures Kept(old(v.storage), old(v.Holders()), old(v.Cells()), old(v.count), v)
  {
    AddedForms(v.Contents(), x, cmp);
    var index, order := IndexOrderOf(v.Contents(), x, cmp);
    st := Place(v, x, index.Some?, order, allocOk);
  }

  lemma AddedForms<T(!new)>(s: seq<T>, x: T, cmp: Compare<T>)
    ensures Added(s, x, cmp) ==
            if Present(s, x, cmp) then s[Position(s, x, cmp) := x] else Inserted(s, Position(s, x, cmp), [x])
  {
  }

  /** The two branches of add. */
  method Place<T>(v: Vector<T>, x: T, found: bool, at: nat, allocOk: bool) returns (st: Status)
    requires v.Valid() && at <= v.count && (found ==> at < v.count)
    modifies v, v.storage
    ensures st == PlaceStatus(found, at, old(v.count), old(v.Capacity()), v.limit, old(v.Shared()), allocOk)
    ensures v.Valid()
    ensures v.Contents() == if !st.Done? then old(v.Contents())
                            else if found then old(v.Contents())[at := x] else Inserted(old(v.Contents()), at, [x])
    ensures !st.Done? ==> v.Capacity() == old(v.Capacity()) && v.Shared() == old(v.Shared())
    ensures v.storage == null || fresh(v.storage) || v.storage == old(v.storage)
    ensures Kept(old(v.storage), old(v.Holders()), old(v.Cells()), old(v.count), v)
  {
    if found {
      st := v.ReplaceAt(x, at, allocOk);
    } else {
      assert Repeated(x, 1) == [x];
      st := v.InsertAt(x, at, 1, allocOk);
    }
  }

  /** remove. Its result is that of the search, whatever becomes of the removal. */
  method Remove<T(!new)>(v: Vector<T>, x: T, cmp: Compare<T>, allocOk: bool) returns (index: Option<nat>, abort: bool)
    requires v.Valid() && TotalPreorder(cmp) && Strict(v.Contents(), cmp)
    modifies v, v.storage
    ensures index == if old(Present(v.Contents(), x, cmp)) then Some(Position(old(v.Contents()), x, cmp)) else None
    ensures abort <==> index.Some? && !allocOk && old(v.Shared() && v.count - 1 >= v.Capacity() / 2)
    ensures v.Valid()
    ensures v.Contents() == if !allocOk && old(v.Shared() || v.count - 1 < v.Capacity() / 2)
                            then old(v.Contents()) else Dropped(old(v.Contents()), x, cmp)
    ensures v.storage == null || fresh(v.storage) || v.storage == old(v.storage)
    ensures Kept(old(v.storage), old(v.Holders()), old(v.Cells()), old(v.count), v)
  {
    var order;
    index, order := IndexOrderOf(v.Contents(), x, cmp);
    abort := false;
    if index.Some? {
      var st := v.RemoveItemsAt(index.value, 1, allocOk);
      abort := st == Fatal;
    }
  }

  lemma MergedStep<T(!new)>(s: seq<T>, t: seq<T>, n: nat, cmp: Compare<T>)
    requires TotalPreorder(cmp) && Strict(s, cmp) && n < |t|
    ensures Merged(s, t[..n + 1], cmp) == Added(Merged(s, t[..n], cmp), t[n], cmp)
    ensures Strict(Merged(s, t[..n], cmp), cmp)
  {
    assert t[..n + 1][..n] == t[..n];
    MergedStrict(s, t[..n], cmp);
  }

  /** A merge never shortens. */
  lemma {:induction false} MergedGrows<T>(s: seq<T>, t: seq<T>, n: nat, cmp: Compare<T>)
    requires n <= |t|
    ensures |Merged(s, t[..n], cmp)| <= |Merged(s, t, cmp)|
    decreases |t|
  {
    if n == |t| {
      assert t[..n] == t;
    } else {
      MergedGrows(s, t[..|t| - 1], n, cmp);
      assert t[..|t| - 1][..n] == t[..n];
    }
  }

  /** A stop of the naive merge after n adds: the next add fails, with the status it has then. */
  predicate Stops<T>(c: seq<T>, x: T, cmp: Compare<T>, capacity: nat, limit: nat, shared: bool, allocOk: bool, st: Status) {
    !st.Done? && st == AddStatus(c, x, cmp, capacity, limit, shared, allocOk)
  }

  /** A vector can grow to this length. */
  predicate RoomFor(count: nat, limit: nat) {
    count <= SIZE_MAX && GrownCapacity(count) <= limit
  }

  /** A merge for whose result there is room does not stop while it has memory. */
  lemma RoomForAll<T(!new)>(s: seq<T>, t: seq<T>, n: nat, cmp: Compare<T>, capacity: nat, limit: nat, shared: bool, st: Status)
    requires TotalPreorder(cmp) && Strict(s, cmp) && n < |t| && |Merged(s, t[..n], cmp)| <= capacity
    requires RoomFor(|Merged(s, t, cmp)|, limit)
    ensures !Stops(Merged(s, t[..n], cmp), t[n], cmp, capacity, limit, shared, true, st)
  {
    MergedStep(s, t, n, cmp);
    MergedGrows(s, t, n + 1, cmp);
    AddWithMemory(Merged(s, t[..n], cmp), t[n], cmp, capacity, limit, shared);
  }

  /** add of an element of another vector, which stays as it is. */
  method AddFrom<T(!new)>(v: Vector<T>, u: Vector<T>, n: nat, cmp: Compare<T>, allocOk: bool) returns (st: Status)
    requires v.Valid() && u.Valid() && u != v && n < u.count && TotalPreorder(cmp) && Strict(v.Contents(), cmp)
    modifies v, v.storage
    ensures v.Valid() && u.Valid() && u.Contents() == old(u.Contents())
    ensures v.Contents() == if st.Done? then Added(old(v.Contents()), u.Contents()[n], cmp) else old(v.Contents())
    ensures !st.Done? ==> Stops(v.Contents(), u.Contents()[n], cmp, v.Capacity(), v.limit, v.Shared(), allocOk, st)
    ensures v.storage == null || fresh(v.storage) || v.storage == old(v.storage)
    ensures Kept(old(v.storage), old(v.Holders()), old(v.Cells()), old(v.count), v)
  {
    st := Add(v, u.Contents()[n], cmp, allocOk);
    if u.storage != null && u.storage == old(v.storage) {
      OthersKept(u.storage, old(v.Holders()), old(v.Cells()), u.count, v, u);
    }
  }

  /** One round of merge. Before the first the receiver held block b with s in `cells`. */
  method AddNext<T(!new)>(v: Vector<T>, u: Vector<T>, n: nat, cmp: Compare<T>, allocOk: bool,
                          ghost s: seq<T>, ghost b: Buffer?<T>, ghost holders: set<Vector<T>>, ghost cells: seq<Cell<T>>) returns (st: Status)
    requires v.Valid() && u.Valid() && u != v && n < u.count && TotalPreorder(cmp) && Strict(s, cmp)
    requires v.Contents() == Merged(s, u.Contents()[..n], cmp) && Kept(b, holders, cells, |s|, v)
    modifies v, v.storage
    ensures v.Valid() && u.Valid() && u.Contents() == old(u.Contents())
    ensures v.Contents() == Merged(s, u.Contents()[..if st.Done? then n + 1 else n], cmp)
    ensures !st.Done? ==> Stops(v.Contents(), u.Contents()[n], cmp, v.Capacity(), v.limit, v.Shared(), allocOk, st)
    ensures v.storage == null || fresh(v.storage) || v.storage == old(v.storage)
    ensures Kept(b, holders, cells, |s|, v)
  {
    MergedStep(s, u.Contents(), n, cmp);
    st := AddFrom(v, u, n, cmp, allocOk);
    if b != null && b == old(v.storage) {
      KeptOn(b, holders, cells, |s|, v, old(v.Holders()), old(v.Cells()), old(v.count));
    }
  }

  /** The loop of merge: one add after another, until one fails. */
  method AddAll<T(!new)>(v: Vector<T>, u: Vector<T>, cmp: Compare<T>, allocOk: nat -> bool) returns (n: nat, st: Status)
    requires v.Valid() && u.Valid() && u != v && TotalPreorder(cmp) && Strict(v.Contents(), cmp)
    modifies v, v.storage
    ensures v.Valid() && u.Valid() && u.Contents() == old(u.Contents()) && n <= |u.Contents()|
    ensures v.Contents() == Merged(old(v.Contents()), u.Contents()[..n], cmp)
    ensures n == |u.Contents()| ==> st.Done?
    ensures n < |u.Contents()| ==> Stops(v.Contents(), u.Contents()[n], cmp, v.Capacity(), v.limit, v.Shared(), allocOk(n), st)
    ensures v.storage == null || fresh(v.storage) || v.storage == old(v.storage)
    ensures Kept(old(v.storage), old(v.Holders()), old(v.Cells()), old(v.count), v)
  {
    ghost var s, t, b, holders, cells := v.Contents(), u.Contents(), v.storage, v.Holders(), v.Cells();
    n, st := 0, Done(0);
    while n < u.count
      invariant v.Valid() && u.Valid() && u.Contents() == t && n <= |t| && st.Done?
      invariant v.Contents() == Merged(s, t[..n], cmp)
      invariant v.storage == null || fresh(v.storage) || v.storage == b
      invariant Kept(b, holders, cells, |s|, v)
    {
      st := AddNext(v, u, n, cmp, allocOk(n), s, b, holders, cells);
      if !st.Done? { return; }
      n := n + 1;
    }
  }

  /** merge of any vector: all of it, if it has memory and there is room. */
  method MergeVector<T(!new)>(v: Vector<T>, u: Vector<T>, cmp: Compare<T>, allocOk: nat -> bool) returns (n: nat, st: Status)
    requires v.Valid() && u.Valid() && u != v && TotalPreorder(cmp) && Strict(v.Contents(), cmp)
    modifies v, v.storage
    ensures v.Valid() && u.Valid() && u.Contents() == old(u.Contents()) && n <= |u.Contents()|
    ensures v.Contents() == Merged(old(v.Contents()), u.Contents()[..n], cmp)
    ensures n == |u.Contents()| ==> st.Done?
    ensures n < |u.Contents()| ==> Stops(v.Contents(), u.Contents()[n], cmp, v.Capacity(), v.limit, v.Shared(), allocOk(n), st)
    ensures (forall k :: allocOk(k)) && RoomFor(|Merged(old(v.Contents()), u.Contents(), cmp)|, v.limit) ==> st.Done?
    ensures v.storage == null || fresh(v.storage) || v.storage == old(v.storage)
    ensures Kept(old(v.storage), old(v.Holders()), old(v.Cells()), old(v.count), v)
  {
    ghost var s := v.Contents();
    n, st := AddAll(v, u, cmp, allocOk);
    if n < u.count && allocOk(n) && RoomFor(|Merged(s, u.Contents(), cmp)|, v.limit) {
      RoomForAll(s, u.Contents(), n, cmp, v.Capacity(), v.limit, v.Shared(), st);
    }
  }

  lemma InsertedAtEnds<T>(s: seq<T>, t: seq<T>)
    ensures Inserted(s, 0, t) == t + s && Inserted(s, |s|, t) == s + t
  {
  }

  /** insertVectorAt at the front, or appendVector. */
  method InsertAtEnd<T>(v: Vector<T>, u: Vector<T>, back: bool, allocOk: bool) returns (st: Status)
    requires v.Valid() && u.Valid() && u != v
    modifies v, v.storage
    ensures v.Valid() && u.Valid() && u.Contents() == old(u.Contents())
    ensures st == EndStatus(back, old(u.count), old(v.count), old(v.Capacity()), v.limit, old(v.Shared()), allocOk)
    ensures v.Contents() == if !st.Done? then old(v.Contents())
                            else if back then old(v.Contents()) + u.Contents() else u.Contents() + old(v.Contents())
    ensures v.storage == null || fresh(v.storage) || v.storage == old(v.storage)
    ensures Kept(old(v.storage), old(v.Holders()), old(v.Cells()), old(v.count), v)
  {
    InsertedAtEnds(v.Contents(), u.Contents());
    st := v.InsertVectorAt(u, if back then v.count else 0, allocOk);
    if u.storage != null && u.storage == old(v.storage) {
      OthersKept(u.storage, old(v.Holders()), old(v.Cells()), u.count, v, u);
    }
  }

  function EndStatus(back: bool, n: nat, count: nat, capacity: nat, limit: nat, shared: bool, allocOk: bool): Status {
    InsertStatus(if back then count else 0, n, count, capacity, limit, shared, allocOk)
  }

  lemma RoomAtEnd(back: bool, n: nat, count: nat, capacity: nat, limit: nat, shared: bool)
    requires count <= capacity && n > 0
    ensures RoomFor(count + n, limit) ==> EndStatus(back, n, count, capacity, limit, shared, true).Done?
  {
  }

  datatype Way = Keep | Front | Back | Naive

  /** The comparisons of merge. */
  function ChooseWay<T>(s: seq<T>, t: seq<T>, cmp: Compare<T>): (way: Way)
    requires s != []
    ensures FastMerged(s, t, cmp) == match way case Keep => s case Front => t + s case Back => s + t case Naive => Merged(s, t, cmp)
  {
    if t == [] then Keep
    else if cmp(t[|t| - 1], s[0]) <= 0 then Front
    else if cmp(t[0], s[|s| - 1]) >= 0 then Back
    else Naive
  }

  /** merge of a sorted vector into a non-empty one: n elements of the source are in the receiver
      when the naive merge was chosen, all or none otherwise. */
  method MergeSorted<T(!new)>(v: Vector<T>, u: Vector<T>, cmp: Compare<T>, allocOk: nat -> bool) returns (n: nat, st: Status)
    requires v.Valid() && u.Valid() && u != v && TotalPreorder(cmp)
    requires Strict(v.Contents(), cmp) && v.Contents() != []
    modifies v, v.storage
    ensures v.Valid() && u.Valid() && u.Contents() == old(u.Contents()) && n <= |u.Contents()|
    ensures st.Done? <==> n == |u.Contents()|
    ensures st.Done? ==> v.Contents() == FastMerged(old(v.Contents()), u.Contents(), cmp)
    ensures !st.Done? ==>
              match ChooseWay(old(v.Contents()), u.Contents(), cmp)
              case Keep => false
              case Naive =>
                && v.Contents() == Merged(old(v.Contents()), u.Contents()[..n], cmp)
                && Stops(v.Contents(), u.Contents()[n], cmp, v.Capacity(), v.limit, v.Shared(), allocOk(n), st)
              case way =>
                && n == 0 && v.Contents() == old(v.Contents())
                && st == EndStatus(way == Back, u.count, old(v.count), old(v.Capacity()), v.limit, old(v.Shared()), allocOk(0))
    ensures (forall k :: allocOk(k)) && RoomFor(|FastMerged(old(v.Contents()), u.Contents(), cmp)|, v.limit) ==> st.Done?
    ensures v.storage == null || fresh(v.storage) || v.storage == old(v.storage)
    ensures Kept(old(v.storage), old(v.Holders()), old(v.Cells()), old(v.count), v)
  {
    var s, t := v.Contents(), u.Contents();
    var way := ChooseWay(s, t, cmp);
    n, st := |t|, Done(0);
    assert t[..|t|] == t;
    if way == Naive {
      n, st := MergeVector(v, u, cmp, allocOk);
    } else if way != Keep {
      RoomAtEnd(way == Back, |t|, |s|, v.Capacity(), v.limit, v.Shared());
      st := InsertAtEnd(v, u, way == Back, allocOk(0));
      if !st.Done? { n := 0; }
    }
  }
}
