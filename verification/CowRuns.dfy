/** Whole runs over a family of copy-on-write vectors (libmotou/MotoVectorImpl.cpp), against plain
    sequences that share nothing. */
module CowRuns {
  import opened CowVector
  import opened StableSort

  /** An operation on one vector; InsertVector reads another one. */
  datatype Edit<!T> =
    | InsertArray(items: seq<T>, index: nat)
    | InsertVector(index: nat)
    | InsertCopies(item: T, index: nat, n: nat)
    | Push(item: T)
    | Pop
    | Remove(index: nat, n: nat)
    | Clear
    | Replace(item: T, index: nat)
    | SetCapacity(capacity: nat)
    | Resize(size: nat, default: T)
    | Sort(cmp: Compare<T>)
    | Finish

  /** The same operation on a plain sequence c, reading d. Requests out of range do nothing. */
  function Plain<T>(e: Edit<T>, c: seq<T>, d: seq<T>): seq<T> {
    match e
    case InsertArray(items, index) => if index > |c| then c else Inserted(c, index, items)
    case InsertVector(index) => if index > |c| then c else Inserted(c, index, d)
    case InsertCopies(item, index, n) => if index > |c| then c else Inserted(c, index, Repeated(item, n))
    case Push(item) => c + [item]
    case Pop => if c == [] then c else c[..|c| - 1]
    case Remove(index, n) => if index + n > |c| then c else Removed(c, index, n)
    case Clear => []
    case Replace(item, index) => if index >= |c| then c else c[index := item]
    case SetCapacity(_) => c
    case Resize(size, default) => Resized(c, size, default)
    case Sort(cmp) => Sorted(c, cmp)
    case Finish => []
  }

  /** An operation on the family. */
  datatype Op<!T> =
    | Edit(v: nat, from: nat, edit: Edit<T>)
    | Assign(v: nat, from: nat)
    | Copy(from: nat)   // construct a new member

  /** A vector is not inserted into itself. */
  predicate Permitted<T>(e: Edit<T>, self: bool) { e.InsertVector? ==> !self }

  predicate InRange<T>(op: Op<T>, n: nat) {
    match op
    case Edit(v, u, e) => v < n && u < n && Permitted(e, v == u)
    case Assign(v, u) => v < n && u < n
    case Copy(u) => u < n
  }

  function PlainOp<T>(op: Op<T>, cs: seq<seq<T>>): seq<seq<T>>
    requires InRange(op, |cs|)
  {
    match op
    case Edit(v, u, e) => cs[v := Plain(e, cs[v], cs[u])]
    case Assign(v, u) => cs[v := cs[u]]
    case Copy(u) => cs + [cs[u]]
  }

  predicate AllInRange<T>(ops: seq<Op<T>>, n: nat) {
    ops == [] || (InRange(ops[0], n) && AllInRange(ops[1..], if ops[0].Copy? then n + 1 else n))
  }

  function PlainRun<T>(ops: seq<Op<T>>, cs: seq<seq<T>>): seq<seq<T>>
    requires AllInRange(ops, |cs|)
  {
    if ops == [] then cs else PlainRun(ops[1..], PlainOp(ops[0], cs))
  }

  // ---- what an operation reports and leaves ----

  function EditStatus<T>(e: Edit<T>, c: seq<T>, other: nat, capacity: nat, limit: nat, shared: bool, allocOk: bool): Status {
    var stuck := shared && !allocOk;   // the block cannot be detached
    match e
    case InsertArray(items, index) => InsertStatus(index, |items|, |c|, capacity, limit, shared, allocOk)
    case InsertVector(index) => InsertStatus(index, other, |c|, capacity, limit, shared, allocOk)
    case InsertCopies(_, index, n) => InsertStatus(index, n, |c|, capacity, limit, shared, allocOk)
    case Push(_) => InsertStatus(|c|, 1, |c|, capacity, limit, shared, allocOk)
    case Pop =>
      if c == [] then Done(0) else if stuck && |c| - 1 >= capacity / 2 then Fatal else Done(|c| - 1)
    case Remove(index, n) => RemoveStatus(index, n, |c|, capacity, shared, allocOk)
    case Clear => if stuck && 0 >= capacity / 2 then Fatal else Done(0)
    case Replace(_, index) => if index >= |c| then BadIndex else if stuck then Fatal else Done(index)
    case SetCapacity(n) =>
      if n <= |c| then Done(capacity) else if n > limit then Fatal else if allocOk then Done(n) else NoMemory
    case Resize(size, _) => ResizeStatus(size, |c|, capacity, limit, shared, allocOk)
    case Sort(cmp) =>
      if NoDescent(c, cmp) then Done(0) else if stuck then Fatal else if allocOk then Done(0) else NoMemory
    case Finish => Done(0)
  }

  /** A removal that gives up without telling: the smaller block it wanted was not to be had. */
  predicate Silent<T>(e: Edit<T>, count: nat, capacity: nat, allocOk: bool) {
    !allocOk && match e
                case Pop => count - 1 < capacity / 2
                case Remove(_, n) => count - n < capacity / 2
                case Clear => 0 < capacity / 2
                case Resize(size, _) => size < count && size < capacity / 2
                case _ => false
  }

  /** What an edit leaves of contents c, reading d: all of the plain operation or nothing. */
  function Left<T>(e: Edit<T>, c: seq<T>, d: seq<T>, capacity: nat, limit: nat, shared: bool, allocOk: bool): seq<T> {
    if EditStatus(e, c, |d|, capacity, limit, shared, allocOk).Done? && !Silent(e, |c|, capacity, allocOk)
    then Plain(e, c, d) else c
  }

  /** Room for n more elements would take more elements, or more bytes, than size_t can count. */
  predicate TooMany(n: nat, count: nat, capacity: nat, limit: nat) {
    count + n > 0xFFFF_FFFF || (capacity < count + n && GrownCapacity(count + n) > limit)
  }

  /** With memory to be had, an edit aborts exactly when a size or a size in bytes overflows. */
  predicate Overflows<T>(e: Edit<T>, count: nat, other: nat, capacity: nat, limit: nat) {
    match e
    case InsertArray(items, index) => index <= count && TooMany(|items|, count, capacity, limit)
    case InsertVector(index) => index <= count && TooMany(other, count, capacity, limit)
    case InsertCopies(_, index, n) => index <= count && TooMany(n, count, capacity, limit)
    case Push(_) => TooMany(1, count, capacity, limit)
    case Remove(index, n) => (index + n) % SIZES <= count && capacity > 0 && n > count
    case SetCapacity(c) => c > count && c > limit
    case Resize(size, _) => size > count && TooMany(size - count, count, capacity, limit)
    case _ => false
  }

  predicate Strays<T>(e: Edit<T>, count: nat, capacity: nat) {
    e.Remove? && e.index + e.n > SIZE_MAX && (e.index + e.n) % SIZES <= count && capacity > 0 && e.n <= count
  }

  /** An edit that asks for no more than size_t can hold, whatever the capacity is. */
  predicate Fits<T>(e: Edit<T>, c: seq<T>, d: seq<T>, limit: nat) {
    var n := |Plain(e, c, d)|;
    && (n > |c| ==> GrownCapacity(n) <= limit)
    && (e.SetCapacity? && e.capacity > |c| ==> e.capacity <= limit)
    && (e.Remove? ==> e.index + e.n <= SIZE_MAX)
  }

  lemma NotTooMany(n: nat, count: nat, capacity: nat, limit: nat)
    requires (n > 0 ==> GrownCapacity(count + n) <= limit) && count <= capacity && count <= SIZE_MAX && limit <= SIZE_MAX
    ensures !TooMany(n, count, capacity, limit)
  {
  }

  lemma FitsIsNoOverflow<T>(e: Edit<T>, c: seq<T>, d: seq<T>, capacity: nat, limit: nat)
    requires Fits(e, c, d, limit) && |c| <= capacity && |c| <= SIZE_MAX && limit <= SIZE_MAX
    ensures !Overflows(e, |c|, |d|, capacity, limit) && !Strays(e, |c|, capacity)
  {
    match e
    case InsertArray(items, index) => if index <= |c| { NotTooMany(|items|, |c|, capacity, limit); }
    case InsertVector(index) => if index <= |c| { NotTooMany(|d|, |c|, capacity, limit); }
    case InsertCopies(_, index, n) => if index <= |c| { NotTooMany(n, |c|, capacity, limit); }
    case Push(_) => NotTooMany(1, |c|, capacity, limit);
    case Resize(size, _) => if size > |c| { NotTooMany(size - |c|, |c|, capacity, limit); }
    case _ =>
  }

  predicate FitsOp<T>(op: Op<T>, cs: seq<seq<T>>, limit: nat)
    requires InRange(op, |cs|)
  {
    op.Edit? ==> Fits(op.edit, cs[op.v], cs[op.from], limit)
  }

  predicate AllFit<T>(ops: seq<Op<T>>, cs: seq<seq<T>>, limit: nat)
    requires AllInRange(ops, |cs|)
  {
    ops == [] || (FitsOp(ops[0], cs, limit) && AllFit(ops[1..], PlainOp(ops[0], cs), limit))
  }

  /** With memory to be had, an edit aborts on an overflow and in no other case, leaves the block
      exactly for a removal whose index and count wrap into range, and if it does neither, is the
      plain operation. */
  lemma WithMemory<T>(e: Edit<T>, c: seq<T>, d: seq<T>, capacity: nat, limit: nat, shared: bool)
    requires |c| <= capacity && |c| <= SIZE_MAX
    ensures EditStatus(e, c, |d|, capacity, limit, shared, true) == Fatal <==> Overflows(e, |c|, |d|, capacity, limit)
    ensures EditStatus(e, c, |d|, capacity, limit, shared, true) == Stray <==> Strays(e, |c|, capacity)
    ensures EditStatus(e, c, |d|, capacity, limit, shared, true) != Fatal ==>
              Left(e, c, d, capacity, limit, shared, true) == Plain(e, c, d)
  {
    var st := EditStatus(e, c, |d|, capacity, limit, shared, true);
    if st != Fatal && !st.Done? { NothingToDo(e, c, d, capacity, limit, shared); }
  }

  /** The other errors are reported of requests that change nothing. */
  lemma NothingToDo<T>(e: Edit<T>, c: seq<T>, d: seq<T>, capacity: nat, limit: nat, shared: bool)
    requires |c| <= capacity && |c| <= SIZE_MAX
    requires EditStatus(e, c, |d|, capacity, limit, shared, true) in {BadIndex, BadValue, NoMemory, Stray}
    ensures Plain(e, c, d) == c
  {
    if e.Remove? {
      Wrapped(e.index + e.n, |c|);
    } else if (e.InsertArray? || e.InsertVector? || e.InsertCopies?) && e.index <= |c| {
      EmptyInsert(c, e.index);
    }
  }

  lemma EmptyInsert<T>(c: seq<T>, at: nat)
    requires at <= |c|
    ensures Inserted(c, at, []) == c
  {
  }

  lemma Wrapped(sum: nat, count: nat)
    ensures sum % SIZES > count ==> sum > count
    ensures sum <= SIZE_MAX ==> sum % SIZES == sum
  {
  }

  /** What a removal leaves, without its status. */
  lemma RemoveLeaves<T>(e: Edit<T>, c: seq<T>, d: seq<T>, capacity: nat, limit: nat, shared: bool, allocOk: bool)
    requires e.Remove? && |c| <= capacity && |c| <= SIZE_MAX
    ensures Left(e, c, d, capacity, limit, shared, allocOk) ==
            if e.index + e.n > |c| || (!allocOk && (shared || |c| - e.n < capacity / 2)) then c else Removed(c, e.index, e.n)
  {
    Wrapped(e.index + e.n, |c|);
  }

  // ---- one operation ----

  method Insertion<T>(v: Vector<T>, u: Vector<T>, e: Edit<T>, allocOk: bool) returns (st: Status)
    requires v.Valid() && u.Valid() && Permitted(e, u == v)
    requires e.InsertArray? || e.InsertVector? || e.InsertCopies?
    modifies v, v.storage
    ensures v.Valid()
    ensures st == EditStatus(e, old(v.Contents()), old(u.count), old(v.Capacity()), v.limit, old(v.Shared()), allocOk)
    ensures v.Contents() == Left(e, old(v.Contents()), old(u.Contents()), old(v.Capacity()), v.limit, old(v.Shared()), allocOk)
    ensures v.Holders() <= old(v.Holders()) + {v} && (v.storage == null || fresh(v.storage) || v.storage == old(v.storage))
    ensures Kept(old(v.storage), old(v.Holders()), old(v.Cells()), old(v.count), v)
  {
    ghost var c, d, capacity, shared := v.Contents(), u.Contents(), v.Capacity(), v.Shared();
    ghost var status := EditStatus(e, c, |d|, capacity, v.limit, shared, allocOk);
    ghost var left := Left(e, c, d, capacity, v.limit, shared, allocOk);
    match e
    case InsertArray(items, index) => st := v.InsertArrayAt(items, index, allocOk);
    case InsertVector(index) => st := v.InsertVectorAt(u, index, allocOk);
    case InsertCopies(item, index, n) => st := v.InsertAt(item, index, n, allocOk);
    assert st == status && v.Contents() == left;
  }

  method Sizing<T>(v: Vector<T>, u: Vector<T>, e: Edit<T>, allocOk: bool) returns (st: Status)
    requires v.Valid() && u.Valid() && Permitted(e, u == v)
    requires e.Push? || e.SetCapacity? || e.Resize?
    modifies v, v.storage
    ensures v.Valid()
    ensures st == EditStatus(e, old(v.Contents()), old(u.count), old(v.Capacity()), v.limit, old(v.Shared()), allocOk)
    ensures v.Contents() == Left(e, old(v.Contents()), old(u.Contents()), old(v.Capacity()), v.limit, old(v.Shared()), allocOk)
    ensures v.Holders() <= old(v.Holders()) + {v} && (v.storage == null || fresh(v.storage) || v.storage == old(v.storage))
    ensures Kept(old(v.storage), old(v.Holders()), old(v.Cells()), old(v.count), v)
  {
    ghost var c, d, capacity, shared := v.Contents(), u.Contents(), v.Capacity(), v.Shared();
    ghost var status := EditStatus(e, c, |d|, capacity, v.limit, shared, allocOk);
    ghost var left := Left(e, c, d, capacity, v.limit, shared, allocOk);
    match e
    case Push(item) => st := v.Push(item, allocOk);
    case SetCapacity(capacity) => st := v.SetCapacity(capacity, allocOk);
    case Resize(size, default) => st := v.Resize(size, default, allocOk);
    assert st == status && v.Contents() == left;
  }

  method Removal<T>(v: Vector<T>, u: Vector<T>, e: Edit<T>, allocOk: bool) returns (st: Status)
    requires v.Valid() && u.Valid() && Permitted(e, u == v)
    requires e.Pop? || e.Clear?
    modifies v, v.storage
    ensures v.Valid()
    ensures st == EditStatus(e, old(v.Contents()), old(u.count), old(v.Capacity()), v.limit, old(v.Shared()), allocOk)
    ensures v.Contents() == Left(e, old(v.Contents()), old(u.Contents()), old(v.Capacity()), v.limit, old(v.Shared()), allocOk)
    ensures v.Holders() <= old(v.Holders()) + {v} && (v.storage == null || fresh(v.storage) || v.storage == old(v.storage))
    ensures Kept(old(v.storage), old(v.Holders()), old(v.Cells()), old(v.count), v)
  {
    ghost var c, d, capacity, shared := v.Contents(), u.Contents(), v.Capacity(), v.Shared();
    ghost var status := EditStatus(e, c, |d|, capacity, v.limit, shared, allocOk);
    ghost var left := Left(e, c, d, capacity, v.limit, shared, allocOk);
    match e
    case Pop => st := v.Pop(allocOk);
    case Clear =>
      var ok := v.Clear(allocOk);
      st := if ok then Done(0) else Fatal;
    assert st == status && v.Contents() == left;
  }

  method RemoveRange<T>(v: Vector<T>, u: Vector<T>, e: Edit<T>, allocOk: bool) returns (st: Status)
    requires v.Valid() && u.Valid() && Permitted(e, u == v)
    requires e.Remove?
    modifies v, v.storage
    ensures v.Valid()
    ensures st == EditStatus(e, old(v.Contents()), old(u.count), old(v.Capacity()), v.limit, old(v.Shared()), allocOk)
    ensures v.Contents() == Left(e, old(v.Contents()), old(u.Contents()), old(v.Capacity()), v.limit, old(v.Shared()), allocOk)
    ensures v.Holders() <= old(v.Holders()) + {v} && (v.storage == null || fresh(v.storage) || v.storage == old(v.storage))
    ensures Kept(old(v.storage), old(v.Holders()), old(v.Cells()), old(v.count), v)
  {
    RemoveLeaves(e, v.Contents(), u.Contents(), v.Capacity(), v.limit, v.Shared(), allocOk);
    st := v.RemoveItemsAt(e.index, e.n, allocOk);
  }

  method Rewriting<T>(v: Vector<T>, u: Vector<T>, e: Edit<T>, allocOk: bool) returns (st: Status)
    requires v.Valid() && u.Valid() && Permitted(e, u == v)
    requires e.Replace? || e.Sort? || e.Finish?
    modifies v, v.storage
    ensures v.Valid()
    ensures st == EditStatus(e, old(v.Contents()), old(u.count), old(v.Capacity()), v.limit, old(v.Shared()), allocOk)
    ensures v.Contents() == Left(e, old(v.Contents()), old(u.Contents()), old(v.Capacity()), v.limit, old(v.Shared()), allocOk)
    ensures v.Holders() <= old(v.Holders()) + {v} && (v.storage == null || fresh(v.storage) || v.storage == old(v.storage))
    ensures Kept(old(v.storage), old(v.Holders()), old(v.Cells()), old(v.count), v)
  {
    ghost var c, d, capacity, shared := v.Contents(), u.Contents(), v.Capacity(), v.Shared();
    ghost var status := EditStatus(e, c, |d|, capacity, v.limit, shared, allocOk);
    ghost var left := Left(e, c, d, capacity, v.limit, shared, allocOk);
    match e
    case Replace(item, index) => st := v.ReplaceAt(item, index, allocOk);
    case Sort(cmp) => st := v.Sort(cmp, allocOk, allocOk);
    case Finish =>
      v.Finish();
      st := Done(0);
    assert st == status && v.Contents() == left;
  }

  method EditVector<T>(v: Vector<T>, u: Vector<T>, e: Edit<T>, allocOk: bool) returns (st: Status)
    requires v.Valid() && u.Valid() && Permitted(e, u == v)
    modifies v, v.storage
    ensures v.Valid()
    ensures st == EditStatus(e, old(v.Contents()), old(u.count), old(v.Capacity()), v.limit, old(v.Shared()), allocOk)
    ensures v.Contents() == Left(e, old(v.Contents()), old(u.Contents()), old(v.Capacity()), v.limit, old(v.Shared()), allocOk)
    ensures v.Holders() <= old(v.Holders()) + {v} && (v.storage == null || fresh(v.storage) || v.storage == old(v.storage))
    ensures Kept(old(v.storage), old(v.Holders()), old(v.Cells()), old(v.count), v)
  {
    match e
    case InsertArray(_, _) | InsertVector(_) | InsertCopies(_, _, _) => st := Insertion(v, u, e, allocOk);
    case Push(_) | SetCapacity(_) | Resize(_, _) => st := Sizing(v, u, e, allocOk);
    case Pop | Clear => st := Removal(v, u, e, allocOk);
    case Remove(_, _) => st := RemoveRange(v, u, e, allocOk);
    case Replace(_, _) | Sort(_) | Finish => st := Rewriting(v, u, e, allocOk);
  }

  // ---- the family ----

  /** Valid vectors that share storage only among themselves. */
  ghost predicate Closed<T>(fam: set<Vector<T>>)
    reads *
  {
    forall v :: v in fam ==> v.Valid() && v.Holders() <= fam
  }

  ghost function Blocks<T>(fam: set<Vector<T>>): (r: set<Buffer<T>>)
    reads fam
    ensures forall v :: v in fam && v.storage != null ==> v.storage in r
  {
    set v | v in fam && v.storage != null :: v.storage
  }

  /** The blocks of a family in which only v has moved. */
  lemma BlocksMoved<T>(fam: set<Vector<T>>, v: Vector<T>, before: set<Buffer<T>>)
    requires forall w :: w in fam && w != v && w.storage != null ==> w.storage in before
    ensures Blocks(fam) - before <= if v.storage == null then {} else {v.storage}
  {
  }

  /** After a change of v the family is closed and the members that hold v's old block b with it
      have their old contents, if the others were left alone. */
  lemma FamilyKept<T>(fam: set<Vector<T>>, v: Vector<T>, b: Buffer?<T>, holders: set<Vector<T>>, cells: seq<Cell<T>>, n: nat)
    requires v in fam && v.Valid() && v.Holders() <= fam && Kept(b, holders, cells, n, v) && holders <= fam
    requires b != null ==> n <= SIZE_MAX && Packed(cells, n) && cells != [] && forall x :: x in holders && x != v ==> x.storage == b && x.count == n
    requires forall w :: w in fam && w != v && (b == null || w !in holders) ==> w.Valid() && w.Holders() <= fam
    ensures Closed(fam)
    ensures b != null ==> forall w :: w in holders && w != v ==> w.Contents() == Values(cells, n)
  {
    if b != null {
      forall w | w in holders && w != v ensures w.Valid() && w.Contents() == Values(cells, n) && w.Holders() <= fam {
        OthersKept(b, holders, cells, n, v, w);
      }
    }
  }

  /** The members that do not hold v's block are left alone. */
  method EditBeside<T>(ghost fam: set<Vector<T>>, v: Vector<T>, u: Vector<T>, e: Edit<T>, allocOk: bool) returns (st: Status)
    requires Closed(fam) && v in fam && u in fam && Permitted(e, u == v)
    modifies v, v.storage
    ensures v.Valid() && v.Holders() <= fam && (v.storage == null || fresh(v.storage) || v.storage == old(v.storage))
    ensures st == EditStatus(e, old(v.Contents()), old(u.count), old(v.Capacity()), v.limit, old(v.Shared()), allocOk)
    ensures v.Contents() == Left(e, old(v.Contents()), old(u.Contents()), old(v.Capacity()), v.limit, old(v.Shared()), allocOk)
    ensures Kept(old(v.storage), old(v.Holders()), old(v.Cells()), old(v.count), v)
    ensures forall w :: w in fam && w != v && w !in old(v.Holders()) ==> w.Valid() && w.Holders() <= fam && w.Contents() == old(w.Contents())
  {
    st := EditVector(v, u, e, allocOk);
    forall w | w in fam && w != v && w !in old(v.Holders())
      ensures w.Valid() && w.Holders() <= fam && w.Contents() == old(w.Contents())
    {
      assert old(w.Valid()) && old(w.Holders()) <= fam;
      if w.storage != null {
        assert w.storage != old(v.storage) && unchanged(w.storage);
        assert v !in w.storage.holders;
      }
    }
  }

  method EditIn<T>(ghost fam: set<Vector<T>>, v: Vector<T>, u: Vector<T>, e: Edit<T>, allocOk: bool) returns (st: Status)
    requires Closed(fam) && v in fam && u in fam && Permitted(e, u == v)
    modifies fam, Blocks(fam)
    ensures Closed(fam) && fresh(Blocks(fam) - old(Blocks(fam)))
    ensures st == EditStatus(e, old(v.Contents()), old(u.count), old(v.Capacity()), v.limit, old(v.Shared()), allocOk)
    ensures v.Contents() == Left(e, old(v.Contents()), old(u.Contents()), old(v.Capacity()), v.limit, old(v.Shared()), allocOk)
    ensures forall w :: w in fam && w != v ==> w.Contents() == old(w.Contents())
  {
    st := EditBeside(fam, v, u, e, allocOk);
    BlocksMoved(fam, v, old(Blocks(fam)));
    FamilyKept(fam, v, old(v.storage), old(v.Holders()), old(v.Cells()), old(v.count));
  }

  method AssignIn<T>(ghost fam: set<Vector<T>>, v: Vector<T>, u: Vector<T>)
    requires Closed(fam) && v in fam && u in fam
    modifies fam, Blocks(fam)
    ensures Closed(fam) && Blocks(fam) <= old(Blocks(fam))
    ensures v.Contents() == old(u.Contents())
    ensures forall w :: w in fam && w != v ==> w.Contents() == old(w.Contents())
  {
    if u != v && u.count != 0 {
      ShareIn(fam, v, u);
    } else if u != v {
      EmptyIn(fam, v, u);
    } else {
      v.Assign(u);
    }
  }

  method EmptyIn<T>(ghost fam: set<Vector<T>>, v: Vector<T>, u: Vector<T>)
    requires Closed(fam) && v in fam && u in fam && u != v && u.count == 0
    modifies fam, Blocks(fam)
    ensures Closed(fam) && Blocks(fam) <= old(Blocks(fam))
    ensures v.Contents() == old(u.Contents())
    ensures forall w :: w in fam && w != v ==> w.Contents() == old(w.Contents())
  {
    v.Assign(u);
    forall w | w in fam && w != v && w !in old(v.Holders())
      ensures w.Valid() && w.Holders() <= fam && w.Contents() == old(w.Contents())
    {
      assert old(w.Valid()) && old(w.Holders()) <= fam && (w.storage != null ==> unchanged(w.storage));
    }
    FamilyKept(fam, v, old(v.storage), old(v.Holders()), old(v.Cells()), old(v.count));
  }

  method ShareIn<T>(ghost fam: set<Vector<T>>, v: Vector<T>, u: Vector<T>)
    requires Closed(fam) && v in fam && u in fam && u != v && u.count != 0
    modifies fam, Blocks(fam)
    ensures Closed(fam) && Blocks(fam) <= old(Blocks(fam))
    ensures v.Contents() == old(u.Contents())
    ensures forall w :: w in fam && w != v ==> w.Contents() == old(w.Contents())
  {
    v.Assign(u);
    forall w | w in fam && w != v
      ensures w.Valid() && w.Contents() == old(w.Contents()) && w.Holders() <= fam
    {
      if w.storage != null && w.storage == u.storage {
        JoinedValid(w.storage, old(u.Holders()), old(u.Cells()), w.count, v);
      } else if w.storage != null && w.storage == old(v.storage) {
        OthersKept(w.storage, old(v.Holders()), old(v.Cells()), w.count, v, w);
      }
    }
  }

  method CopyIn<T>(ghost fam: set<Vector<T>>, u: Vector<T>) returns (v: Vector<T>)
    requires Closed(fam) && u in fam
    modifies Blocks(fam)
    ensures fresh(v) && Closed(fam + {v}) && Blocks(fam + {v}) <= old(Blocks(fam)) && v.limit == u.limit
    ensures v.Contents() == old(u.Contents()) && forall w :: w in fam ==> w.Contents() == old(w.Contents())
  {
    v := new Vector.Copy(u);
    forall w | w in fam
      ensures w.Valid() && w.Contents() == old(w.Contents()) && w.Holders() <= fam + {v}
    {
      assert old(w.Valid()) && old(w.Holders()) <= fam;
      if w.storage != null && w.storage == u.storage {
        JoinedValid(w.storage, old(u.Holders()), old(u.Cells()), w.count, v);
      } else if w.storage != null {
        assert unchanged(w.storage);
      }
    }
  }

  // ---- the family in a row ----

  ghost function Members<T>(vs: seq<Vector<T>>): (r: set<Vector<T>>)
    ensures forall i :: 0 <= i < |vs| ==> vs[i] in r
  {
    set i | 0 <= i < |vs| :: vs[i]
  }

  ghost predicate Distinct<T>(vs: seq<Vector<T>>) {
    forall i, j :: 0 <= i < j < |vs| ==> vs[i] != vs[j]
  }

  /** Distinct vectors of one element size, closed under sharing. */
  ghost predicate Family<T>(vs: seq<Vector<T>>, limit: nat)
    reads *
  {
    Distinct(vs) && Closed(Members(vs)) && limit <= SIZE_MAX && forall i :: 0 <= i < |vs| ==> vs[i].limit == limit
  }

  ghost function Snapshot<T>(vs: seq<Vector<T>>): (r: seq<seq<T>>)
    requires Closed(Members(vs))
    reads *
    ensures |r| == |vs| && forall i :: 0 <= i < |vs| ==> r[i] == vs[i].Contents()
  {
    seq(|vs|, i requires 0 <= i < |vs| && Closed(Members(vs)) reads * => vs[i].Contents())
  }

  lemma SnapshotPut<T>(vs: seq<Vector<T>>, k: nat, before: seq<seq<T>>)
    requires Closed(Members(vs)) && Distinct(vs) && k < |vs| == |before|
    requires forall i :: 0 <= i < |vs| && i != k ==> vs[i].Contents() == before[i]
    ensures Snapshot(vs) == before[k := vs[k].Contents()]
  {
  }

  /** What an operation on the family reports. */
  ghost function OpStatus<T>(op: Op<T>, vs: seq<Vector<T>>, allocOk: bool): Status
    requires InRange(op, |vs|) && Closed(Members(vs))
    reads *
  {
    match op
    case Edit(k, u, e) =>
      EditStatus(e, vs[k].Contents(), vs[u].count, vs[k].Capacity(), vs[k].limit, vs[k].Shared(), allocOk)
    case _ => Done(0)
  }

  /** What it leaves in the members. */
  ghost function OpLeft<T>(op: Op<T>, vs: seq<Vector<T>>, allocOk: bool): seq<seq<T>>
    requires InRange(op, |vs|) && Closed(Members(vs))
    reads *
  {
    match op
    case Edit(k, u, e) =>
      Snapshot(vs)[k := Left(e, vs[k].Contents(), vs[u].Contents(), vs[k].Capacity(), vs[k].limit, vs[k].Shared(), allocOk)]
    case _ => PlainOp(op, Snapshot(vs))
  }

  method EditMember<T>(vs: seq<Vector<T>>, k: nat, u: nat, e: Edit<T>, allocOk: bool, ghost limit: nat) returns (st: Status)
    requires Family(vs, limit) && k < |vs| && u < |vs| && Permitted(e, k == u)
    modifies Members(vs), Blocks(Members(vs))
    ensures Family(vs, limit) && fresh(Blocks(Members(vs)) - old(Blocks(Members(vs))))
    ensures st == old(OpStatus(Edit(k, u, e), vs, allocOk)) && Snapshot(vs) == old(OpLeft(Edit(k, u, e), vs, allocOk))
  {
    ghost var before := Snapshot(vs);
    assert k != u ==> vs[k] != vs[u];
    st := EditIn(Members(vs), vs[k], vs[u], e, allocOk);
    SnapshotPut(vs, k, before);
  }

  method AssignMember<T>(vs: seq<Vector<T>>, k: nat, u: nat, ghost limit: nat)
    requires Family(vs, limit) && k < |vs| && u < |vs|
    modifies Members(vs), Blocks(Members(vs))
    ensures Family(vs, limit) && Blocks(Members(vs)) <= old(Blocks(Members(vs)))
    ensures Snapshot(vs) == PlainOp(Assign(k, u), old(Snapshot(vs)))
  {
    ghost var before := Snapshot(vs);
    AssignIn(Members(vs), vs[k], vs[u]);
    SnapshotPut(vs, k, before);
  }

  lemma MembersGrown<T>(vs: seq<Vector<T>>, v: Vector<T>)
    ensures Members(vs + [v]) == Members(vs) + {v}
  {
    var now := vs + [v];
    forall w | w in Members(vs) ensures w in Members(now) {
      var i :| 0 <= i < |vs| && vs[i] == w;
      assert now[i] == w;
    }
    assert now[|vs|] == v;
  }

  /** The family with a new member, whose snapshot was `before` without it. */
  lemma FamilyGrown<T>(vs: seq<Vector<T>>, v: Vector<T>, before: seq<seq<T>>, limit: nat)
    requires Distinct(vs) && v !in vs && v.limit == limit <= SIZE_MAX && Closed(Members(vs) + {v})
    requires |before| == |vs| && forall i :: 0 <= i < |vs| ==> vs[i].limit == limit
    requires forall i :: 0 <= i < |vs| ==> vs[i].Valid() && vs[i].Contents() == before[i]
    ensures Family(vs + [v], limit) && Members(vs + [v]) == Members(vs) + {v} && Members(vs + [v]) - Members(vs) == {v} && v.Valid()
    ensures Snapshot(vs + [v]) == before + [v.Contents()]
  {
    MembersGrown(vs, v);
    assert v in Members(vs) + {v};
    var now := vs + [v];
    forall i | 0 <= i < |now| ensures Snapshot(now)[i] == (before + [v.Contents()])[i] {
      if i < |vs| { assert now[i] == vs[i]; }
    }
  }

  method CopyMember<T>(vs: seq<Vector<T>>, u: nat, ghost limit: nat) returns (v: Vector<T>)
    requires Family(vs, limit) && u < |vs|
    modifies Blocks(Members(vs))
    ensures fresh(v) && Members(vs + [v]) == Members(vs) + {v} && Blocks(Members(vs + [v])) <= old(Blocks(Members(vs)))
    ensures Family(vs + [v], limit) && Snapshot(vs + [v]) == old(Snapshot(vs)) + [old(Snapshot(vs))[u]]
  {
    ghost var before := Snapshot(vs);
    v := CopyIn(Members(vs), vs[u]);
    forall i | 0 <= i < |vs| ensures vs[i].Valid() && vs[i].Contents() == before[i] {
      assert vs[i] in Members(vs) + {v};
    }
    FamilyGrown(vs, v, before, limit);
  }

  /** One operation, with or without memory. */
  method Step<T>(vs: seq<Vector<T>>, op: Op<T>, allocOk: bool, ghost limit: nat) returns (now: seq<Vector<T>>, st: Status)
    requires Family(vs, limit) && InRange(op, |vs|)
    modifies Members(vs), Blocks(Members(vs))
    ensures Family(now, limit) && fresh(Blocks(Members(now)) - old(Blocks(Members(vs))))
    ensures vs <= now && fresh(Members(now) - Members(vs))
    ensures st == old(OpStatus(op, vs, allocOk)) && Snapshot(now) == old(OpLeft(op, vs, allocOk))
  {
    now, st := vs, Done(0);
    match op
    case Edit(k, u, e) => st := EditMember(vs, k, u, e, allocOk, limit);
    case Assign(k, u) => AssignMember(vs, k, u, limit);
    case Copy(u) =>
      var v := CopyMember(vs, u, limit);
      now := vs + [v];
  }

  /** A run does not go on after an abort, or where memory outside a block is touched. */
  predicate Stops(st: Status) { st == Fatal || st == Stray }

  /** With memory, an operation stops a run only on an overflow or a removal that wraps into range,
      and otherwise is the plain operation. */
  lemma StepWithMemory<T>(op: Op<T>, vs: seq<Vector<T>>, limit: nat)
    requires Family(vs, limit) && InRange(op, |vs|)
    ensures OpStatus(op, vs, true) == Fatal <==>
              op.Edit? && Overflows(op.edit, vs[op.v].count, vs[op.from].count, vs[op.v].Capacity(), limit)
    ensures OpStatus(op, vs, true) == Stray <==> op.Edit? && Strays(op.edit, vs[op.v].count, vs[op.v].Capacity())
    ensures Stops(OpStatus(op, vs, true)) ==> !FitsOp(op, Snapshot(vs), limit)
    ensures OpStatus(op, vs, true) != Fatal ==> OpLeft(op, vs, true) == PlainOp(op, Snapshot(vs))
  {
    if op.Edit? {
      var v, u := vs[op.v], vs[op.from];
      WithMemory(op.edit, v.Contents(), u.Contents(), v.Capacity(), limit, v.Shared());
      if FitsOp(op, Snapshot(vs), limit) { FitsIsNoOverflow(op.edit, v.Contents(), u.Contents(), v.Capacity(), limit); }
    }
  }

  /** In any case it is the plain operation or, for an edit, nothing; an abort is nothing. */
  lemma StepIsAllOrNothing<T>(op: Op<T>, vs: seq<Vector<T>>, allocOk: bool)
    requires InRange(op, |vs|) && Closed(Members(vs))
    ensures OpLeft(op, vs, allocOk) == PlainOp(op, Snapshot(vs)) || (op.Edit? && OpLeft(op, vs, allocOk) == Snapshot(vs))
    ensures Stops(OpStatus(op, vs, allocOk)) ==> OpLeft(op, vs, allocOk) == Snapshot(vs)
  {
  }

  // ---- whole runs ----

  /** The plain run over the first |applied| operations with some of them skipped. */
  function SkippingRun<T>(ops: seq<Op<T>>, applied: seq<bool>, cs: seq<seq<T>>): seq<seq<T>>
    requires AllInRange(ops, |cs|) && |applied| <= |ops|
    requires forall k :: 0 <= k < |applied| ==> applied[k] || ops[k].Edit?
  {
    if applied == [] then cs
    else SkippingRun(ops[1..], applied[1..], if applied[0] then PlainOp(ops[0], cs) else cs)
  }

  lemma {:induction false} NothingSkipped<T>(ops: seq<Op<T>>, applied: seq<bool>, cs: seq<seq<T>>)
    requires AllInRange(ops, |cs|) && |applied| == |ops| && forall k :: 0 <= k < |applied| ==> applied[k]
    ensures SkippingRun(ops, applied, cs) == PlainRun(ops, cs)
  {
    if ops != [] { NothingSkipped(ops[1..], applied[1..], PlainOp(ops[0], cs)); }
  }

  /** What is true of a run from the contents cs that made `applied` of the operations and came to
      `left`: copies, assignments and edits that had memory were all applied, only an edit cuts a run
      short, and if it had memory it does not fit. */
  ghost predicate RunLeaves<T>(ops: seq<Op<T>>, allocs: seq<bool>, cs: seq<seq<T>>, limit: nat, applied: seq<bool>, left: seq<seq<T>>) {
    && AllInRange(ops, |cs|) && |applied| <= |ops| == |allocs|
    && (forall k :: 0 <= k < |applied| ==> applied[k] || (ops[k].Edit? && !allocs[k]))
    && left == SkippingRun(ops, applied, cs)
    && (|applied| < |ops| ==> ops[|applied|].Edit?)
    && (|applied| < |ops| && allocs[|applied|] ==> InRange(ops[|applied|], |left|) && !FitsOp(ops[|applied|], left, limit))
  }

  lemma RunLeavesStep<T>(ops: seq<Op<T>>, allocs: seq<bool>, cs: seq<seq<T>>, limit: nat, applied: seq<bool>, left: seq<seq<T>>, did: bool)
    requires ops != [] && AllInRange(ops, |cs|) && |allocs| == |ops| && (did || (ops[0].Edit? && !allocs[0]))
    requires RunLeaves(ops[1..], allocs[1..], if did then PlainOp(ops[0], cs) else cs, limit, applied, left)
    ensures RunLeaves(ops, allocs, cs, limit, [did] + applied, left)
  {
    var all := [did] + applied;
    assert all[1..] == applied;
    forall k | 0 <= k < |all| ensures all[k] || (ops[k].Edit? && !allocs[k]) {
      if k > 0 { assert ops[1..][k - 1] == ops[k] && allocs[1..][k - 1] == allocs[k]; }
    }
  }

  lemma RunLeavesNone<T>(ops: seq<Op<T>>, allocs: seq<bool>, cs: seq<seq<T>>, limit: nat)
    requires AllInRange(ops, |cs|) && |allocs| == |ops|
    requires ops != [] ==> ops[0].Edit? && (allocs[0] ==> !FitsOp(ops[0], cs, limit))
    ensures RunLeaves(ops, allocs, cs, limit, [], cs)
  {
  }

  lemma RangeStep<T>(ops: seq<Op<T>>, cs: seq<seq<T>>, did: bool)
    requires ops != [] && AllInRange(ops, |cs|) && (did || ops[0].Edit?)
    ensures AllInRange(ops[1..], |if did then PlainOp(ops[0], cs) else cs|)
  {
  }

  /** The first step of a run: `did` tells whether it is the plain operation or nothing. */
  method FirstStep<T>(vs: seq<Vector<T>>, op: Op<T>, allocOk: bool, ghost limit: nat)
    returns (now: seq<Vector<T>>, abort: bool, ghost did: bool)
    requires Family(vs, limit) && InRange(op, |vs|)
    modifies Members(vs), Blocks(Members(vs))
    ensures Family(now, limit) && fresh(Blocks(Members(now)) - old(Blocks(Members(vs)))) && fresh(Members(now) - Members(vs))
    ensures Snapshot(now) == if did then PlainOp(op, old(Snapshot(vs))) else old(Snapshot(vs))
    ensures abort ==> !did && op.Edit? && (allocOk ==> !FitsOp(op, old(Snapshot(vs)), limit))
    ensures !abort && !did ==> op.Edit? && !allocOk
  {
    ghost var cs := Snapshot(vs);
    StepWithMemory(op, vs, limit);
    StepIsAllOrNothing(op, vs, allocOk);
    var st;
    now, st := Step(vs, op, allocOk, limit);
    abort := Stops(st);
    did := !Stops(st) && (allocOk || Snapshot(now) == PlainOp(op, cs));
  }

  /** A run of operations with memory for some of them, until one stops it. The contents of every
      member are those of plain sequences that share nothing, where operations that did not get
      their memory may be missing; the members still form a family. */
  method Run<T>(vs: seq<Vector<T>>, ops: seq<Op<T>>, allocs: seq<bool>, ghost limit: nat)
    returns (now: seq<Vector<T>>, done: nat, ghost applied: seq<bool>)
    requires Family(vs, limit) && AllInRange(ops, |vs|) && |allocs| == |ops|
    modifies Members(vs), Blocks(Members(vs))
    ensures Family(now, limit) && |applied| == done
    ensures RunLeaves(ops, allocs, old(Snapshot(vs)), limit, applied, Snapshot(now))
    decreases |ops|
  {
    ghost var cs := Snapshot(vs);
    now, done, applied := vs, 0, [];
    if ops != [] {
      var abort;
      ghost var did;
      now, abort, did := FirstStep(vs, ops[0], allocs[0], limit);
      if !abort {
        RangeStep(ops, cs, did);
        now, done, applied := Run(now, ops[1..], allocs[1..], limit);
        RunLeavesStep(ops, allocs, cs, limit, applied, Snapshot(now), did);
        done, applied := done + 1, [did] + applied;
        return;
      }
    }
    RunLeavesNone(ops, allocs, cs, limit);
  }

  /** A run that has memory and asks for nothing that does not fit completes, as the plain run. */
  lemma {:induction false} FittingRunCompletes<T>(ops: seq<Op<T>>, allocs: seq<bool>, cs: seq<seq<T>>, limit: nat, applied: seq<bool>, left: seq<seq<T>>)
    requires RunLeaves(ops, allocs, cs, limit, applied, left) && AllFit(ops, cs, limit)
    requires forall k :: 0 <= k < |allocs| ==> allocs[k]
    ensures |applied| == |ops| && left == PlainRun(ops, cs)
  {
    if applied == [] {
      assert left == cs;
    } else {
      assert forall k :: 0 <= k < |applied| ==> applied[k];
      FittingRunCompletes(ops[1..], allocs[1..], PlainOp(ops[0], cs), limit, applied[1..], left);
    }
  }

  /** In a family, the reference count of a block is the number of members that use it; they
      agree on the number of items, which the block can hold. */
  lemma CountsAreExact<T>(vs: seq<Vector<T>>, k: nat)
    requires Closed(Members(vs)) && k < |vs| && vs[k].storage != null
    ensures vs[k].storage.refs == |set v | v in Members(vs) && v.storage == vs[k].storage|
    ensures forall i :: 0 <= i < |vs| && vs[i].storage == vs[k].storage ==> vs[i].count == vs[k].count <= vs[i].Capacity()
  {
    var b := vs[k].storage;
    assert b.holders == set v | v in Members(vs) && v.storage == b;
    assert forall i :: 0 <= i < |vs| ==> vs[i] in Members(vs);
  }

  /** The moves made for n pushes are paid for by the pushes, and by the capacity they left. */
  predicate Paid(moves: int, n: nat, capacity: nat) {
    moves <= 3 * n && moves <= 2 * capacity
  }

  lemma PaidGrows(moves: int, n: nat, capacity: nat)
    requires Paid(moves, n, capacity)
    ensures Paid(moves, n + 1, capacity)
    ensures n == capacity ==> Paid(moves + n, n + 1, GrownCapacity(n + 1))
  {
  }

  method PushNext<T>(v: Vector<T>, items: seq<T>, n: nat, ghost start: nat) returns (ok: bool)
    requires v.Valid() && n < |items| && v.Contents() == items[..n] && v.Holders() <= {v}
    requires Paid(v.moved - start, n, v.Capacity())
    modifies v, v.storage
    ensures v.Valid() && v.Contents() == items[..if ok then n + 1 else n] && v.Holders() <= {v}
    ensures Paid(v.moved - start, if ok then n + 1 else n, v.Capacity())
    ensures !ok ==> n == SIZE_MAX || GrownCapacity(n + 1) > v.limit
    ensures v.storage == old(v.storage) || fresh(v.storage)
  {
    PaidGrows(v.moved - start, n, v.Capacity());
    assert items[..n] + [items[n]] == items[..n + 1];
    var st := v.Push(items[n], true);
    ok := st.Done?;
  }

  /** Pushing onto an empty vector moves at most three elements per push, and stops only where a
      size overflows. */
  method PushAll<T>(v: Vector<T>, items: seq<T>) returns (n: nat)
    requires v.Valid() && v.count == 0 && !v.Shared()
    modifies v, v.storage
    ensures v.Valid() && n <= |items| && v.Contents() == items[..n]
    ensures v.moved <= old(v.moved) + 3 * n
    ensures n < |items| ==> n == SIZE_MAX || GrownCapacity(n + 1) > v.limit
  {
    n := 0;
    if v.storage != null { Singleton(v.storage.holders, v); }
    while n < |items|
      invariant n <= |items| && v.Valid() && v.Contents() == items[..n] && v.Holders() <= {v}
      invariant v.storage == old(v.storage) || fresh(v.storage)
      invariant Paid(v.moved - old(v.moved), n, v.Capacity())
    {
      var ok := PushNext(v, items, n, old(v.moved));
      if !ok { return; }
      n := n + 1;
    }
  }
}
