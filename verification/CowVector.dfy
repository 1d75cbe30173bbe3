/** Copy-on-write vectors of libmotou/MotoVectorImpl.cpp: vectors share a reference-counted
    buffer until one of them is edited. */
module CowVector {
  import opened StableSort

  /** A memory cell of a buffer: raw, or holding a constructed element. */
  datatype Cell<T> = Raw | Item(value: T)

  predicate Live<T>(cells: seq<Cell<T>>, lo: nat, hi: nat) {
    lo <= hi <= |cells| && forall k :: lo <= k < hi ==> cells[k].Item?
  }

  predicate AllRaw<T>(cells: seq<Cell<T>>, lo: nat, hi: nat) {
    lo <= hi <= |cells| && forall k :: lo <= k < hi ==> cells[k].Raw?
  }

  /** The first n cells hold elements and the others are raw. */
  predicate Packed<T>(cells: seq<Cell<T>>, n: nat) {
    Live(cells, 0, n) && AllRaw(cells, n, |cells|)
  }

  function Values<T>(cells: seq<Cell<T>>, n: nat): (r: seq<T>)
    requires Live(cells, 0, n)
    ensures |r| == n && forall k :: 0 <= k < n ==> r[k] == cells[k].value
  {
    seq(n, k requires 0 <= k < n => cells[k].value)
  }

  /** SharedBuffer: a block of cells and its reference count; `holders` are the vectors whose
      mStorage is this buffer. */
  class Buffer<T> {
    var refs: nat
    var cells: seq<Cell<T>>
    var alive: bool
    ghost var holders: set<Vector<T>>

    /** The buffer is allocated, its count is the number of its holders, and they agree on the
        number of items. */
    ghost predicate Valid(n: nat)
      reads this, holders
    {
      && alive && refs == |holders| && n <= SIZE_MAX && Packed(cells, n) && cells != []
      && forall v :: v in holders ==> v.storage == this && v.count == n
    }

    constructor (cells: seq<Cell<T>>)
      ensures refs == 1 && this.cells == cells && alive && holders == {}
    {
      refs, this.cells, alive, holders := 1, cells, true, {};
    }
  }

  /** Outcome of a call: the index or size returned, an error code, an abort, or memory outside the
      block touched, before which the model stops. */
  datatype Status = Done(value: nat) | BadIndex | BadValue | NoMemory | Fatal | Stray

  const SIZE_MAX: nat := 0xFFFF_FFFF
  const SIZES: nat := 0x1_0000_0000
  const MIN_CAPACITY: nat := 4   // kMinVectorCapacity

  function Raws<T>(n: nat): (r: seq<Cell<T>>)
    ensures |r| == n && forall k :: 0 <= k < n ==> r[k] == Raw
  {
    seq(n, _ => Raw)
  }

  function Items<T>(s: seq<T>): (r: seq<Cell<T>>)
    ensures |r| == |s| && forall k :: 0 <= k < |s| ==> r[k] == Item(s[k])
  {
    seq(|s|, k requires 0 <= k < |s| => Item(s[k]))
  }

  /** The block of a vector with contents c and a raw gap of n cells opened at `at`. */
  ghost predicate Gapped<T>(cells: seq<Cell<T>>, c: seq<T>, at: nat, n: nat) {
    && at <= |c| && |c| + n <= |cells|
    && cells == Items(c[..at]) + Raws(n) + Items(c[at..]) + Raws(|cells| - |c| - n)
  }

  function Max(a: nat, b: nat): nat { if a > b then a else b }

  /** The capacity _grow asks for. */
  function GrownCapacity(size: nat): nat { Max(MIN_CAPACITY, size + size / 2 + 1) }

  /** At least four elements, and half as many again, and one, as it then holds. */
  lemma GrowthInNumbers(size: nat)
    ensures size <= 2 ==> GrownCapacity(size) == 4
    ensures size > 2 ==> 3 * size + 1 <= 2 * GrownCapacity(size) <= 3 * size + 2
    ensures GrownCapacity(3) == 5 && GrownCapacity(5) == 8 && GrownCapacity(100) == 151
  {
  }

  /** How many elements of a size fit in what size_t can count. */
  function MaxItems(itemSize: nat): nat { if itemSize == 0 then SIZE_MAX else SIZE_MAX / itemSize }

  /** The guards that safe_add and safe_mul stand for: no size, in elements or in bytes, overflows. */
  lemma MaxItemsMeans(n: nat, itemSize: nat)
    ensures n > MaxItems(itemSize) <==> n > SIZE_MAX || n * itemSize > SIZE_MAX
  {
    if itemSize > 0 {
      var q := SIZE_MAX / itemSize;
      assert q * itemSize <= SIZE_MAX < (q + 1) * itemSize;
      if n > q { Product(q + 1, n, itemSize); } else { Product(n, q, itemSize); }
      Product(1, itemSize, n);
    }
  }

  lemma Product(a: nat, b: nat, c: nat)
    requires a <= b
    ensures a * c <= b * c
  {
  }

  /** What _grow returns. The abort guards are safe_add and safe_mul on size_t, and the detach of
      a shared block; an empty insertion at the very end of the block finds no location there. */
  function GrowStatus(at: nat, amount: nat, count: nat, capacity: nat, limit: nat, shared: bool, allocOk: bool): Status {
    var size := count + amount;
    var larger := GrownCapacity(size);
    if size > SIZE_MAX then Fatal
    else if capacity < size then
      if larger > limit then Fatal
      else if allocOk then Done(at) else NoMemory
    else if shared && !allocOk then Fatal
    else if at == capacity then NoMemory
    else Done(at)
  }

  /** Every status of an insertion and its cause, with or without memory. */
  lemma InsertReports(at: nat, n: nat, count: nat, capacity: nat, limit: nat, shared: bool, allocOk: bool)
    requires count <= capacity
    ensures var st := InsertStatus(at, n, count, capacity, limit, shared, allocOk);
            && (st == BadIndex <==> at > count)
            && (st.Done? ==> st == Done(at))
            && (st == Fatal <==> at <= count && (count + n > 0xFFFF_FFFF || (count + n > capacity && GrownCapacity(count + n) > limit)
                                                  || (count + n <= capacity && shared && !allocOk)))
            && (st == NoMemory ==> if count + n > capacity then !allocOk else n == 0 && at == capacity)
            && st != BadValue && st != Stray
  {
  }

  lemma OpenGap<T>(cells: seq<Cell<T>>, n: nat, at: nat, amount: nat, capacity: nat)
    requires Packed(cells, n) && at <= n && n + amount <= capacity
    ensures Gapped(cells[..at] + Raws(amount) + cells[at..n] + Raws(capacity - n - amount), Values(cells, n), at, amount)
    ensures at == n ==> cells[..n] + Raws(capacity - n) == cells[..at] + Raws(amount) + cells[at..n] + Raws(capacity - n - amount)
    ensures capacity == |cells| ==> cells[n + amount..] == Raws(capacity - n - amount)
  {
    var c := Values(cells, n);
    assert cells[..at] == Items(c[..at]) && cells[at..n] == Items(c[at..]);
  }

  function Inserted<T>(s: seq<T>, at: nat, items: seq<T>): seq<T>
    requires at <= |s|
  {
    s[..at] + items + s[at..]
  }

  function Removed<T>(s: seq<T>, at: nat, n: nat): seq<T>
    requires at + n <= |s|
  {
    s[..at] + s[at + n..]
  }

  function Repeated<T>(item: T, n: nat): seq<T> { seq(n, _ => item) }

  function Resized<T>(s: seq<T>, n: nat, default: T): seq<T> {
    if n <= |s| then s[..n] else s + Repeated(default, n - |s|)
  }

  function InsertStatus(at: nat, n: nat, count: nat, capacity: nat, limit: nat, shared: bool, allocOk: bool): Status {
    if at > count then BadIndex else GrowStatus(at, n, count, capacity, limit, shared, allocOk)
  }

  /** What removeItemsAt returns. When the sum of index and count wraps to no more than the size, a
      vector without a block is left alone, a count above the size aborts in safe_sub, and any other
      makes _shrink work outside the block, unless it gets no memory to begin with. */
  function RemoveStatus(index: nat, n: nat, count: nat, capacity: nat, shared: bool, allocOk: bool): Status {
    if (index + n) % SIZES > count then BadValue
    else if capacity == 0 then Done(index)
    else if n > count then Fatal
    else if shared && count - n >= capacity / 2 && !allocOk then Fatal
    else if index + n > SIZE_MAX && (allocOk || count - n >= capacity / 2) then Stray
    else Done(index)
  }

  /** Below the wrap it is what it seems to be. */
  lemma RemoveInRange(index: nat, n: nat, count: nat, capacity: nat, shared: bool, allocOk: bool)
    requires index + n <= SIZE_MAX && count <= capacity
    ensures RemoveStatus(index, n, count, capacity, shared, allocOk) ==
            if index + n > count then BadValue
            else if shared && capacity > 0 && count - n >= capacity / 2 && !allocOk then Fatal else Done(index)
  {
  }

  /** With a wrap it goes by what is left of the sum. */
  lemma RemoveWraps(index: nat, n: nat, count: nat, capacity: nat, shared: bool, allocOk: bool)
    requires index <= 0xFFFF_FFFF && n <= 0xFFFF_FFFF && index + n > 0xFFFF_FFFF && count <= capacity && count <= 0xFFFF_FFFF
    ensures RemoveStatus(index, n, count, capacity, shared, allocOk) ==
            if index + n - 0x1_0000_0000 > count then BadValue
            else if capacity == 0 then Done(index)
            else if n > count then Fatal
            else if allocOk then Stray
            else if count - n < capacity / 2 then Done(index)
            else if shared then Fatal else Stray
  {
  }

  function ResizeStatus(size: nat, count: nat, capacity: nat, limit: nat, shared: bool, allocOk: bool): Status {
    if size > count then
      var st := GrowStatus(count, size - count, count, capacity, limit, shared, allocOk);
      if st.Done? then Done(size) else st
    else if size < count && shared && size >= capacity / 2 && !allocOk then Fatal
    else Done(size)
  }

  lemma FillGap<T>(cells: seq<Cell<T>>, c: seq<T>, at: nat, items: seq<T>)
    requires Gapped(cells, c, at, |items|)
    ensures var r := cells[..at] + Items(items) + cells[at + |items|..];
            |r| == |cells| && Packed(r, |c| + |items|) && Values(r, |c| + |items|) == Inserted(c, at, items)
  {
  }

  lemma CloseGap<T>(cells: seq<Cell<T>>, n: nat, at: nat, amount: nat)
    requires Packed(cells, n) && at + amount <= n
    ensures forall raw: nat :: var r := cells[..at] + cells[at + amount..n] + Raws(raw);
            Packed(r, n - amount) && Values(r, n - amount) == Removed(Values(cells, n), at, amount)
    ensures at == n - amount ==> cells[..n - amount] == cells[..at] + cells[at + amount..n]
  {
  }

  lemma Singleton<X>(s: set<X>, x: X)
    requires |s| == 1 && x in s
    ensures s == {x}
  {
    assert |s - {x}| == 0;
  }

  /** Block b, held by `holders` with n items in `cells` when vector v set out to change: v may have
      left it, and its other holders, if any, find it as it was. */
  ghost predicate Kept<T>(b: Buffer?<T>, holders: set<Vector<T>>, cells: seq<Cell<T>>, n: nat, v: Vector<T>)
    reads b, v
  {
    b != null ==>
      && (b.holders == holders || b.holders == holders - {v}) && (v in b.holders ==> v.storage == b)
      && (!(holders <= {v}) ==> b.alive && b.refs == |b.holders| && b.cells == cells && (v.storage == b ==> v.count == n))
  }

  /** So no other holder w notices: it is valid, with the contents it had. */
  lemma OthersKept<T>(b: Buffer<T>, holders: set<Vector<T>>, cells: seq<Cell<T>>, n: nat, v: Vector<T>, w: Vector<T>)
    requires Kept(b, holders, cells, n, v) && w in holders && w != v && n <= SIZE_MAX && Packed(cells, n) && cells != []
    requires forall x :: x in holders && x != v ==> x.storage == b && x.count == n
    ensures w.Valid() && w.Contents() == Values(cells, n) && w.Holders() <= holders
  {
  }

  /** Two changes of v in a row: before the second, v held block b as `mid` holders, mid cells and m items. */
  lemma KeptOn<T>(b: Buffer<T>, holders: set<Vector<T>>, cells: seq<Cell<T>>, n: nat, v: Vector<T>,
                  mid: set<Vector<T>>, midCells: seq<Cell<T>>, m: nat)
    requires (mid == holders || mid == holders - {v}) && (!(holders <= {v}) ==> midCells == cells && m == n)
    requires Kept(b, mid, midCells, m, v) && v in mid
    ensures Kept(b, holders, cells, n, v)
  {
  }

  /** Vector v has joined the holders of block b, which is otherwise as it was. */
  ghost predicate Joined<T>(b: Buffer?<T>, holders: set<Vector<T>>, cells: seq<Cell<T>>, v: Vector<T>)
    reads b
  {
    b != null ==> b.alive && b.holders == holders + {v} && b.refs == |b.holders| && b.cells == cells
  }

  lemma JoinedValid<T>(b: Buffer<T>, holders: set<Vector<T>>, cells: seq<Cell<T>>, n: nat, v: Vector<T>)
    requires Joined(b, holders, cells, v) && v.storage == b && v.count == n <= SIZE_MAX && Packed(cells, n) && cells != []
    requires forall w :: w in holders && w != v ==> w.storage == b && w.count == n
    ensures b.Valid(n)
  {
  }

  class Vector<T> {
    var storage: Buffer?<T>
    var count: nat
    const trivial: bool      // HAS_TRIVIAL_COPY and HAS_TRIVIAL_DTOR
    const limit: nat         // MaxItems of the element size
    ghost var moved: nat     // elements copied from one block to a larger one so far

    ghost predicate Valid()
      reads this, storage, if storage == null then {} else storage.holders
    {
      if storage == null then count == 0 else this in storage.holders && storage.Valid(count)
    }

    function Contents(): seq<T>
      requires storage != null ==> Live(storage.cells, 0, count)
      reads this, storage
    {
      if storage == null then [] else Values(storage.cells, count)
    }

    function Cells(): seq<Cell<T>>
      reads this, storage
    {
      if storage == null then [] else storage.cells
    }

    ghost function Holders(): set<Vector<T>>
      reads this, storage
    {
      if storage == null then {} else storage.holders
    }

    function Capacity(): nat
      reads this, storage
    {
      if storage == null then 0 else |storage.cells|
    }

    /** attemptEdit refuses: there are other holders. */
    predicate Shared()
      reads this, storage
    {
      storage != null && storage.refs != 1
    }

    /** Nobody else holds the block. */
    ghost predicate Sole()
      reads this, storage
    {
      storage != null && storage.alive && storage.refs == 1 && storage.holders == {this}
    }

    constructor (trivial: bool, itemSize: nat)
      ensures Valid() && Contents() == [] && storage == null && moved == 0
      ensures this.trivial == trivial && limit == MaxItems(itemSize)
    {
      storage, count, this.trivial, limit, moved := null, 0, trivial, MaxItems(itemSize), 0;
    }

    /** The copy constructor: share the block. */
    constructor Copy(rhs: Vector<T>)
      requires rhs.Valid()
      modifies rhs.storage
      ensures Valid() && Contents() == old(rhs.Contents()) && storage == rhs.storage && Holders() <= old(rhs.Holders()) + {this} && limit == rhs.limit
      ensures Joined(rhs.storage, old(rhs.Holders()), old(rhs.Cells()), this)
    {
      storage, count, trivial, limit, moved := rhs.storage, rhs.count, rhs.trivial, rhs.limit, 0;
      new;
      if storage != null {
        storage.refs := storage.refs + 1;
        storage.holders := storage.holders + {this};
      }
    }

    /** release_storage: give up the hold on the block; the last holder destroys the elements
        and frees it. mStorage is left dangling for the caller to replace. */
    method ReleaseStorage()
      requires Valid()
      modifies storage
      ensures storage != null ==> storage.holders == old(storage.holders) - {this}
      ensures storage != null ==> (storage.alive <==> storage.holders != {})
      ensures storage != null && storage.alive ==> storage.cells == old(storage.cells)
      ensures Kept(old(storage), old(Holders()), old(Cells()), old(count), this)
    {
      if storage != null {
        ghost var before := storage.holders;
        storage.refs := storage.refs - 1;
        storage.holders := storage.holders - {this};
        assert |before| == |storage.holders| + 1;
        if storage.refs == 0 {
          storage.cells := Raws(|storage.cells|);
          storage.alive := false;
        }
      }
    }

    /** Point at a block held by others and count this vector among its holders. */
    method Acquire(b: Buffer<T>, size: nat)
      requires b.Valid(size) && this !in b.holders
      modifies this, b
      ensures Valid() && storage == b && count == size && Contents() == Values(old(b.cells), size) && moved == old(moved)
      ensures Joined(b, old(b.holders), old(b.cells), this)
    {
      storage, count := b, size;
      b.refs := b.refs + 1;
      b.holders := b.holders + {this};
    }

    /** operator =. */
    method Assign(rhs: Vector<T>)
      requires Valid() && rhs.Valid()
      modifies this, storage, rhs.storage
      ensures Valid() && Contents() == old(rhs.Contents())
      ensures Holders() <= old(rhs.Holders()) + {this}
      ensures rhs == this ==> storage == old(storage)
      ensures rhs != this ==> storage == (if rhs.count == 0 then null else rhs.storage)
      ensures rhs != this && rhs.count != 0 ==> Joined(rhs.storage, old(rhs.Holders()), old(rhs.Cells()), this)
      ensures rhs.count == 0 && rhs.storage != null && rhs.storage != old(storage) ==> unchanged(rhs.storage)
      ensures Kept(old(storage), old(Holders()), old(Cells()), old(count), this)
    {
      if this != rhs {
        if rhs.count != 0 {
          Share(rhs);
        } else {
          Finish();
        }
      }
    }

    /** operator = from another vector that is not empty. */
    method Share(rhs: Vector<T>)
      requires Valid() && rhs.Valid() && rhs != this && rhs.count != 0
      modifies this, storage, rhs.storage
      ensures Valid() && Contents() == old(rhs.Contents()) && storage == rhs.storage
      ensures Joined(rhs.storage, old(rhs.Holders()), old(rhs.Cells()), this)
      ensures Kept(old(storage), old(Holders()), old(Cells()), old(count), this)
    {
      ghost var holders, cells := Holders(), Cells();
      ReleaseStorage();
      if storage == rhs.storage { OthersKept(storage, holders, cells, rhs.count, this, rhs); }
      Acquire(rhs.storage, rhs.count);
    }

    /** finish_vector. */
    method Finish()
      requires Valid()
      modifies this, storage
      ensures Valid() && storage == null
      ensures Kept(old(storage), old(Holders()), old(Cells()), old(count), this)
    {
      ReleaseStorage();
      storage, count := null, 0;
    }

    /** Leave the current block for a new one with the given cells. */
    method Relocate(cells: seq<Cell<T>>, size: nat)
      requires Valid()
      modifies this, storage
      ensures Sole() && fresh(storage) && storage.cells == cells && count == size && moved == old(moved)
      ensures Kept(old(storage), old(Holders()), old(Cells()), old(count), this)
    {
      ReleaseStorage();
      var b := new Buffer(cells);
      b.holders := {this};
      storage, count := b, size;
    }

    /** editArrayImpl: make the block this vector's own, copying it when it is shared. */
    method EditArray(allocOk: bool) returns (ok: bool)
      requires Valid()
      modifies this, storage
      ensures ok <==> !old(Shared()) || allocOk
      ensures Valid() && Contents() == old(Contents()) && Capacity() == old(Capacity()) && moved == old(moved)
      ensures ok && storage != null ==> Sole() && storage.cells == old(Cells())
      ensures Holders() <= old(Holders()) + {this} && (fresh(storage) || storage == old(storage))
      ensures !ok || !old(Shared()) ==> storage == old(storage)
      ensures old(storage) == null <==> storage == null
      ensures Kept(old(storage), old(Holders()), old(Cells()), old(count), this)
    {
      ok := true;
      if storage != null {
        if storage.refs != 1 {
          if !allocOk { return false; }
          Relocate(storage.cells, count);
        } else {
          Singleton(storage.holders, this);
        }
      }
    }

    /** Change the cells of a block nobody else holds, and the count with them. */
    method Write(cells: seq<Cell<T>>, size: nat)
      requires Sole()
      modifies this, storage
      ensures storage == old(storage) && Sole() && storage.cells == cells && count == size && moved == old(moved)
      ensures Kept(old(storage), old(Holders()), old(Cells()), old(count), this)
    {
      storage.cells := cells;
      count := size;
    }

    /** The reallocating half of _grow, with its path for trivial elements added at the end
        (editResize: the old bytes followed by new ones). */
    method GrowIntoNewBlock(at: nat, amount: nat, capacity: nat)
      requires Valid() && at <= count && count + amount <= capacity
      modifies this, storage
      ensures Sole() && fresh(storage) && Gapped(storage.cells, old(Contents()), at, amount)
      ensures count == old(count) + amount && Capacity() == capacity && moved == old(moved + count)
      ensures Kept(old(storage), old(Holders()), old(Cells()), old(count), this)
    {
      ghost var before := moved;
      var size := count + amount;
      var c := Cells();
      OpenGap(c, count, at, amount, capacity);
      var from := count;
      if storage != null && count == at && trivial {
        Relocate(c[..count] + Raws(capacity - count), size);
      } else {
        Relocate(c[..at] + Raws(amount) + c[at..count] + Raws(capacity - size), size);
      }
      moved := before + from;
    }

    /** do_move_forward: the elements from `at` on leave a gap. */
    method OpenRoom(at: nat, amount: nat)
      requires Valid() && Sole() && at <= count && count + amount <= Capacity()
      modifies this, storage
      ensures Sole() && Gapped(storage.cells, old(Contents()), at, amount) && count == old(count) + amount
      ensures storage == old(storage) && Capacity() == old(Capacity()) && moved == old(moved)
      ensures Kept(old(storage), old(Holders()), old(Cells()), old(count), this)
    {
      var c := storage.cells;
      OpenGap(c, count, at, amount, |c|);
      var room := c[..at] + Raws(amount) + c[at..count] + c[count + amount..];
      assert Gapped(room, Contents(), at, amount) && |room| == |c|;
      Write(room, count + amount);
    }

    /** The half of _grow that fits in the block: detach, then move the tail forward. */
    method GrowInPlace(at: nat, amount: nat, allocOk: bool) returns (st: Status)
      requires Valid() && at <= count && count + amount <= Capacity()
      modifies this, storage
      ensures st == (if old(Shared()) && !allocOk then Fatal else if at == old(Capacity()) then NoMemory else Done(at))
      ensures st.Done? ==> Sole() && Gapped(storage.cells, old(Contents()), at, amount) && count == old(count) + amount && Capacity() > 0
      ensures Capacity() == old(Capacity()) && moved == old(moved)
      ensures !st.Done? ==> Valid() && Contents() == old(Contents()) && (at < old(Capacity()) ==> storage == old(storage))
      ensures Holders() <= old(Holders()) + {this} && (fresh(storage) || storage == old(storage))
      ensures Kept(old(storage), old(Holders()), old(Cells()), old(count), this)
    {
      var ok := EditArray(allocOk);
      if !ok { return Fatal; }
      if at == Capacity() { return NoMemory; }
      OpenRoom(at, amount);
      return Done(at);
    }

    /** _grow: make room for `amount` elements at `at`. Done leaves a raw gap for the caller to
        fill; NoMemory is a null location, Fatal an abort. */
    method Grow(at: nat, amount: nat, allocOk: bool) returns (st: Status)
      requires Valid() && at <= count
      modifies this, storage
      ensures st == GrowStatus(at, amount, old(count), old(Capacity()), limit, old(Shared()), allocOk)
      ensures st.Done? ==> Sole() && Gapped(storage.cells, old(Contents()), at, amount) && count == old(count) + amount && Capacity() > 0
      ensures st.Done? && old(Capacity()) < count ==> Capacity() == GrownCapacity(count) && moved == old(moved + count)
      ensures !st.Done? || old(Capacity()) >= count ==> Capacity() == old(Capacity()) && moved == old(moved)
      ensures !st.Done? ==> Valid() && Contents() == old(Contents()) && (amount > 0 ==> storage == old(storage))
      ensures Holders() <= old(Holders()) + {this} && (fresh(storage) || storage == old(storage))
      ensures Kept(old(storage), old(Holders()), old(Cells()), old(count), this)
    {
      var size := count + amount;
      if size > SIZE_MAX { return Fatal; }
      if Capacity() < size {
        var capacity := GrownCapacity(size);
        if capacity > limit { return Fatal; }
        if !allocOk { return NoMemory; }
        GrowIntoNewBlock(at, amount, capacity);
      } else {
        st := GrowInPlace(at, amount, allocOk);
        return st;
      }
      return Done(at);
    }

    /** Construct elements in the gap left by Grow. */
    method Fill(ghost c: seq<T>, at: nat, items: seq<T>)
      requires Sole() && Gapped(storage.cells, c, at, |items|) && count == |c| + |items| <= SIZE_MAX && Capacity() > 0
      modifies this, storage
      ensures Valid() && Sole() && Contents() == Inserted(c, at, items)
      ensures storage == old(storage) && Capacity() == old(Capacity()) && moved == old(moved) && count == old(count)
      ensures Kept(old(storage), old(Holders()), old(Cells()), old(count), this)
    {
      FillGap(storage.cells, c, at, items);
      var s := storage.cells;
      Write(s[..at] + Items(items) + s[at + |items|..], count);
    }

    method InsertArrayAt(items: seq<T>, index: nat, allocOk: bool) returns (st: Status)
      requires Valid()
      modifies this, storage
      ensures st == InsertStatus(index, |items|, old(count), old(Capacity()), limit, old(Shared()), allocOk)
      ensures Valid() && Contents() == (if st.Done? then Inserted(old(Contents()), index, items) else old(Contents()))
      ensures st.Done? && old(Capacity()) < count ==> Capacity() == GrownCapacity(count) && moved == old(moved + count)
      ensures !st.Done? || old(Capacity()) >= count ==> Capacity() == old(Capacity()) && moved == old(moved)
      ensures Holders() <= old(Holders()) + {this} && (fresh(storage) || storage == old(storage))
      ensures Kept(old(storage), old(Holders()), old(Cells()), old(count), this)
    {
      if index > count { return BadIndex; }
      ghost var c := Contents();
      st := Grow(index, |items|, allocOk);
      if st.Done? { Fill(c, index, items); }
    }

    /** insertVectorAt: the elements of the other vector are read after this one has grown. */
    method InsertVectorAt(other: Vector<T>, index: nat, allocOk: bool) returns (st: Status)
      requires Valid() && other.Valid() && other != this
      modifies this, storage
      ensures st == InsertStatus(index, old(other.count), old(count), old(Capacity()), limit, old(Shared()), allocOk)
      ensures Valid()
      ensures Contents() == (if st.Done? then Inserted(old(Contents()), index, old(other.Contents())) else old(Contents()))
      ensures Holders() <= old(Holders()) + {this} && (fresh(storage) || storage == old(storage))
      ensures Kept(old(storage), old(Holders()), old(Cells()), old(count), this)
    {
      if index > count { return BadIndex; }
      ghost var c := Contents();
      st := Grow(index, other.count, allocOk);
      if st.Done? { Fill(c, index, other.Contents()); }
    }

    /** insertAt: n copies of an item, or n default-constructed elements. */
    method InsertAt(item: T, index: nat, n: nat, allocOk: bool) returns (st: Status)
      requires Valid()
      modifies this, storage
      ensures st == InsertStatus(index, n, old(count), old(Capacity()), limit, old(Shared()), allocOk)
      ensures Valid()
      ensures Contents() == (if st.Done? then Inserted(old(Contents()), index, Repeated(item, n)) else old(Contents()))
      ensures st.Done? && old(Capacity()) < count ==> Capacity() == GrownCapacity(count) && moved == old(moved + count)
      ensures !st.Done? || old(Capacity()) >= count ==> Capacity() == old(Capacity()) && moved == old(moved)
      ensures !st.Done? && n > 0 ==> storage == old(storage)
      ensures Holders() <= old(Holders()) + {this} && (fresh(storage) || storage == old(storage))
      ensures Kept(old(storage), old(Holders()), old(Cells()), old(count), this)
    {
      if index > count { return BadIndex; }
      ghost var c := Contents();
      st := Grow(index, n, allocOk);
      if st.Done? { Fill(c, index, Repeated(item, n)); }
    }

    /** add, and push, which discards the status. */
    method Push(item: T, allocOk: bool) returns (st: Status)
      requires Valid()
      modifies this, storage
      ensures st == InsertStatus(old(count), 1, old(count), old(Capacity()), limit, old(Shared()), allocOk)
      ensures Valid() && Contents() == (if st.Done? then old(Contents()) + [item] else old(Contents()))
      ensures st.Done? && old(Capacity()) < count ==> Capacity() == GrownCapacity(count) && moved == old(moved + count)
      ensures st.Done? && old(count == Capacity()) ==>
                Capacity() == if old(count) <= 1 then 4 else old(count) + 1 + (old(count) + 1) / 2 + 1
      ensures !st.Done? || old(Capacity()) >= count ==> Capacity() == old(Capacity()) && moved == old(moved)
      ensures Holders() <= old(Holders()) + {this} && (fresh(storage) || storage == old(storage))
      ensures Kept(old(storage), old(Holders()), old(Cells()), old(count), this)
    {
      GrowthInNumbers(count + 1);
      st := InsertAt(item, count, 1, allocOk);
    }

    /** The reallocating half of _shrink, with its path for trivial elements dropped at the end. */
    method ShrinkIntoNewBlock(at: nat, amount: nat, capacity: nat)
      requires Valid() && storage != null && at + amount <= count && count - amount <= capacity && capacity > 0
      modifies this, storage
      ensures Valid() && Sole() && fresh(storage) && Contents() == Removed(old(Contents()), at, amount) && Capacity() == capacity
      ensures Kept(old(storage), old(Holders()), old(Cells()), old(count), this)
    {
      var size := count - amount;
      var c := storage.cells;
      CloseGap(c, count, at, amount);
      if at == size && trivial {
        Relocate(c[..size] + Raws(capacity - size), size);
      } else {
        Relocate(c[..at] + c[at + amount..count] + Raws(capacity - size), size);
      }
    }

    /** The half that keeps the block: detach, destroy, then move the tail back. */
    method ShrinkInPlace(at: nat, amount: nat, allocOk: bool) returns (ok: bool)
      requires Valid() && storage != null && at + amount <= count
      modifies this, storage
      ensures ok <==> allocOk || !old(Shared())
      ensures Valid() && Contents() == (if ok then Removed(old(Contents()), at, amount) else old(Contents()))
      ensures Capacity() == old(Capacity()) && storage != null
      ensures Holders() <= old(Holders()) + {this} && (fresh(storage) || storage == old(storage))
      ensures Kept(old(storage), old(Holders()), old(Cells()), old(count), this)
    {
      var size := count - amount;
      var c := storage.cells;
      CloseGap(c, count, at, amount);
      ok := EditArray(allocOk);
      if ok {
        Write(c[..at] + c[at + amount..count] + Raws(|c| - size), size);
      }
    }

    /** _shrink: drop `amount` elements at `at`. A block less than half used is replaced by a
        smaller one; when that cannot be allocated nothing is removed and nobody is told. */
    method Shrink(at: nat, amount: nat, allocOk: bool) returns (ok: bool)
      requires Valid() && at + amount <= count
      modifies this, storage
      ensures ok <==> allocOk || old(!Shared() || count - amount < Capacity() / 2)
      ensures Valid()
      ensures Contents() == (if !allocOk && old(Shared() || count - amount < Capacity() / 2)
                             then old(Contents()) else Removed(old(Contents()), at, amount))
      ensures Capacity() == (if old(storage) == null then 0
                             else if allocOk && old(count - amount < Capacity() / 2) then Max(MIN_CAPACITY, 2 * old(count - amount))
                             else old(Capacity()))
      ensures Holders() <= old(Holders()) + {this} && (storage == null || fresh(storage) || storage == old(storage))
      ensures Kept(old(storage), old(Holders()), old(Cells()), old(count), this)
    {
      if storage == null { return true; }
      var size := count - amount;
      if size < Capacity() / 2 {
        if allocOk { ShrinkIntoNewBlock(at, amount, Max(MIN_CAPACITY, size * 2)); }
        ok := true;
      } else {
        ok := ShrinkInPlace(at, amount, allocOk);
      }
    }

    /** _shrink at an index far behind the end, up to where it leaves the block. */
    method ShrinkAstray(index: nat, n: nat, allocOk: bool) returns (st: Status)
      requires Valid() && storage != null && n <= count
      modifies this, storage
      ensures st == (if count - n >= Capacity() / 2 && old(Shared()) && !allocOk then Fatal
                     else if count - n >= Capacity() / 2 || allocOk then Stray else Done(index))
      ensures Valid() && Contents() == old(Contents()) && count == old(count) && Capacity() == old(Capacity())
      ensures Holders() <= old(Holders()) + {this} && (fresh(storage) || storage == old(storage))
      ensures Kept(old(storage), old(Holders()), old(Cells()), old(count), this)
    {
      if count - n < Capacity() / 2 { return if allocOk then Stray else Done(index); }
      var ok := EditArray(allocOk);
      return if ok then Stray else Fatal;
    }

    method RemoveItemsAt(index: nat, n: nat, allocOk: bool) returns (st: Status)
      requires Valid()
      modifies this, storage
      ensures st == RemoveStatus(index, n, old(count), old(Capacity()), old(Shared()), allocOk)
      ensures Valid()
      ensures Contents() == (if index + n > old(count) || (!allocOk && old(Shared() || count - n < Capacity() / 2))
                             then old(Contents()) else Removed(old(Contents()), index, n))
      ensures Holders() <= old(Holders()) + {this} && (storage == null || fresh(storage) || storage == old(storage))
      ensures Kept(old(storage), old(Holders()), old(Cells()), old(count), this)
    {
      if (index + n) % SIZES > count { return BadValue; }
      if storage == null { return Done(index); }
      if n > count { return Fatal; }
      if index + n > SIZE_MAX {
        st := ShrinkAstray(index, n, allocOk);
        return;
      }
      var ok := Shrink(index, n, allocOk);
      return if ok then Done(index) else Fatal;
    }

    method Pop(allocOk: bool) returns (st: Status)
      requires Valid()
      modifies this, storage
      ensures st == (if old(count) == 0 then Done(0)
                     else if old(Shared() && count - 1 >= Capacity() / 2) && !allocOk then Fatal else Done(old(count) - 1))
      ensures Valid()
      ensures Contents() == (if old(count == 0 || (!allocOk && (Shared() || count - 1 < Capacity() / 2)))
                             then old(Contents()) else old(Contents())[..old(count) - 1])
      ensures Holders() <= old(Holders()) + {this} && (storage == null || fresh(storage) || storage == old(storage))
      ensures Kept(old(storage), old(Holders()), old(Cells()), old(count), this)
    {
      if count == 0 { return Done(0); }
      st := RemoveItemsAt(count - 1, 1, allocOk);
    }

    method Clear(allocOk: bool) returns (ok: bool)
      requires Valid()
      modifies this, storage
      ensures ok <==> allocOk || old(!Shared() || 0 < Capacity() / 2)
      ensures Valid()
      ensures Contents() == (if !allocOk && old(Shared() || 0 < Capacity() / 2) then old(Contents()) else [])
      ensures Holders() <= old(Holders()) + {this} && (storage == null || fresh(storage) || storage == old(storage))
      ensures Kept(old(storage), old(Holders()), old(Cells()), old(count), this)
    {
      ok := Shrink(0, count, allocOk);
    }

    /** replaceAt with an element, or with a default-constructed one. */
    method ReplaceAt(item: T, index: nat, allocOk: bool) returns (st: Status)
      requires Valid()
      modifies this, storage
      ensures st == (if index >= old(count) then BadIndex else if old(Shared()) && !allocOk then Fatal else Done(index))
      ensures Valid() && Contents() == (if st.Done? then old(Contents())[index := item] else old(Contents()))
      ensures Capacity() == old(Capacity()) && (!st.Done? ==> storage == old(storage))
      ensures Holders() <= old(Holders()) + {this} && (storage == null || fresh(storage) || storage == old(storage))
      ensures Kept(old(storage), old(Holders()), old(Cells()), old(count), this)
    {
      if index >= count { return BadIndex; }
      var ok := EditArray(allocOk);
      if !ok { return Fatal; }
      ghost var c := Contents();
      Write(storage.cells[index := Item(item)], count);
      assert Contents() == c[index := item];
      return Done(index);
    }

    method SetCapacity(capacity: nat, allocOk: bool) returns (st: Status)
      requires Valid()
      modifies this, storage
      ensures st == (if capacity <= old(count) then Done(old(Capacity()))
                     else if capacity > limit then Fatal
                     else if allocOk then Done(capacity) else NoMemory)
      ensures Valid() && Contents() == old(Contents())
      ensures Capacity() == (if capacity > old(count) && st.Done? then capacity else old(Capacity()))
      ensures Holders() <= old(Holders()) + {this} && (storage == null || fresh(storage) || storage == old(storage))
      ensures Kept(old(storage), old(Holders()), old(Cells()), old(count), this)
    {
      if capacity <= count { return Done(Capacity()); }
      if capacity > limit { return Fatal; }
      if !allocOk { return NoMemory; }
      ghost var c := Contents();
      Relocate(Cells()[..count] + Raws(capacity - count), count);
      assert Contents() == c;
      return Done(capacity);
    }

    method Resize(size: nat, default: T, allocOk: bool) returns (st: Status)
      requires Valid()
      modifies this, storage
      ensures st == ResizeStatus(size, old(count), old(Capacity()), limit, old(Shared()), allocOk)
      ensures Valid()
      ensures Contents() == (if !st.Done? || (size < old(count) && !allocOk && old(Shared() || size < Capacity() / 2))
                             then old(Contents()) else Resized(old(Contents()), size, default))
      ensures Holders() <= old(Holders()) + {this} && (storage == null || fresh(storage) || storage == old(storage))
      ensures Kept(old(storage), old(Holders()), old(Cells()), old(count), this)
    {
      st := Done(size);
      if size > count {
        st := InsertAt(default, count, size - count, allocOk);
      } else if size < count {
        st := RemoveItemsAt(size, count - size, allocOk);
      }
      if st.Done? { st := Done(size); }
    }

    /** Overwrite the elements of a block nobody else holds. */
    method Overwrite(c: seq<T>)
      requires Valid() && Sole() && |c| == count
      modifies this, storage
      ensures Valid() && Sole() && Contents() == c && storage == old(storage) && Capacity() == old(Capacity())
      ensures Kept(old(storage), old(Holders()), old(Cells()), old(count), this)
    {
      Write(Items(c) + Raws(|storage.cells| - count), count);
      assert Contents() == c;
    }

    /** The rest of sort in a block nobody else holds. */
    method SortInPlace(c: seq<T>, i: nat, cmp: Compare<T>)
      requires Valid() && Sole() && c == Contents() && 0 < i < |c| && NoDescent(c[..i], cmp)
      modifies this, storage
      ensures Valid() && Sole() && Contents() == Sorted(c, cmp) && storage == old(storage)
      ensures Kept(old(storage), old(Holders()), old(Cells()), old(count), this)
    {
      var a := SortRest(c, i, cmp);
      Overwrite(a);
    }

    /** sort from its first descent on: detach, allocate the temporary, and work in place. */
    method SortFrom(c: seq<T>, i: nat, cmp: Compare<T>, allocOk: bool, tempOk: bool) returns (st: Status)
      requires Valid() && c == Contents() && 0 < i < |c| && NoDescent(c[..i], cmp)
      modifies this, storage
      ensures st == (if old(Shared()) && !allocOk then Fatal else if !tempOk then NoMemory else Done(0))
      ensures Valid() && Contents() == (if st.Done? then Sorted(old(Contents()), cmp) else old(Contents()))
      ensures Holders() <= old(Holders()) + {this} && (fresh(storage) || storage == old(storage))
      ensures Kept(old(storage), old(Holders()), old(Cells()), old(count), this)
    {
      var ok := EditArray(allocOk);
      if !ok { return Fatal; }
      if !tempOk { return NoMemory; }
      SortInPlace(c, i, cmp);
      return Done(0);
    }

    /** sort: the block is detached, and the temporary allocated, at the first descent. */
    method Sort(cmp: Compare<T>, allocOk: bool, tempOk: bool) returns (st: Status)
      requires Valid()
      modifies this, storage
      ensures st == (if NoDescent(old(Contents()), cmp) then Done(0)
                     else if old(Shared()) && !allocOk then Fatal
                     else if !tempOk then NoMemory else Done(0))
      ensures Valid() && Contents() == (if st.Done? then Sorted(old(Contents()), cmp) else old(Contents()))
      ensures NoDescent(old(Contents()), cmp) ==> storage == old(storage)
      ensures Holders() <= old(Holders()) + {this} && (storage == null || fresh(storage) || storage == old(storage))
      ensures Kept(old(storage), old(Holders()), old(Cells()), old(count), this)
    {
      var c := Contents();
      if |c| <= 1 { return Done(0); }
      for i := 1 to |c|
        invariant NoDescent(c[..i], cmp)
      {
        if cmp(c[i - 1], c[i]) > 0 {
          assert !NoDescent(c, cmp);
          st := SortFrom(c, i, cmp, allocOk, tempOk);
          return st;
        }
      }
      assert c[..|c|] == c;
      NoDescentIsSorted(c, cmp);
      return Done(0);
    }
  }
}
