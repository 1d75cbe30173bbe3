/** The FileRec list of aplogd/modemlog.c and the loops of checkdir over it. */
module PanicStore {
  import opened PanicRetention

  class FileRec {
    var next: FileRec?
    var prev: FileRec?
    const file: File
    var alive: bool      // allocated and not yet freed

    constructor (file: File)
      ensures this.file == file && next == null && prev == null && alive
    {
      this.file, next, prev, alive := file, null, null, true;
    }
  }

  ghost function Values(recs: seq<FileRec>): (r: seq<File>)
    ensures |r| == |recs| && forall i :: 0 <= i < |recs| ==> r[i] == recs[i].file
  {
    seq(|recs|, i requires 0 <= i < |recs| => recs[i].file)
  }

  ghost function At(recs: seq<FileRec>, i: int): FileRec? { if 0 <= i < |recs| then recs[i] else null }

  ghost predicate Distinct(recs: seq<FileRec>) { forall i, j :: 0 <= i < j < |recs| ==> recs[i] != recs[j] }

  ghost predicate Nexts(recs: seq<FileRec>)
    reads recs
  {
    forall i {:trigger recs[i].next} :: 0 <= i < |recs| ==> recs[i].next == At(recs, i + 1)
  }

  ghost predicate Prevs(recs: seq<FileRec>)
    reads recs
  {
    forall i {:trigger recs[i].prev} :: 0 <= i < |recs| ==> recs[i].prev == At(recs, i - 1)
  }

  /** The records are allocated, all different, and linked both ways in their order. */
  ghost predicate Linked(recs: seq<FileRec>)
    reads recs
  {
    Distinct(recs) && (forall i :: 0 <= i < |recs| ==> recs[i].alive) && Nexts(recs) && Prevs(recs)
  }

  ghost function Without(recs: seq<FileRec>, i: nat): (r: seq<FileRec>)
    requires i < |recs|
    ensures |r| == |recs| - 1 && forall j :: 0 <= j < |r| ==> r[j] == (if j < i then recs[j] else recs[j + 1])
  {
    recs[..i] + recs[i + 1..]
  }

  lemma ValuesParts(recs: seq<FileRec>, i: nat)
    requires i < |recs|
    ensures Values(recs[..i] + recs[i + 1..]) == Values(recs[..i]) + Values(recs[i + 1..])
    ensures Values(recs) == Values(recs[..i]) + [recs[i].file] + Values(recs[i + 1..])
  {
  }

  /** A list whose first record links back to a new one in front of it. */
  lemma FrontLinked(rec: FileRec, recs: seq<FileRec>)
    requires Distinct(recs) && rec !in recs && rec.alive && rec.prev == null && rec.next == At(recs, 0)
    requires (forall i :: 0 <= i < |recs| ==> recs[i].alive) && Nexts(recs)
    requires forall i {:trigger recs[i].prev} :: 0 <= i < |recs| ==> recs[i].prev == if i == 0 then rec else recs[i - 1]
    ensures Linked([rec] + recs)
  {
    var all := [rec] + recs;
    forall i | 0 <= i < |all| ensures all[i].alive && all[i].next == At(all, i + 1) && all[i].prev == At(all, i - 1) {
      if i > 0 { assert all[i] == recs[i - 1]; }
    }
  }

  lemma StillListed(recs: seq<FileRec>, i: nat, r: FileRec)
    requires i < |recs| && r in recs && r != recs[i]
    ensures r in Without(recs, i)
  {
    var j :| 0 <= j < |recs| && recs[j] == r;
    assert Without(recs, i)[if j < i then j else j - 1] == r;
  }

  lemma NotListed(recs: seq<FileRec>, i: nat)
    requires Distinct(recs) && i < |recs|
    ensures recs[i] !in Without(recs, i) && Distinct(Without(recs, i))
  {
  }

  class Store {
    var first: FileRec?
    ghost var recs: seq<FileRec>
    ghost var repr: set<FileRec>   // every record ever made

    ghost predicate Chained()
      reads this, repr
    {
      && (forall i :: 0 <= i < |recs| ==> recs[i] in repr)
      && first == At(recs, 0) && Linked(recs)
    }

    /** The list is linked, and the records still allocated are those of the list. */
    ghost predicate Valid()
      reads this, repr
    {
      Chained() && forall r :: r in repr && r.alive ==> r in recs
    }

    ghost function Contents(): seq<File>
      reads this
    {
      Values(recs)
    }

    constructor ()
      ensures Valid() && Contents() == [] && repr == {}
    {
      first, recs, repr := null, [], {};
    }

    /** Link a new record in front. */
    method Link(rec: FileRec)
      requires Chained() && rec !in repr && rec !in recs && rec.alive && rec.prev == null && rec.next == null
      modifies this`first, rec`next, repr`prev
      ensures first == rec && Linked([rec] + recs)
    {
      if first == null {
        first := rec;
      } else {
        rec.next := first;
        first.prev := rec;
        first := rec;
      }
      FrontLinked(rec, recs);
    }

    /** FileRecCopy: put a record in front. */
    method Add(file: File)
      requires Valid()
      modifies this, repr
      ensures Valid() && Contents() == [file] + old(Contents()) && fresh(repr - old(repr))
    {
      var rec := new FileRec(file);
      Link(rec);
      assert Values([rec] + recs) == [file] + Values(recs);
      recs := [rec] + recs;
      repr := repr + {rec};
    }

    /** The forward links around the record at place i. */
    method SkipForward(rec: FileRec, ghost i: nat)
      requires Chained() && i < |recs| && rec == recs[i]
      modifies this`first, repr`next
      ensures first == At(Without(recs, i), 0) && Nexts(Without(recs, i)) && rec.next == old(rec.next)
    {
      if rec.prev != null {
        rec.prev.next := rec.next;
      } else {
        first := rec.next;
      }
    }

    /** The backward links around it. */
    method SkipBackward(rec: FileRec, ghost i: nat)
      requires Distinct(recs) && Prevs(recs) && i < |recs| && rec == recs[i] && rec.next == At(recs, i + 1)
      requires forall j :: 0 <= j < |recs| ==> recs[j] in repr
      modifies repr`prev
      ensures Prevs(Without(recs, i))
    {
      if rec.next != null {
        rec.next.prev := rec.prev;
      }
    }

    /** Take the record at place i out of the list. */
    method Unlink(rec: FileRec, ghost i: nat)
      requires Chained() && i < |recs| && rec == recs[i]
      modifies this`first, this`recs, repr`next, repr`prev
      ensures Chained() && recs == old(Without(recs, i))
    {
      SkipForward(rec, i);
      SkipBackward(rec, i);
      NotListed(recs, i);
      recs := Without(recs, i);
    }

    /** FileRecDel of the record at place i. */
    method Delete(rec: FileRec, ghost i: nat)
      requires Valid() && i < |recs| && rec == recs[i]
      modifies this, repr
      ensures Valid() && recs == old(Without(recs, i)) && repr == old(repr) && !rec.alive
      ensures forall r :: r in repr && r != rec ==> r.alive == old(r.alive)
    {
      NotListed(recs, i);
      forall r | r in repr && r.alive && r != rec ensures r in Without(recs, i) { StillListed(recs, i, r); }
      Unlink(rec, i);
      Free(rec);
    }

    /** Clear and free a record that is out of the list. */
    method Free(rec: FileRec)
      requires Chained() && rec !in recs && rec.alive && rec in repr
      requires forall r :: r in repr && r.alive && r != rec ==> r in recs
      modifies rec
      ensures Valid() && !rec.alive
    {
      rec.prev := null;
      rec.next := null;
      rec.alive := false;
    }

    /** The inner loop of checkdir: the first of the oldest records. */
    method FindOldest() returns (oldest: FileRec?, ghost i: nat)
      requires Valid()
      ensures oldest == null <==> recs == []
      ensures recs != [] ==> i < |recs| && oldest == recs[i] && OldestFirst(Values(recs[..i]), recs[i].file, Values(recs[i + 1..]))
    {
      oldest, i := null, 0;
      var idx := first;
      ghost var k := 0;
      while idx != null
        invariant k <= |recs| && idx == At(recs, k) && (oldest == null <==> k == 0)
        invariant k > 0 ==> i < k && oldest == recs[i]
        invariant k > 0 ==> forall j :: 0 <= j < i ==> recs[i].file.mtime < recs[j].file.mtime
        invariant k > 0 ==> forall j :: i < j < k ==> recs[i].file.mtime <= recs[j].file.mtime
        decreases |recs| - k
      {
        if oldest == null || oldest.file.mtime > idx.file.mtime {
          oldest, i := idx, k;
        }
        idx, k := idx.next, k + 1;
      }
    }

    /** One turn of the first loop of checkdir. */
    method ListEntry(f: File, total: int) returns (now: int)
      requires Valid() && total == Wrap32(Sum(Contents()))
      modifies this, repr
      ensures Valid() && Contents() == (if Dotted(f) then [] else [f]) + old(Contents())
      ensures now == Wrap32(Sum(Contents())) && fresh(repr - old(repr))
    {
      ghost var c := Contents();
      if Dotted(f) {
        assert [] + c == c;
        now := total;
      } else {
        now := Wrap32(total + f.size);
        CountFront(f, c, total);
        Add(f);
      }
    }

    /** The first loop of checkdir: list the directory and add up the sizes. */
    method List(entries: seq<File>) returns (total: int)
      requires Valid() && recs == []
      modifies this, repr
      ensures Valid() && Contents() == Listed(entries) && total == Wrap32(Sum(Contents())) && fresh(repr - old(repr))
    {
      total := 0;
      for i := 0 to |entries|
        invariant Valid() && Contents() == Listed(entries[..i]) && total == Wrap32(Sum(Contents())) && fresh(repr - old(repr))
      {
        ListedNext(entries, i);
        total := ListEntry(entries[i], total);
      }
      assert entries[..|entries|] == entries;
    }

    /** One turn of the second loop: unlink the oldest file. */
    method EvictOldest(ghost list: seq<File>, ghost deleted: seq<File>) returns (gone: File)
      requires Valid() && Evicting(LooksHeavy, list, deleted, Contents()) && LooksHeavy(Sum(Contents()))
      modifies this, repr
      ensures Valid() && Evicting(LooksHeavy, list, deleted + [gone], Contents()) && |recs| == old(|recs|) - 1
      ensures old(Sum(Contents())) == Sum(Contents()) + gone.size && repr == old(repr)
    {
      assert recs != [];
      var oldest;
      ghost var i;
      oldest, i := FindOldest();
      gone := oldest.file;
      ValuesParts(recs, i);
      EvictOne(LooksHeavy, list, deleted, Values(recs[..i]), gone, Values(recs[i + 1..]));
      SumWithout(Values(recs[..i]), gone, Values(recs[i + 1..]));
      Delete(oldest, i);
    }

    /** The second loop of checkdir: delete the oldest file while the total is too large. */
    method Evict(total0: int) returns (deleted: seq<File>)
      requires Valid() && total0 == Wrap32(Sum(Contents()))
      modifies this, repr
      ensures Valid() && Evicting(LooksHeavy, old(Contents()), deleted, Contents()) && !LooksHeavy(Sum(Contents())) && repr == old(repr)
    {
      ghost var list := Contents();
      EvictNone(LooksHeavy, list);
      var total := total0;
      deleted := [];
      while total > MAXTOTALSIZE
        invariant Valid() && Evicting(LooksHeavy, list, deleted, Contents()) && total == Wrap32(Sum(Contents())) && repr == old(repr)
        decreases |recs|
      {
        ghost var sum := Sum(Contents());
        var gone := EvictOldest(list, deleted);
        deleted := deleted + [gone];
        CountSize(total, sum, gone.size);
        total := Wrap32(total - Wrap32(gone.size));   // FileRec keeps the size in an int
      }
    }

    /** The last loop of checkdir. */
    method Drain()
      requires Valid()
      modifies this, repr
      ensures Valid() && first == null && recs == [] && repr == old(repr) && forall r :: r in repr ==> !r.alive
    {
      while first != null
        invariant Valid() && repr == old(repr)
        decreases |recs|
      {
        Delete(first, 0);
      }
    }

    /** checkdir: what it deletes is the shortest oldest-first prefix that satisfies the counter, the
        list ends empty, and every record made is freed. */
    method CheckDir(entries: seq<File>) returns (deleted: seq<File>)
      requires Valid() && first == null
      modifies this, repr
      ensures Stopped(entries, deleted) && Valid() && first == null && recs == [] && fresh(repr - old(repr))
      ensures forall r :: r in repr ==> !r.alive
      ensures forall i :: 0 <= i < |deleted| ==> deleted[i] in entries && deleted[i].name != "." && deleted[i].name != ".."
      ensures Retained(entries, deleted) <==> NoEarlyStop(entries)
      ensures Retained(entries, deleted) ==> Sum(Listed(entries)) - Sum(deleted) <= 102400
      ensures Sum(Listed(entries)) < 0x8000_0000 ==> Retained(entries, deleted)
    {
      var total := List(entries);
      deleted := Evict(total);
      EvictedIsShortest(LooksHeavy, entries, deleted, Contents());
      RetentionIsExact(entries, deleted);
      if Retained(entries, deleted) { RetainedSize(entries, deleted); }
      forall i: nat | i < |deleted| ensures deleted[i] in entries && deleted[i].name != "." && deleted[i].name != ".." {
        OnlyFilesGo(LooksHeavy, entries, deleted, i);
      }
      Drain();
    }
  }
}
