/** The linked list behind the timer queue of charge_only_mode/alarm.c. */
module AlarmList {
  import opened AlarmQueue

  class Node<C> {
    var next: Node?<C>
    const time: TimeVal
    const f: C
    ghost const serial: nat   // its number in the order of setting
    ghost var frees: nat      // how often it has been freed

    constructor (time: TimeVal, f: C, ghost serial: nat)
      ensures this.time == time && this.f == f && this.serial == serial && next == null && frees == 0
    {
      this.time, this.f, next := time, f, null;
      this.serial, frees := serial, 0;
    }

    ghost function Value(): Alarm<C> { Alarm(time, f, serial) }

    method Free()
      modifies this`frees
      ensures frees == old(frees) + 1
    {
      frees := frees + 1;
    }
  }

  ghost function Values<C>(nodes: seq<Node<C>>): (r: seq<Alarm<C>>)
    ensures |r| == |nodes| && forall i :: 0 <= i < |nodes| ==> r[i] == nodes[i].Value()
  {
    seq(|nodes|, i requires 0 <= i < |nodes| => nodes[i].Value())
  }

  ghost function At<C>(nodes: seq<Node<C>>, i: nat): Node?<C> { if i < |nodes| then nodes[i] else null }

  ghost predicate Owned<C>(nodes: seq<Node<C>>, repr: set<Node<C>>) {
    forall i :: 0 <= i < |nodes| ==> nodes[i] in repr
  }

  ghost predicate Distinct<C>(nodes: seq<Node<C>>) { forall i, j :: 0 <= i < j < |nodes| ==> nodes[i] != nodes[j] }

  ghost predicate Nexts<C>(nodes: seq<Node<C>>)
    reads nodes
  {
    forall i {:trigger nodes[i].next} :: 0 <= i < |nodes| ==> nodes[i].next == At(nodes, i + 1)
  }

  /** The nodes are allocated, all different, and linked in their order. */
  ghost predicate Linked<C>(nodes: seq<Node<C>>)
    reads nodes
  {
    Distinct(nodes) && (forall i :: 0 <= i < |nodes| ==> nodes[i].frees == 0) && Nexts(nodes)
  }

  /** Of the nodes `before`, those no longer in the list have been freed, once. */
  ghost predicate FreedBut<C>(before: seq<Node<C>>, nodes: seq<Node<C>>)
    reads before
  {
    forall j :: 0 <= j < |before| ==> before[j] in nodes || before[j].frees == 1
  }

  /** The list with a put in place i. */
  ghost function With<C>(nodes: seq<Node<C>>, a: Node<C>, i: nat): (r: seq<Node<C>>)
    requires i <= |nodes|
    ensures |r| == |nodes| + 1
    ensures forall j :: 0 <= j < |r| ==> r[j] == (if j < i then nodes[j] else if j == i then a else nodes[j - 1])
  {
    nodes[..i] + [a] + nodes[i..]
  }

  lemma WithDistinct<C>(nodes: seq<Node<C>>, a: Node<C>, i: nat)
    requires Distinct(nodes) && a !in nodes && i <= |nodes|
    ensures Distinct(With(nodes, a, i))
  {
  }

  lemma WithLinked<C>(nodes: seq<Node<C>>, a: Node<C>, i: nat, repr: set<Node<C>>)
    requires i <= |nodes| && Distinct(nodes) && a !in nodes && a.frees == 0 && Owned(nodes, repr)
    requires (forall j :: 0 <= j < |nodes| ==> nodes[j].frees == 0) && Nexts(With(nodes, a, i))
    ensures Linked(With(nodes, a, i)) && Owned(With(nodes, a, i), repr + {a})
  {
    WithDistinct(nodes, a, i);
  }

  class Queue<C(==)> {
    var alarms: Node?<C>
    ghost var nodes: seq<Node<C>>
    ghost var repr: set<Node<C>>    // nodes that belong to the list or were freed by it
    ghost var serials: nat          // alarms set so far

    ghost predicate Valid()
      reads this, repr
    {
      && Owned(nodes, repr) && alarms == At(nodes, 0) && Linked(nodes)
      && Ordered(Values(nodes)) && SetBefore(Values(nodes), serials)
    }

    ghost function Contents(): seq<Alarm<C>>
      reads this
    {
      Values(nodes)
    }

    constructor ()
      ensures Valid() && Contents() == [] && repr == {} && serials == 0
    {
      alarms := null;
      nodes, repr, serials := [], {}, 0;
    }

    /** The search loop of alarm_set_relative: the node behind which an alarm at t belongs. */
    method FindPlace(t: TimeVal) returns (p: Node?<C>, ghost i: nat)
      requires Valid()
      ensures i <= |nodes| && p == (if i == 0 then null else nodes[i - 1])
      ensures forall j :: 0 <= j < i ==> !Later(nodes[j].time, t)
      ensures i < |nodes| ==> Later(nodes[i].time, t)
    {
      p, i := null, 0;
      var c := alarms;
      while c != null && !Later(c.time, t)
        invariant i <= |nodes| && c == At(nodes, i) && p == (if i == 0 then null else nodes[i - 1])
        invariant forall j :: 0 <= j < i ==> !Later(nodes[j].time, t)
        decreases |nodes| - i
      {
        p, c, i := c, c.next, i + 1;
      }
    }

    /** The tail of alarm_set_relative: link a behind p, which is the node before place i. */
    method LinkBehind(p: Node?<C>, a: Node<C>, ghost i: nat)
      requires alarms == At(nodes, 0) && Distinct(nodes) && Nexts(nodes) && a !in nodes && i <= |nodes|
      requires p == (if i == 0 then null else nodes[i - 1]) && Owned(nodes, repr)
      modifies this`alarms, repr`next, a`next
      ensures alarms == At(With(nodes, a, i), 0) && Nexts(With(nodes, a, i))
    {
      if p == null {
        a.next := alarms;
        alarms := a;
      } else {
        a.next := p.next;
        p.next := a;
      }
    }

    /** The unlinking in alarm_process: the first node leaves the list but stays allocated. */
    method TakeFirst() returns (a: Node<C>)
      requires Valid() && nodes != []
      modifies this
      ensures Valid() && Contents() == old(Contents())[1..] && a.Value() == old(Contents())[0]
      ensures a == old(nodes[0]) && a in old(repr) && repr == old(repr) - {a} && a.frees == 0 && serials == old(serials)
    {
      a := alarms;
      alarms := a.next;
      nodes := nodes[1..];
      repr := repr - {a};
      assert Values(nodes) == old(Values(nodes))[1..];
    }

    /** Link a behind p and count it among the nodes. */
    method Splice(p: Node?<C>, a: Node<C>, ghost i: nat)
      requires alarms == At(nodes, 0) && Linked(nodes) && Owned(nodes, repr) && a !in repr && a.frees == 0
      requires i <= |nodes| && p == (if i == 0 then null else nodes[i - 1])
      modifies this`alarms, this`nodes, this`repr, repr`next, a`next
      ensures nodes == old(With(nodes, a, i)) && repr == old(repr) + {a}
      ensures alarms == At(nodes, 0) && Linked(nodes) && Owned(nodes, repr)
    {
      LinkBehind(p, a, i);
      WithLinked(nodes, a, i, repr);
      nodes, repr := With(nodes, a, i), repr + {a};
    }

    /** alarm_set_relative once the node is filled in. */
    method Insert(a: Node<C>)
      requires Valid() && a !in repr && a.frees == 0 && a.serial == serials
      modifies this, repr, a
      ensures Valid() && Contents() == Inserted(old(Contents()), a.Value()) && repr == old(repr) + {a} && serials == old(serials) + 1
    {
      var p;
      ghost var i;
      p, i := FindPlace(a.time);
      InsertedNodes(nodes, a, i, serials);
      Splice(p, a, i);
      serials := serials + 1;
    }

    /** alarm_set_relative, at the time `now` it reads. */
    method SetRelative(f: C, ms: nat, now: TimeVal)
      requires Valid()
      modifies this, repr
      ensures Valid() && Contents() == Inserted(old(Contents()), Alarm(Plus(now, ms), f, old(serials)))
      ensures serials == old(serials) + 1 && fresh(repr - old(repr))
    {
      var a := new Node(Plus(now, ms), f, serials);
      Insert(a);
    }

    /** Take c, at place i behind p, out of the list and free it. */
    method Unlink(p: Node?<C>, c: Node<C>, ghost i: nat)
      requires alarms == At(nodes, 0) && Linked(nodes) && i < |nodes| && c == nodes[i]
      requires p == (if i == 0 then null else nodes[i - 1])
      modifies this`alarms, this`nodes, p, c
      ensures alarms == At(nodes, 0) && Linked(nodes) && nodes == old(nodes[..i] + nodes[i + 1..])
      ensures c.frees == 1
    {
      if p != null {
        p.next := c.next;
      } else {
        alarms := c.next;
      }
      ghost var before := nodes;
      nodes := before[..i] + before[i + 1..];
      assert forall j :: 0 <= j < |nodes| ==> nodes[j] == (if j < i then before[j] else before[j + 1]);
      c.Free();
    }

    /** alarm_cancel stands at c, the node at place i of a list with contents v, with p before it. */
    ghost predicate Sifting(p: Node?<C>, c: Node?<C>, v: seq<Alarm<C>>, i: nat)
      reads this, nodes
    {
      && Owned(nodes, repr) && i <= |nodes| && alarms == At(nodes, 0) && Linked(nodes) && Values(nodes) == v
      && c == At(nodes, i) && p == (if i == 0 then null else nodes[i - 1])
    }

    /** One node of alarm_cancel. */
    method SiftNode(p0: Node?<C>, c0: Node<C>, f: C, ghost v: seq<Alarm<C>>, ghost i: nat, ghost v': seq<Alarm<C>>, ghost i': nat,
                    ghost before: seq<Node<C>>)
      returns (p: Node?<C>, c: Node?<C>, gone: bool)
      requires Sifting(p0, c0, v, i) && SiftStep(v, i, v', i', f) && FreedBut(before, nodes)
      modifies this`alarms, this`nodes, p0, c0
      ensures Sifting(p, c, v', i') && i' == (if gone then i else i + 1)
      ensures FreedBut(before, nodes)
    {
      gone := c0.f == f;
      if gone {
        ValuesRemoved(nodes, i);
        StillThere(before, nodes, i);
        p, c := p0, c0.next;
        Unlink(p0, c0, i);
      } else {
        p, c := c0, c0.next;
      }
    }

    /** alarm_cancel has looked at k alarms and cancelled so many; the list is as it should be then. */
    ghost predicate Sifted(p: Node?<C>, c: Node?<C>, lists: seq<seq<Alarm<C>>>, places: seq<nat>, k: nat, before: seq<Node<C>>, cancelled: nat)
      reads this, nodes, before
    {
      k < |lists| == |places| && Sifting(p, c, lists[k], places[k]) && FreedBut(before, nodes) && cancelled + places[k] == k
    }

    /** One turn of its loop. */
    method SiftNext(p0: Node?<C>, c0: Node<C>, f: C, ghost lists: seq<seq<Alarm<C>>>, ghost places: seq<nat>, ghost k: nat,
                    ghost before: seq<Node<C>>, cancelled0: nat)
      returns (p: Node?<C>, c: Node?<C>, cancelled: nat)
      requires Sifts(lists, places, f) && Sifted(p0, c0, lists, places, k, before, cancelled0)
      modifies this`alarms, this`nodes, p0, c0
      ensures Sifted(p, c, lists, places, k + 1, before, cancelled) && (p == null || p in repr) && (c == null || c in repr)
    {
      InsideUntilLast(lists, places, k, f);
      var gone;
      p, c, gone := SiftNode(p0, c0, f, lists[k], places[k], lists[k + 1], places[k + 1], before);
      cancelled := if gone then cancelled0 + 1 else cancelled0;
    }

    /** The loop of alarm_cancel. */
    method SiftAll(f: C, ghost lists: seq<seq<Alarm<C>>>, ghost places: seq<nat>) returns (cancelled: nat)
      requires Sifts(lists, places, f) && Sifting(null, alarms, lists[0], 0)
      modifies this`alarms, this`nodes, repr
      ensures FreedBut(old(nodes), nodes) && cancelled + |nodes| == |lists| - 1
      ensures Owned(nodes, repr) && alarms == At(nodes, 0) && Linked(nodes) && Values(nodes) == lists[|lists| - 1]
    {
      ghost var before, k := nodes, 0;
      cancelled := 0;
      var p: Node?<C>, c := null, alarms;
      while c != null
        invariant Sifted(p, c, lists, places, k, before, cancelled)
        invariant (p == null || p in repr) && (c == null || c in repr)
        decreases |lists| - k
      {
        p, c, cancelled := SiftNext(p, c, f, lists, places, k, before, cancelled);
        k := k + 1;
      }
      InsideUntilLast(lists, places, k, f);
    }

    /** alarm_cancel. */
    method Cancel(f: C) returns (cancelled: nat)
      requires Valid()
      modifies this, repr
      ensures Valid() && Contents() == Without(old(Contents()), f) && cancelled == Count(old(Contents()), f)
      ensures repr == old(repr) && serials == old(serials)
      ensures FreedBut(old(nodes), nodes)
    {
      ghost var v := Contents();
      ghost var lists, places := SiftsOf(v, f);
      CountTotal(v, f);
      WithoutOrdered(v, f, serials);
      cancelled := SiftAll(f, lists, places);
    }
  }

  /** A place lies inside its list exactly where another one follows it. */
  lemma InsideUntilLast<C>(lists: seq<seq<Alarm<C>>>, places: seq<nat>, k: nat, f: C)
    requires Sifts(lists, places, f) && k < |lists|
    ensures k + 1 < |lists| <==> places[k] < |lists[k]|
    ensures k + 1 < |lists| ==> SiftStep(lists[k], places[k], lists[k + 1], places[k + 1], f)
  {
    if k + 1 < |lists| { assert StepAt(lists, places, k, f); }
  }

  lemma ValuesRemoved<C>(nodes: seq<Node<C>>, i: nat)
    requires i < |nodes|
    ensures Values(nodes[..i] + nodes[i + 1..]) == Values(nodes)[..i] + Values(nodes)[i + 1..]
  {
  }

  lemma StillThere<C>(before: seq<Node<C>>, nodes: seq<Node<C>>, i: nat)
    requires i < |nodes| && FreedBut(before, nodes)
    ensures forall j :: 0 <= j < |before| ==> before[j] == nodes[i] || before[j] in nodes[..i] + nodes[i + 1..] || before[j].frees == 1
  {
    assert nodes == nodes[..i] + [nodes[i]] + nodes[i + 1..];
  }

  lemma InsertedNodes<C>(nodes: seq<Node<C>>, a: Node<C>, i: nat, n: nat)
    requires i <= |nodes| && (forall j :: 0 <= j < i ==> !Later(nodes[j].time, a.time)) && (i < |nodes| ==> Later(nodes[i].time, a.time))
    requires Ordered(Values(nodes)) && SetBefore(Values(nodes), n) && a.serial == n && Distinct(nodes) && a !in nodes
    ensures var r := Values(With(nodes, a, i));
            r == Inserted(Values(nodes), a.Value()) && Ordered(r) && SetBefore(r, n + 1) && Distinct(With(nodes, a, i))
  {
    InsertedAt(Values(nodes), a.Value(), i);
    InsertedOrdered(Values(nodes), a.Value());
    ValuesInserted(nodes, a, i);
    WithDistinct(nodes, a, i);
  }

  lemma ValuesInserted<C>(nodes: seq<Node<C>>, a: Node<C>, i: nat)
    requires i <= |nodes|
    ensures Values(With(nodes, a, i)) == Values(nodes)[..i] + [a.Value()] + Values(nodes)[i..]
  {
  }
}
