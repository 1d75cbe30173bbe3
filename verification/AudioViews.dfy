/** The invariant behind the audio wrapper's locking, stated on what each thread holds (its
    view) rather than where it is, and the ways a step may change it. */
module AudioViews {
  import opened Options
  import opened AudioLocking

  datatype Scene = Scene(inp: Table, out: Table, dev: Option<Tid>, view: map<Tid, View>)

  function Slots(a: Scene, d: Dir): seq<Slot> { if d == In then a.inp.slots else a.out.slots }

  function Owner(a: Scene, d: Dir): Option<Tid> { if d == In then a.inp.owner else a.out.owner }

  predicate Has(a: Scene, d: Dir, i: nat) { i < |Slots(a, d)| }

  // ---- The invariant ----

  /** A pointer kept without the table mutex is counted or comes with the slot mutex. */
  predicate GoodView(v: View) {
    && (v.slot || v.counts || v.asleep || v.alone || v.signals ==> v.ref.Some?)
    && (v.ref.Some? && !v.counts && !v.slot ==> Holds(v, v.ref.value.d))
    && (v.asleep || v.alone ==> Holds(v, v.ref.value.d) && !v.counts && !v.signals)
    && (v.signals ==> v.slot)
    && (v.asleep ==> !v.alone && !v.slot)
  }

  ghost predicate ViewInv(a: Scene) { forall t :: t in a.view ==> GoodView(a.view[t]) }

  ghost predicate TabInv(a: Scene, d: Dir) {
    && (forall t :: t in a.view && Holds(a.view[t], d) ==> Owner(a, d) == Some(t))
    && (Owner(a, d).Some? ==> Owner(a, d).value in a.view && Holds(a.view[Owner(a, d).value], d))
  }

  ghost predicate DevInv(a: Scene) {
    && (forall t :: t in a.view && a.view[t].dev ==> a.dev == Some(t))
    && (a.dev.Some? ==> a.dev.value in a.view && a.view[a.dev.value].dev)
  }

  predicate RefOk(a: Scene, v: View) {
    v.ref.Some? ==> Has(a, v.ref.value.d, v.ref.value.i)
                    && Slots(a, v.ref.value.d)[v.ref.value.i].stream == v.ref.value.s
  }

  /** A kept slot pointer still points to the slot of its stream. */
  ghost predicate RefInv(a: Scene) { forall t :: t in a.view ==> RefOk(a, a.view[t]) }

  predicate HoldsSlot(v: View, d: Dir, i: nat) { v.slot && At(v, d, i) }

  ghost predicate SlotOwned(a: Scene, d: Dir, i: nat)
    requires Has(a, d, i)
  {
    var o := Slots(a, d)[i].owner;
    && (forall t :: t in a.view && HoldsSlot(a.view[t], d, i) ==> o == Some(t))
    && (o.Some? ==> o.value in a.view && HoldsSlot(a.view[o.value], d, i))
  }

  ghost predicate OwnInv(a: Scene) { forall d, i: nat :: Has(a, d, i) ==> SlotOwned(a, d, i) }

  predicate Uses(v: View, d: Dir, i: nat) { v.counts && At(v, d, i) }

  function Users(a: Scene, d: Dir, i: nat): set<Tid> { set t | t in a.view && Uses(a.view[t], d, i) }

  /** in_use is the number of transfers in flight on the slot. */
  ghost predicate CountInv(a: Scene) {
    forall d, i: nat :: Has(a, d, i) ==> Slots(a, d)[i].inUse == |Users(a, d, i)|
  }

  predicate Pending(v: View, d: Dir, i: nat) { At(v, d, i) && (v.counts || v.signals) }

  /** Someone will still signal the slot. */
  ghost predicate WillSignal(a: Scene, d: Dir, i: nat) {
    exists u :: u in a.view && Pending(a.view[u], d, i)
  }

  predicate SleepsAt(v: View, d: Dir, i: nat) { v.asleep && At(v, d, i) }

  ghost predicate SleepInv(a: Scene) {
    forall t, d, i: nat :: t in a.view && SleepsAt(a.view[t], d, i) ==> WillSignal(a, d, i)
  }

  predicate AloneAt(v: View, d: Dir, i: nat) { v.alone && At(v, d, i) }

  /** Past WAIT_FOR_FREE no other thread has a pointer to the slot. */
  ghost predicate AloneInv(a: Scene) {
    forall t, u, d, i: nat :: t in a.view && u in a.view && t != u && AloneAt(a.view[t], d, i) ==> !At(a.view[u], d, i)
  }

  predicate Distinct(slots: seq<Slot>) {
    forall i, j :: 0 <= i < j < |slots| ==> slots[i].stream != slots[j].stream
  }

  ghost predicate SceneInv(a: Scene) {
    && ViewInv(a) && TabInv(a, In) && TabInv(a, Out) && DevInv(a) && RefInv(a) && OwnInv(a) && CountInv(a)
    && SleepInv(a) && AloneInv(a) && Distinct(a.inp.slots) && Distinct(a.out.slots)
  }

  // ---- How a step may change the scene ----

  /** Nothing changes for a thread except that it may be woken. */
  predicate Calm(v: View, w: View) { w == v.(asleep := w.asleep) && (w.asleep ==> v.asleep) }

  ghost predicate Others(a: Scene, b: Scene, t: Tid) {
    forall u :: u != t ==>
      (u in b.view <==> u in a.view) && (u in a.view && u in b.view ==> Calm(a.view[u], b.view[u]))
  }

  const NOTHING: View := Locks(false, false, false)

  function Sees(a: Scene, t: Tid): View { if t in a.view then a.view[t] else NOTHING }

  /** A lock keeps its holder, or t takes it when free, or t gives it back. */
  predicate LockMove(before: Option<Tid>, after: Option<Tid>, t: Tid, was: bool, now: bool) {
    || (after == before && now == was)
    || (before == None && after == Some(t) && !was && now)
    || (was && !now && after == None)
  }

  predicate TabMove(a: Scene, b: Scene, t: Tid, d: Dir) {
    LockMove(Owner(a, d), Owner(b, d), t, Holds(Sees(a, t), d), Holds(Sees(b, t), d))
  }

  lemma TabKept(a: Scene, b: Scene, t: Tid, d: Dir)
    requires TabInv(a, d) && Others(a, b, t) && TabMove(a, b, t, d)
    ensures TabInv(b, d)
  {
  }

  lemma DevKept(a: Scene, b: Scene, t: Tid)
    requires DevInv(a) && Others(a, b, t) && LockMove(a.dev, b.dev, t, Sees(a, t).dev, Sees(b, t).dev)
    ensures DevInv(b)
  {
  }

  lemma ViewKept(a: Scene, b: Scene, t: Tid)
    requires ViewInv(a) && Others(a, b, t) && GoodView(Sees(b, t))
    ensures ViewInv(b)
  {
  }

  /** The slot (d, i) may change, but not its stream; every other slot stays. */
  ghost predicate SlotsBut(a: Scene, b: Scene, d: Dir, i: nat) {
    && |a.inp.slots| == |b.inp.slots| && |a.out.slots| == |b.out.slots|
    && (forall e, k: nat :: Has(a, e, k) && (e != d || k != i) ==> Slots(b, e)[k] == Slots(a, e)[k])
    && (Has(a, d, i) ==> Slots(b, d)[i].stream == Slots(a, d)[i].stream)
  }

  predicate Within(v: View, d: Dir, i: nat) { v.ref.Some? ==> At(v, d, i) }

  lemma RefKept(a: Scene, b: Scene, t: Tid, d: Dir, i: nat)
    requires RefInv(a) && Others(a, b, t) && SlotsBut(a, b, d, i)
    requires RefOk(b, Sees(b, t))
    ensures RefInv(b)
  {
    forall u | u in b.view ensures RefOk(b, b.view[u]) {
      if u != t { assert RefOk(a, a.view[u]); }
    }
  }

  lemma DistinctKept(a: Scene, b: Scene, d: Dir, i: nat, e: Dir)
    requires Distinct(Slots(a, e)) && SlotsBut(a, b, d, i)
    ensures Distinct(Slots(b, e))
  {
    forall j, k | 0 <= j < k < |Slots(b, e)| ensures Slots(b, e)[j].stream != Slots(b, e)[k].stream {
      assert Has(a, e, j) && Has(a, e, k);
    }
  }

  predicate SlotMove(a: Scene, b: Scene, t: Tid, d: Dir, i: nat) {
    Has(a, d, i) && Has(b, d, i) ==>
      LockMove(Slots(a, d)[i].owner, Slots(b, d)[i].owner, t, HoldsSlot(Sees(a, t), d, i), HoldsSlot(Sees(b, t), d, i))
  }

  lemma OwnKept(a: Scene, b: Scene, t: Tid, d: Dir, i: nat)
    requires OwnInv(a) && Others(a, b, t) && SlotsBut(a, b, d, i)
    requires Within(Sees(a, t), d, i) && Within(Sees(b, t), d, i) && SlotMove(a, b, t, d, i)
    ensures OwnInv(b)
  {
    forall e, k: nat | Has(b, e, k) ensures SlotOwned(b, e, k) {
      assert Has(a, e, k);
      assert SlotOwned(a, e, k);
      forall u | u in b.view && HoldsSlot(b.view[u], e, k) ensures Slots(b, e)[k].owner == Some(u) {
        if u != t { assert HoldsSlot(a.view[u], e, k); }
      }
    }
  }

  function B(b: bool): int { if b then 1 else 0 }

  predicate UsesNow(a: Scene, t: Tid, d: Dir, i: nat) { Uses(Sees(a, t), d, i) }

  lemma CountOf(a: Scene, t: Tid, d: Dir, i: nat)
    ensures |Users(a, d, i)| == |Users(a, d, i) - {t}| + B(UsesNow(a, t, d, i))
  {
    if UsesNow(a, t, d, i) {
      assert t in a.view;
      assert Users(a, d, i) == (Users(a, d, i) - {t}) + {t};
    } else {
      assert Users(a, d, i) == Users(a, d, i) - {t};
    }
  }

  lemma UsersKept(a: Scene, b: Scene, t: Tid, e: Dir, k: nat)
    requires Others(a, b, t)
    ensures Users(b, e, k) - {t} == Users(a, e, k) - {t}
  {
    forall u | u != t ensures u in Users(b, e, k) <==> u in Users(a, e, k) {
      assert u in b.view <==> u in a.view;
    }
  }

  predicate CountMove(a: Scene, b: Scene, t: Tid, d: Dir, i: nat) {
    Has(a, d, i) && Has(b, d, i) ==>
      Slots(b, d)[i].inUse == Slots(a, d)[i].inUse - B(UsesNow(a, t, d, i)) + B(UsesNow(b, t, d, i))
  }

  lemma CountKept(a: Scene, b: Scene, t: Tid, d: Dir, i: nat)
    requires CountInv(a) && Others(a, b, t) && SlotsBut(a, b, d, i)
    requires Within(Sees(a, t), d, i) && Within(Sees(b, t), d, i) && CountMove(a, b, t, d, i)
    ensures CountInv(b)
  {
    forall e, k: nat | Has(b, e, k) ensures Slots(b, e)[k].inUse == |Users(b, e, k)| {
      assert Has(a, e, k);
      UsersKept(a, b, t, e, k);
      CountOf(a, t, e, k);
      CountOf(b, t, e, k);
    }
  }

  /** t gives up its promise to signal (d, i) only when nobody sleeps there any more. */
  ghost predicate SleepMove(a: Scene, b: Scene, t: Tid, d: Dir, i: nat) {
    && (Pending(Sees(a, t), d, i) ==>
          Pending(Sees(b, t), d, i) || forall u :: u in b.view ==> !SleepsAt(b.view[u], d, i))
    && (SleepsAt(Sees(b, t), d, i) ==> WillSignal(b, d, i))
  }

  lemma SleepKept(a: Scene, b: Scene, t: Tid, d: Dir, i: nat)
    requires SleepInv(a) && Others(a, b, t)
    requires Within(Sees(a, t), d, i) && Within(Sees(b, t), d, i) && SleepMove(a, b, t, d, i)
    ensures SleepInv(b)
  {
    forall u, e, k: nat | u in b.view && SleepsAt(b.view[u], e, k) ensures WillSignal(b, e, k) {
      if u != t {
        assert SleepsAt(a.view[u], e, k);
        assert WillSignal(a, e, k);
        var w :| w in a.view && Pending(a.view[w], e, k);
        if w != t {
          assert Pending(b.view[w], e, k);
        } else {
          assert e == d && k == i;
          assert Pending(Sees(b, t), d, i);
          assert t in b.view;
        }
      }
    }
  }

  /** t gets a new pointer only where nobody is alone, and becomes alone only where nobody is. */
  ghost predicate AloneMove(a: Scene, b: Scene, t: Tid, d: Dir, i: nat) {
    && (At(Sees(b, t), d, i) ==>
          At(Sees(a, t), d, i) || forall u :: u in a.view && u != t ==> !AloneAt(a.view[u], d, i))
    && (AloneAt(Sees(b, t), d, i) ==>
          AloneAt(Sees(a, t), d, i) || forall u :: u in a.view && u != t ==> !At(a.view[u], d, i))
  }

  lemma AloneKept(a: Scene, b: Scene, t: Tid, d: Dir, i: nat)
    requires AloneInv(a) && Others(a, b, t)
    requires Within(Sees(b, t), d, i) && AloneMove(a, b, t, d, i)
    ensures AloneInv(b)
  {
    forall u, w, e, k: nat | u in b.view && w in b.view && u != w && AloneAt(b.view[u], e, k)
      ensures !At(b.view[w], e, k)
    {
      if At(b.view[w], e, k) {
        if u != t { assert AloneAt(a.view[u], e, k); }
        if w != t { assert At(a.view[w], e, k); }
      }
    }
  }

  /** A step that leaves the tables' shape alone. */
  ghost predicate Move(a: Scene, b: Scene, t: Tid, d: Dir, i: nat) {
    && Others(a, b, t) && SlotsBut(a, b, d, i)
    && Within(Sees(a, t), d, i) && Within(Sees(b, t), d, i)
    && GoodView(Sees(b, t)) && RefOk(b, Sees(b, t))
    && TabMove(a, b, t, In) && TabMove(a, b, t, Out)
    && LockMove(a.dev, b.dev, t, Sees(a, t).dev, Sees(b, t).dev)
    && SlotMove(a, b, t, d, i) && CountMove(a, b, t, d, i)
    && SleepMove(a, b, t, d, i) && AloneMove(a, b, t, d, i)
  }

  lemma MoveKeepsInv(a: Scene, b: Scene, t: Tid, d: Dir, i: nat)
    requires SceneInv(a) && Move(a, b, t, d, i)
    ensures SceneInv(b)
  {
    TabKept(a, b, t, In);
    TabKept(a, b, t, Out);
    DevKept(a, b, t);
    ViewKept(a, b, t);
    RefKept(a, b, t, d, i);
    DistinctKept(a, b, d, i, In);
    DistinctKept(a, b, d, i, Out);
    OwnKept(a, b, t, d, i);
    CountKept(a, b, t, d, i);
    SleepKept(a, b, t, d, i);
    AloneKept(a, b, t, d, i);
  }
}
