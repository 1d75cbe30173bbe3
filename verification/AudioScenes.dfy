/** The steps of the audio wrapper as changes of the scene: each kind keeps the invariant. */
module AudioScenes {
  import opened Options
  import opened AudioLocking
  import opened AudioViews

  function GoV(a: Scene, t: Tid, w: View): Scene { a.(view := a.view[t := w]) }

  function QuitV(a: Scene, t: Tid): Scene { a.(view := a.view - {t}) }

  function OwnT(a: Scene, d: Dir, o: Option<Tid>): Scene {
    if d == In then a.(inp := a.inp.(owner := o)) else a.(out := a.out.(owner := o))
  }

  function PutSlots(a: Scene, d: Dir, slots: seq<Slot>): Scene {
    if d == In then a.(inp := a.inp.(slots := slots)) else a.(out := a.out.(slots := slots))
  }

  function PutSlot(a: Scene, d: Dir, i: nat, r: Slot): Scene
    requires Has(a, d, i)
  {
    PutSlots(a, d, Slots(a, d)[i := r])
  }

  function WakeV(a: Scene, d: Dir, i: nat): Scene {
    a.(view := map t | t in a.view :: if SleepsAt(a.view[t], d, i) then a.view[t].(asleep := false) else a.view[t])
  }

  function SetHold(v: View, d: Dir, b: bool): View { if d == In then v.(inT := b) else v.(outT := b) }

  /** What the invariant says of the acting thread. */
  predicate Sound(a: Scene, t: Tid) { t in a.view && GoodView(a.view[t]) && RefOk(a, a.view[t]) }

  lemma TableStep(a: Scene, t: Tid, d: Dir, take: bool, w: View)
    requires Sound(a, t) && w == SetHold(a.view[t], d, take) && w.ref.None? && GoodView(w)
    requires Holds(a.view[t], d) == !take && (take ==> Owner(a, d) == None)
    ensures Move(a, GoV(OwnT(a, d, if take then Some(t) else None), t, w), t, In, 0)
  {
    assert Sees(GoV(OwnT(a, d, if take then Some(t) else None), t, w), t) == w;
  }

  /** Leaving the table mutex while keeping a counted pointer. */
  lemma TableLeave(a: Scene, t: Tid, d: Dir, s: Stream, i: nat)
    requires Sound(a, t) && a.view[t] == One(d).(ref := Some(Ref(d, s, i)), counts := true)
    ensures Move(a, GoV(OwnT(a, d, None), t, NOTHING.(ref := Some(Ref(d, s, i)), counts := true)), t, d, i)
  {
    var w := NOTHING.(ref := Some(Ref(d, s, i)), counts := true);
    assert Sees(GoV(OwnT(a, d, None), t, w), t) == w;
  }

  lemma TableQuit(a: Scene, t: Tid, d: Dir)
    requires t in a.view && a.view[t] == One(d)
    ensures Move(a, QuitV(OwnT(a, d, None), t), t, In, 0)
  {
    assert Sees(QuitV(OwnT(a, d, None), t), t) == NOTHING;
  }

  lemma DeviceMove(a: Scene, t: Tid, take: bool, w: View)
    requires Sound(a, t) && w == a.view[t].(dev := take) && w.ref.None? && GoodView(w)
    requires a.view[t].dev == !take && (take ==> a.dev == None)
    ensures Move(a, GoV(a.(dev := if take then Some(t) else None), t, w), t, In, 0)
  {
    assert Sees(GoV(a.(dev := if take then Some(t) else None), t, w), t) == w;
  }

  /** Under the table mutex nobody else is past WAIT_FOR_FREE. */
  lemma NobodyAlone(a: Scene, t: Tid, d: Dir, i: nat)
    requires ViewInv(a) && TabInv(a, d) && t in a.view && Holds(a.view[t], d)
    ensures forall u :: u in a.view && u != t ==> !AloneAt(a.view[u], d, i)
  {
    forall u | u in a.view && u != t ensures !AloneAt(a.view[u], d, i) {
      assert GoodView(a.view[u]);
    }
  }

  lemma PointerStep(a: Scene, t: Tid, d: Dir, s: Stream, i: nat)
    requires t in a.view && a.view[t] == One(d) && forall u :: u in a.view && u != t ==> !AloneAt(a.view[u], d, i)
    requires Has(a, d, i) && Slots(a, d)[i].stream == s
    ensures Move(a, GoV(a, t, One(d).(ref := Some(Ref(d, s, i)))), t, d, i)
  {
    var w := One(d).(ref := Some(Ref(d, s, i)));
    assert Sees(GoV(a, t, w), t) == w;
  }

  /** What a new slot record and a new view change. */
  lemma SlotPut(a: Scene, t: Tid, d: Dir, i: nat, r: Slot, w: View)
    requires Has(a, d, i) && r.stream == Slots(a, d)[i].stream
    ensures var b := GoV(PutSlot(a, d, i, r), t, w);
            && Others(a, b, t) && Sees(b, t) == w && SlotsBut(a, b, d, i) && Has(b, d, i) && Slots(b, d)[i] == r
            && Owner(b, In) == Owner(a, In) && Owner(b, Out) == Owner(a, Out) && b.dev == a.dev
  {
  }

  lemma SlotTake(a: Scene, t: Tid, d: Dir, i: nat)
    requires Sound(a, t) && At(a.view[t], d, i) && !a.view[t].slot && !a.view[t].asleep
    requires Has(a, d, i) && Slots(a, d)[i].owner == None
    ensures Move(a, GoV(PutSlot(a, d, i, Slots(a, d)[i].(owner := Some(t))), t, a.view[t].(slot := true)), t, d, i)
  {
    SlotPut(a, t, d, i, Slots(a, d)[i].(owner := Some(t)), a.view[t].(slot := true));
  }

  /** Giving back a slot mutex, with or without keeping the pointer. */
  lemma SlotDrop(a: Scene, t: Tid, d: Dir, i: nat, w: View)
    requires Sound(a, t) && HoldsSlot(a.view[t], d, i) && !a.view[t].signals
    requires Has(a, d, i) && GoodView(w)
    requires w == a.view[t].(slot := false) || (w == a.view[t].(slot := false, ref := None, alone := false) && !a.view[t].counts)
    ensures Move(a, GoV(PutSlot(a, d, i, Slots(a, d)[i].(owner := None)), t, w), t, d, i)
  {
    SlotPut(a, t, d, i, Slots(a, d)[i].(owner := None), w);
  }

  lemma SlotQuit(a: Scene, t: Tid, d: Dir, s: Stream, i: nat)
    requires t in a.view && Has(a, d, i)
    requires a.view[t] == NOTHING.(ref := Some(Ref(d, s, i)), slot := true)
    ensures Move(a, QuitV(PutSlot(a, d, i, Slots(a, d)[i].(owner := None)), t), t, d, i)
  {
    assert Sees(QuitV(PutSlot(a, d, i, Slots(a, d)[i].(owner := None)), t), t) == NOTHING;
  }

  lemma SomeUser(a: Scene, d: Dir, i: nat) returns (u: Tid)
    requires CountInv(a) && Has(a, d, i) && Slots(a, d)[i].inUse != 0
    ensures u in a.view && Uses(a.view[u], d, i)
  {
    assert Users(a, d, i) != {};
    u :| u in Users(a, d, i);
  }

  /** Falling asleep while thread u is in flight on the slot. */
  lemma FallAsleep(a: Scene, t: Tid, d: Dir, i: nat, u: Tid)
    requires Sound(a, t) && HoldsSlot(a.view[t], d, i) && Holds(a.view[t], d)
    requires !a.view[t].signals && !a.view[t].counts && !a.view[t].alone
    requires Has(a, d, i) && u in a.view && Uses(a.view[u], d, i)
    ensures Move(a, GoV(PutSlot(a, d, i, Slots(a, d)[i].(owner := None)), t,
                        a.view[t].(slot := false, asleep := true)), t, d, i)
  {
    var w := a.view[t].(slot := false, asleep := true);
    var b := GoV(PutSlot(a, d, i, Slots(a, d)[i].(owner := None)), t, w);
    assert u in b.view && Pending(b.view[u], d, i);
    SlotPut(a, t, d, i, Slots(a, d)[i].(owner := None), w);
  }

  lemma CountUp(a: Scene, t: Tid, d: Dir, i: nat, r: Slot, w: View)
    requires Sound(a, t) && HoldsSlot(a.view[t], d, i) && !a.view[t].counts && Has(a, d, i)
    requires r == Slots(a, d)[i].(inUse := Slots(a, d)[i].inUse + 1) && w == a.view[t].(counts := true) && GoodView(w)
    ensures Move(a, GoV(PutSlot(a, d, i, r), t, w), t, d, i)
  {
    SlotPut(a, t, d, i, r, w);
  }

  lemma CountUpKeeps(a: Scene, t: Tid, d: Dir, i: nat, r: Slot, w: View)
    requires SceneInv(a) && Sound(a, t) && HoldsSlot(a.view[t], d, i) && !a.view[t].counts && Has(a, d, i)
    requires r == Slots(a, d)[i].(inUse := Slots(a, d)[i].inUse + 1) && w == a.view[t].(counts := true) && GoodView(w)
    ensures SceneInv(GoV(PutSlot(a, d, i, r), t, w))
  {
    CountUp(a, t, d, i, r, w);
    MoveKeepsInv(a, GoV(PutSlot(a, d, i, r), t, w), t, d, i);
  }

  lemma CountDown(a: Scene, t: Tid, d: Dir, i: nat, r: Slot, w: View)
    requires Sound(a, t) && HoldsSlot(a.view[t], d, i) && a.view[t].counts && Has(a, d, i)
    requires r == Slots(a, d)[i].(inUse := Slots(a, d)[i].inUse - 1) && w == a.view[t].(counts := false, signals := true)
    ensures Move(a, GoV(PutSlot(a, d, i, r), t, w), t, d, i)
  {
    SlotPut(a, t, d, i, r, w);
  }

  lemma SignalStep(a: Scene, t: Tid, d: Dir, i: nat)
    requires Sound(a, t) && HoldsSlot(a.view[t], d, i)
    ensures Move(a, GoV(WakeV(a, d, i), t, a.view[t].(signals := false)), t, d, i)
  {
    var w := a.view[t].(signals := false);
    assert Sees(GoV(WakeV(a, d, i), t, w), t) == w;
  }

  /** A sleeper returns from its wait, signalled or not. */
  lemma WakeStep(a: Scene, t: Tid, d: Dir, i: nat)
    requires Sound(a, t) && SleepsAt(a.view[t], d, i)
    ensures Move(a, GoV(a, t, a.view[t].(asleep := false)), t, d, i)
  {
    var w := a.view[t].(asleep := false);
    assert Sees(GoV(a, t, w), t) == w;
  }

  /** A free slot whose mutex and table mutex a thread holds is pointed to by nobody else. */
  lemma FreeMeansAlone(a: Scene, t: Tid, d: Dir, i: nat)
    requires SceneInv(a) && t in a.view && Has(a, d, i) && Slots(a, d)[i].inUse == 0
    requires Holds(a.view[t], d) && HoldsSlot(a.view[t], d, i)
    ensures forall u :: u in a.view && u != t ==> !At(a.view[u], d, i)
  {
    assert TabInv(a, d) && SlotOwned(a, d, i);
    forall u | u in a.view && u != t ensures !At(a.view[u], d, i) {
      assert GoodView(a.view[u]);
      assert u !in Users(a, d, i);
    }
  }

  lemma PassFree(a: Scene, t: Tid, d: Dir, i: nat)
    requires Sound(a, t) && HoldsSlot(a.view[t], d, i) && Holds(a.view[t], d)
    requires !a.view[t].signals && !a.view[t].counts
    requires forall u :: u in a.view && u != t ==> !At(a.view[u], d, i)
    ensures Move(a, GoV(a, t, a.view[t].(alone := true)), t, d, i)
  {
    var w := a.view[t].(alone := true);
    assert Sees(GoV(a, t, w), t) == w;
  }

  // ---- Opening and closing ----

  ghost predicate NoPointers(a: Scene, t: Tid, d: Dir) {
    forall u :: u in a.view && u != t && a.view[u].ref.Some? ==> a.view[u].ref.value.d != d
  }

  lemma CloseSeesNoPointers(a: Scene, t: Tid, d: Dir, s: Stream, i: nat)
    requires SceneInv(a) && t in a.view && AloneAt(a.view[t], d, i) && a.view[t].ref.value.s == s
    requires forall u :: u in a.view && u != t && a.view[u].ref.Some? && a.view[u].ref.value.d == d
                  ==> a.view[u].ref.value.s == s
    ensures NoPointers(a, t, d)
  {
    assert RefOk(a, a.view[t]) && Distinct(Slots(a, d));
    forall u | u in a.view && u != t && a.view[u].ref.Some? ensures a.view[u].ref.value.d != d {
      assert RefOk(a, a.view[u]);
      assert !At(a.view[u], d, i);
    }
  }

  /** No slot of a direction without pointers is in use or locked. */
  predicate Quiet(slots: seq<Slot>) {
    forall k :: 0 <= k < |slots| ==> slots[k].inUse == 0 && slots[k].owner == None
  }

  lemma NoPointersIsQuiet(a: Scene, t: Tid, d: Dir)
    requires SceneInv(a) && t in a.view && NoPointers(a, t, d) && !a.view[t].slot && !a.view[t].counts
    ensures Quiet(Slots(a, d))
  {
    forall k | 0 <= k < |Slots(a, d)|
      ensures Slots(a, d)[k].inUse == 0 && Slots(a, d)[k].owner == None
    {
      assert Has(a, d, k) && SlotOwned(a, d, k);
      assert Users(a, d, k) == {};
    }
  }

  /** The table of one direction changes while nobody else has a pointer into it. */
  ghost predicate TableSwap(a: Scene, b: Scene, t: Tid, d: Dir, slots: seq<Slot>) {
    && t in a.view && NoPointers(a, t, d)
    && !a.view[t].slot && !a.view[t].counts && !a.view[t].signals && !a.view[t].asleep
    && (a.view[t].ref.Some? ==> a.view[t].ref.value.d == d)
    && b == GoV(PutSlots(a, d, slots), t, a.view[t].(ref := None, alone := false))
    && Quiet(slots) && Distinct(slots)
  }

  lemma SwapRefs(a: Scene, b: Scene, t: Tid, d: Dir, slots: seq<Slot>)
    requires RefInv(a) && TableSwap(a, b, t, d, slots)
    ensures RefInv(b)
  {
    forall u | u in b.view ensures RefOk(b, b.view[u]) {
      assert RefOk(a, a.view[u]);
    }
  }

  lemma SwapOwners(a: Scene, b: Scene, t: Tid, d: Dir, slots: seq<Slot>)
    requires OwnInv(a) && TableSwap(a, b, t, d, slots)
    ensures OwnInv(b)
  {
    forall e, k: nat | Has(b, e, k) ensures SlotOwned(b, e, k) {
      if e != d {
        assert Has(a, e, k) && SlotOwned(a, e, k);
      }
    }
  }

  lemma SwapCounts(a: Scene, b: Scene, t: Tid, d: Dir, slots: seq<Slot>)
    requires CountInv(a) && TableSwap(a, b, t, d, slots)
    ensures CountInv(b)
  {
    forall e, k: nat | Has(b, e, k) ensures Slots(b, e)[k].inUse == |Users(b, e, k)| {
      if e == d {
        assert Users(b, e, k) == {};
      } else {
        assert Has(a, e, k);
        assert Users(b, e, k) == Users(a, e, k);
      }
    }
  }

  lemma SwapSleepers(a: Scene, b: Scene, t: Tid, d: Dir, slots: seq<Slot>)
    requires SleepInv(a) && TableSwap(a, b, t, d, slots)
    ensures SleepInv(b)
  {
    forall u, e, k: nat | u in b.view && SleepsAt(b.view[u], e, k) ensures WillSignal(b, e, k) {
      assert SleepsAt(a.view[u], e, k);
      assert WillSignal(a, e, k);
      var w :| w in a.view && Pending(a.view[w], e, k);
      assert w in b.view && Pending(b.view[w], e, k);
    }
  }

  lemma SwapAlone(a: Scene, b: Scene, t: Tid, d: Dir, slots: seq<Slot>)
    requires AloneInv(a) && TableSwap(a, b, t, d, slots)
    ensures AloneInv(b)
  {
    forall u, w, e, k: nat | u in b.view && w in b.view && u != w && AloneAt(b.view[u], e, k)
      ensures !At(b.view[w], e, k)
    {
      assert AloneAt(a.view[u], e, k);
    }
  }

  lemma SwapTable(a: Scene, b: Scene, t: Tid, d: Dir, slots: seq<Slot>)
    requires SceneInv(a) && TableSwap(a, b, t, d, slots)
    ensures SceneInv(b)
  {
    assert Others(a, b, t) && Sees(b, t) == a.view[t].(ref := None, alone := false);
    assert GoodView(a.view[t]);
    TabKept(a, b, t, In);
    TabKept(a, b, t, Out);
    DevKept(a, b, t);
    ViewKept(a, b, t);
    SwapRefs(a, b, t, d, slots);
    SwapOwners(a, b, t, d, slots);
    SwapCounts(a, b, t, d, slots);
    SwapSleepers(a, b, t, d, slots);
    SwapAlone(a, b, t, d, slots);
  }

  lemma RemoveStep(a: Scene, t: Tid, d: Dir, s: Stream, i: nat)
    requires SceneInv(a) && t in a.view && a.view[t] == One(d).(ref := Some(Ref(d, s, i)), alone := true)
    requires Has(a, d, i)
    requires forall u :: u in a.view && u != t && a.view[u].ref.Some? && a.view[u].ref.value.d == d
                  ==> a.view[u].ref.value.s == s
    ensures SceneInv(GoV(PutSlots(a, d, Slots(a, d)[..i] + Slots(a, d)[i + 1..]), t, One(d)))
  {
    CloseSeesNoPointers(a, t, d, s, i);
    NoPointersIsQuiet(a, t, d);
    assert Distinct(Slots(a, d));
    var slots := Slots(a, d)[..i] + Slots(a, d)[i + 1..];
    assert a.view[t].(ref := None, alone := false) == One(d);
    SwapTable(a, GoV(PutSlots(a, d, slots), t, One(d)), t, d, slots);
  }

  lemma AppendStep(a: Scene, t: Tid, d: Dir, s: Stream)
    requires SceneInv(a) && t in a.view && a.view[t] == One(d) && NoPointers(a, t, d)
    requires forall k :: 0 <= k < |Slots(a, d)| ==> Slots(a, d)[k].stream != s
    ensures SceneInv(GoV(PutSlots(a, d, Slots(a, d) + [Slot(s, 0, None)]), t, One(d)))
  {
    NoPointersIsQuiet(a, t, d);
    assert Distinct(Slots(a, d));
    var slots := Slots(a, d) + [Slot(s, 0, None)];
    SwapTable(a, GoV(PutSlots(a, d, slots), t, One(d)), t, d, slots);
  }

  lemma StartStep(a: Scene, t: Tid)
    requires t !in a.view
    ensures Move(a, GoV(a, t, NOTHING), t, In, 0)
  {
    assert Sees(GoV(a, t, NOTHING), t) == NOTHING;
  }
}
