/** Safety of the audio wrapper's locking: every step of every thread keeps the invariant, so it
    holds in every reachable state, for any number of threads and streams. */
module AudioSafety {
  import opened Options
  import opened AudioLocking
  import opened AudioViews
  import opened AudioScenes

  function ViewsOf(pc: map<Tid, Pc>): map<Tid, View> { map t | t in pc :: Look(pc[t]) }

  function SceneOf(s: State): Scene { Scene(s.inp, s.out, s.devOwner, ViewsOf(s.pc)) }

  /** The saved mute value lives only while in a call. */
  predicate MuteInv(s: State) { s.mute != -1 ==> s.mode == IN_CALL }

  /** Nothing ever raises the device counter, so nobody waits for the device to become free. */
  ghost predicate DeviceFree(s: State) {
    s.devInUse == 0 && forall t :: t in s.pc && s.pc[t].OnDevice? ==> s.pc[t].dev != DevAsleep
  }

  ghost predicate Inv(s: State) { SceneInv(SceneOf(s)) && DeviceFree(s) && MuteInv(s) }

  // ---- What a step does to the scene ----

  lemma Going(s: State, t: Tid, p: Pc)
    ensures SceneOf(Goto(s, t, p)) == GoV(SceneOf(s), t, Look(p))
    ensures t in s.pc ==> t in SceneOf(s).view && SceneOf(s).view[t] == Look(s.pc[t])
  {
    assert ViewsOf(s.pc[t := p]) == ViewsOf(s.pc)[t := Look(p)];
  }

  lemma Ending(s: State, t: Tid)
    ensures SceneOf(Finish(s, t)) == QuitV(SceneOf(s), t)
    ensures t in s.pc ==> t in SceneOf(s).view && SceneOf(s).view[t] == Look(s.pc[t])
  {
    assert ViewsOf(s.pc - {t}) == ViewsOf(s.pc) - {t};
  }

  /** How waking shows in a view. */
  function Roused(v: View, d: Dir, i: nat): View { if SleepsAt(v, d, i) then v.(asleep := false) else v }

  lemma WokenShows(p: Pc, d: Dir, i: nat)
    ensures Look(Woken(p, d, i)) == Roused(Look(p), d, i)
  {
  }

  lemma Waking(pc: map<Tid, Pc>, d: Dir, i: nat)
    ensures ViewsOf(Wake(pc, d, i)) == map t | t in ViewsOf(pc) :: Roused(ViewsOf(pc)[t], d, i)
  {
    forall u | u in pc ensures Look(Wake(pc, d, i)[u]) == Roused(Look(pc[u]), d, i) {
      WokenShows(pc[u], d, i);
    }
  }

  lemma Signalling(s: State, t: Tid, d: Dir, i: nat, p: Pc)
    ensures SceneOf(Goto(Signal(s, d, i), t, p)) == GoV(WakeV(SceneOf(s), d, i), t, Look(p))
    ensures t in s.pc ==> t in SceneOf(s).view && SceneOf(s).view[t] == Look(s.pc[t])
  {
    Waking(s.pc, d, i);
    Going(Signal(s, d, i), t, p);
    assert ViewsOf(Wake(s.pc, d, i)) == WakeV(SceneOf(s), d, i).view;
  }

  lemma SlotScene(s: State, d: Dir, i: nat, r: Slot)
    requires HasSlot(s, d, i)
    ensures Has(SceneOf(s), d, i) && SceneOf(SetSlot(s, d, i, r)) == PutSlot(SceneOf(s), d, i, r)
    ensures Slots(SceneOf(s), d)[i] == SlotAt(s, d, i)
  {
  }

  lemma PutScene(s: State, t: Tid, d: Dir, i: nat, r: Slot, q: Pc)
    requires HasSlot(s, d, i)
    ensures Has(SceneOf(s), d, i) && Slots(SceneOf(s), d)[i] == SlotAt(s, d, i)
    ensures SceneOf(Goto(SetSlot(s, d, i, r), t, q)) == GoV(PutSlot(SceneOf(s), d, i, r), t, Look(q))
  {
    SlotScene(s, d, i, r);
    Going(SetSlot(s, d, i, r), t, q);
  }

  lemma PointerHasSlot(s: State, t: Tid, r: Ref)
    requires SceneInv(SceneOf(s)) && t in s.pc && Look(s.pc[t]).ref == Some(r)
    ensures HasSlot(s, r.d, r.i)
  {
    assert RefOk(SceneOf(s), SceneOf(s).view[t]);
  }

  /** What the invariant says of one thread. */
  lemma SoundThread(s: State, t: Tid)
    requires SceneInv(SceneOf(s)) && t in s.pc
    ensures Sound(SceneOf(s), t) && SceneOf(s).view[t] == Look(s.pc[t])
  {
    assert t in SceneOf(s).view;
  }

  // ---- One lemma per kind of step ----

  lemma TakesTable(s: State, t: Tid, d: Dir, q: Pc)
    requires SceneInv(SceneOf(s)) && t in s.pc && Tab(s, d).owner == None
    requires !Holds(Look(s.pc[t]), d) && Look(s.pc[t]).ref.None? && Look(q) == SetHold(Look(s.pc[t]), d, true)
    ensures SceneInv(SceneOf(Goto(SetOwner(s, d, Some(t)), t, q)))
  {
    SoundThread(s, t);
    Going(SetOwner(s, d, Some(t)), t, q);
    TableStep(SceneOf(s), t, d, true, Look(q));
    MoveKeepsInv(SceneOf(s), SceneOf(Goto(SetOwner(s, d, Some(t)), t, q)), t, In, 0);
  }

  lemma HandsTableOn(s: State, t: Tid)
    requires SceneInv(SceneOf(s)) && t in s.pc && s.pc[t] == HalLeaveIn
    ensures SceneInv(SceneOf(Goto(SetOwner(s, In, None), t, HalLeaveOut)))
  {
    SoundThread(s, t);
    Going(SetOwner(s, In, None), t, HalLeaveOut);
    TableStep(SceneOf(s), t, In, false, Look(HalLeaveOut));
    MoveKeepsInv(SceneOf(s), SceneOf(Goto(SetOwner(s, In, None), t, HalLeaveOut)), t, In, 0);
  }

  lemma LeavesTable(s: State, t: Tid, d: Dir)
    requires SceneInv(SceneOf(s)) && t in s.pc && Look(s.pc[t]) == One(d)
    ensures SceneInv(SceneOf(Finish(SetOwner(s, d, None), t)))
  {
    Ending(SetOwner(s, d, None), t);
    TableQuit(SceneOf(s), t, d);
    MoveKeepsInv(SceneOf(s), SceneOf(Finish(SetOwner(s, d, None), t)), t, In, 0);
  }

  lemma LeavesCounted(s: State, t: Tid, d: Dir, st: Stream, i: nat, q: Pc)
    requires SceneInv(SceneOf(s)) && t in s.pc && Look(s.pc[t]) == One(d).(ref := Some(Ref(d, st, i)), counts := true)
    requires Look(q) == NOTHING.(ref := Some(Ref(d, st, i)), counts := true)
    ensures SceneInv(SceneOf(Goto(SetOwner(s, d, None), t, q)))
  {
    SoundThread(s, t);
    Going(SetOwner(s, d, None), t, q);
    TableLeave(SceneOf(s), t, d, st, i);
    MoveKeepsInv(SceneOf(s), SceneOf(Goto(SetOwner(s, d, None), t, q)), t, d, i);
  }

  /** A step to a place that holds the same things leaves the scene alone. */
  lemma Stays(s: State, s0: State, t: Tid, q: Pc)
    requires SceneInv(SceneOf(s)) && t in s.pc && Look(q) == Look(s.pc[t])
    requires s0.pc == s.pc && s0.inp == s.inp && s0.out == s.out && s0.devOwner == s.devOwner
    ensures SceneInv(SceneOf(Goto(s0, t, q)))
  {
    Going(s0, t, q);
    assert ViewsOf(s.pc)[t := Look(q)] == ViewsOf(s.pc);
  }

  lemma TakesDevice(s: State, t: Tid, q: Pc)
    requires SceneInv(SceneOf(s)) && t in s.pc && s.devOwner == None && Look(s.pc[t]).ref.None?
    requires !Look(s.pc[t]).dev && Look(q) == Look(s.pc[t]).(dev := true)
    ensures SceneInv(SceneOf(Goto(s.(devOwner := Some(t)), t, q)))
  {
    SoundThread(s, t);
    Going(s.(devOwner := Some(t)), t, q);
    DeviceMove(SceneOf(s), t, true, Look(q));
    MoveKeepsInv(SceneOf(s), SceneOf(Goto(s.(devOwner := Some(t)), t, q)), t, In, 0);
  }

  lemma DropsDevice(s: State, t: Tid, q: Pc)
    requires SceneInv(SceneOf(s)) && t in s.pc && Look(s.pc[t]).ref.None?
    requires Look(s.pc[t]).dev && Look(q) == Look(s.pc[t]).(dev := false)
    ensures SceneInv(SceneOf(Goto(s.(devOwner := None), t, q)))
  {
    SoundThread(s, t);
    Going(s.(devOwner := None), t, q);
    DeviceMove(SceneOf(s), t, false, Look(q));
    MoveKeepsInv(SceneOf(s), SceneOf(Goto(s.(devOwner := None), t, q)), t, In, 0);
  }

  lemma Finds(s: State, t: Tid, d: Dir, st: Stream, i: nat, q: Pc)
    requires SceneInv(SceneOf(s)) && t in s.pc && Look(s.pc[t]) == One(d)
    requires HasSlot(s, d, i) && SlotAt(s, d, i).stream == st && Look(q) == One(d).(ref := Some(Ref(d, st, i)))
    ensures SceneInv(SceneOf(Goto(s, t, q)))
  {
    Going(s, t, q);
    NobodyAlone(SceneOf(s), t, d, i);
    PointerStep(SceneOf(s), t, d, st, i);
    MoveKeepsInv(SceneOf(s), SceneOf(Goto(s, t, q)), t, d, i);
  }

  lemma TakesSlot(s: State, t: Tid, d: Dir, i: nat, q: Pc)
    requires SceneInv(SceneOf(s)) && t in s.pc && HasSlot(s, d, i) && SlotAt(s, d, i).owner == None
    requires At(Look(s.pc[t]), d, i) && !Look(s.pc[t]).slot && !Look(s.pc[t]).asleep
    requires Look(q) == Look(s.pc[t]).(slot := true)
    ensures SceneInv(SceneOf(Goto(Acquire(s, t, d, i), t, q)))
  {
    var r := SlotAt(s, d, i).(owner := Some(t));
    SoundThread(s, t);
    PutScene(s, t, d, i, r, q);
    SlotTake(SceneOf(s), t, d, i);
    MoveKeepsInv(SceneOf(s), SceneOf(Goto(SetSlot(s, d, i, r), t, q)), t, d, i);
  }

  lemma DropsSlot(s: State, t: Tid, d: Dir, i: nat, q: Pc)
    requires SceneInv(SceneOf(s)) && t in s.pc && HasSlot(s, d, i)
    requires HoldsSlot(Look(s.pc[t]), d, i) && !Look(s.pc[t]).signals && GoodView(Look(q))
    requires Look(q) == Look(s.pc[t]).(slot := false)
             || (Look(q) == Look(s.pc[t]).(slot := false, ref := None, alone := false) && !Look(s.pc[t]).counts)
    ensures SceneInv(SceneOf(Goto(Release(s, d, i), t, q)))
  {
    var r := SlotAt(s, d, i).(owner := None);
    SoundThread(s, t);
    PutScene(s, t, d, i, r, q);
    SlotDrop(SceneOf(s), t, d, i, Look(q));
    MoveKeepsInv(SceneOf(s), SceneOf(Goto(SetSlot(s, d, i, r), t, q)), t, d, i);
  }

  lemma DropsSlotAndEnds(s: State, t: Tid, d: Dir, st: Stream, i: nat)
    requires SceneInv(SceneOf(s)) && t in s.pc && HasSlot(s, d, i)
    requires Look(s.pc[t]) == NOTHING.(ref := Some(Ref(d, st, i)), slot := true)
    ensures SceneInv(SceneOf(Finish(Release(s, d, i), t)))
  {
    var r := SlotAt(s, d, i).(owner := None);
    SlotScene(s, d, i, r);
    Ending(SetSlot(s, d, i, r), t);
    SlotQuit(SceneOf(s), t, d, st, i);
    MoveKeepsInv(SceneOf(s), SceneOf(Finish(SetSlot(s, d, i, r), t)), t, d, i);
  }

  lemma FallsAsleep(s: State, t: Tid, d: Dir, i: nat, q: Pc)
    requires SceneInv(SceneOf(s)) && t in s.pc && HasSlot(s, d, i) && SlotAt(s, d, i).inUse != 0
    requires var v := Look(s.pc[t]);
             && HoldsSlot(v, d, i) && Holds(v, d) && !v.signals && !v.counts && !v.alone
             && Look(q) == v.(slot := false, asleep := true)
    ensures SceneInv(SceneOf(Goto(Release(s, d, i), t, q)))
  {
    var r := SlotAt(s, d, i).(owner := None);
    SoundThread(s, t);
    PutScene(s, t, d, i, r, q);
    var u := SomeUser(SceneOf(s), d, i);
    FallAsleep(SceneOf(s), t, d, i, u);
    MoveKeepsInv(SceneOf(s), SceneOf(Goto(SetSlot(s, d, i, r), t, q)), t, d, i);
  }

  lemma PassesFree(s: State, t: Tid, d: Dir, i: nat, q: Pc)
    requires SceneInv(SceneOf(s)) && t in s.pc && HasSlot(s, d, i) && SlotAt(s, d, i).inUse == 0
    requires var v := Look(s.pc[t]);
             && HoldsSlot(v, d, i) && Holds(v, d) && !v.signals && !v.counts && Look(q) == v.(alone := true)
    ensures SceneInv(SceneOf(Goto(s, t, q)))
  {
    SoundThread(s, t);
    Going(s, t, q);
    FreeMeansAlone(SceneOf(s), t, d, i);
    PassFree(SceneOf(s), t, d, i);
    MoveKeepsInv(SceneOf(s), SceneOf(Goto(s, t, q)), t, d, i);
  }

  lemma CountsUp(s: State, t: Tid, job: Job, d: Dir, st: Stream, i: nat)
    requires SceneInv(SceneOf(s)) && t in s.pc && HasSlot(s, d, i) && s.pc[t] == OnSlot(Inc, job, d, st, i)
    ensures SceneInv(SceneOf(Goto(Count(s, d, i, 1), t, OnSlot(IncUnlock, job, d, st, i))))
  {
    var r := SlotAt(s, d, i).(inUse := SlotAt(s, d, i).inUse + 1);
    CountsUpScene(s, t, job, d, st, i, r);
    SoundThread(s, t);
    CountUpKeeps(SceneOf(s), t, d, i, r, LookSlot(IncUnlock, d, st, i));
  }

  lemma CountsUpScene(s: State, t: Tid, job: Job, d: Dir, st: Stream, i: nat, r: Slot)
    requires t in s.pc && HasSlot(s, d, i) && r == SlotAt(s, d, i).(inUse := SlotAt(s, d, i).inUse + 1)
    ensures Has(SceneOf(s), d, i) && Slots(SceneOf(s), d)[i] == SlotAt(s, d, i)
    ensures SceneOf(Goto(Count(s, d, i, 1), t, OnSlot(IncUnlock, job, d, st, i))) ==
            GoV(PutSlot(SceneOf(s), d, i, r), t, LookSlot(IncUnlock, d, st, i))
  {
    PutScene(s, t, d, i, r, OnSlot(IncUnlock, job, d, st, i));
  }

  lemma CountsDown(s: State, t: Tid, d: Dir, i: nat, q: Pc)
    requires SceneInv(SceneOf(s)) && t in s.pc && HasSlot(s, d, i)
    requires var v := Look(s.pc[t]); HoldsSlot(v, d, i) && v.counts && Look(q) == v.(counts := false, signals := true)
    ensures SceneInv(SceneOf(Goto(Count(s, d, i, -1), t, q)))
  {
    var r := SlotAt(s, d, i).(inUse := SlotAt(s, d, i).inUse - 1);
    SoundThread(s, t);
    PutScene(s, t, d, i, r, q);
    CountDown(SceneOf(s), t, d, i, r, Look(q));
    MoveKeepsInv(SceneOf(s), GoV(PutSlot(SceneOf(s), d, i, r), t, Look(q)), t, d, i);
  }

  lemma SignalsSlot(s: State, t: Tid, d: Dir, i: nat, q: Pc)
    requires SceneInv(SceneOf(s)) && t in s.pc && HoldsSlot(Look(s.pc[t]), d, i)
    requires Look(q) == Look(s.pc[t]).(signals := false)
    ensures SceneInv(SceneOf(Goto(Signal(s, d, i), t, q)))
  {
    SoundThread(s, t);
    Signalling(s, t, d, i, q);
    SignalStep(SceneOf(s), t, d, i);
    MoveKeepsInv(SceneOf(s), SceneOf(Goto(Signal(s, d, i), t, q)), t, d, i);
  }

  lemma TableScene(s: State, t: Tid, d: Dir, slots: seq<Slot>, q: Pc)
    ensures SceneOf(Goto(PutTable(s, d, slots), t, q)) == GoV(PutSlots(SceneOf(s), d, slots), t, Look(q))
    ensures Slots(SceneOf(s), d) == Tab(s, d).slots
  {
    Going(PutTable(s, d, slots), t, q);
  }

  lemma Removes(s: State, t: Tid, d: Dir, st: Stream, i: nat, q: Pc)
    requires SceneInv(SceneOf(s)) && t in SceneOf(s).view && i < |Tab(s, d).slots| && Look(q) == One(d)
    requires SceneOf(s).view[t] == One(d).(ref := Some(Ref(d, st, i)), alone := true)
    requires forall u :: u in SceneOf(s).view && u != t && SceneOf(s).view[u].ref.Some? && SceneOf(s).view[u].ref.value.d == d
                  ==> SceneOf(s).view[u].ref.value.s == st
    ensures SceneInv(SceneOf(Goto(PutTable(s, d, Without(Tab(s, d).slots, i)), t, q)))
  {
    TableScene(s, t, d, Without(Tab(s, d).slots, i), q);
    RemoveStep(SceneOf(s), t, d, st, i);
  }

  lemma Appends(s: State, t: Tid, d: Dir, st: Stream, q: Pc)
    requires SceneInv(SceneOf(s)) && t in SceneOf(s).view && Look(q) == One(d)
    requires SceneOf(s).view[t] == One(d) && NoPointers(SceneOf(s), t, d)
    requires forall k :: 0 <= k < |Tab(s, d).slots| ==> Tab(s, d).slots[k].stream != st
    ensures SceneInv(SceneOf(Goto(PutTable(s, d, Tab(s, d).slots + [Slot(st, 0, None)]), t, q)))
  {
    TableScene(s, t, d, Tab(s, d).slots + [Slot(st, 0, None)], q);
    AppendStep(SceneOf(s), t, d, st);
  }

  // ---- Every step keeps the invariant ----

  lemma StepTakesTable(s: State, t: Tid, c: Choice)
    requires SceneInv(SceneOf(s)) && t in s.pc && Ready(s, t)
    requires s.pc[t].WantTable? || s.pc[t].OpenWantTable? || s.pc[t].HalWantOut? || s.pc[t].HalWantIn?
    ensures SceneInv(SceneOf(Exec(s, t, c)))
  {
    match s.pc[t] {
      case WantTable(job, d, st) => TakesTable(s, t, d, Search(job, d, st));
      case OpenWantTable(d) => TakesTable(s, t, d, OnDevice(DevWant, OpenDev(d), false));
      case HalWantOut(h) => TakesTable(s, t, Out, HalWantIn(h));
      case HalWantIn(h) => TakesTable(s, t, In, OnDevice(DevWant, HalDev(h), false));
    }
  }

  lemma StepLeavesTable(s: State, t: Tid, c: Choice)
    requires SceneInv(SceneOf(s)) && t in s.pc && (s.pc[t].Leave? || s.pc[t].HalLeaveIn? || s.pc[t].HalLeaveOut?)
    ensures SceneInv(SceneOf(Exec(s, t, c)))
  {
    match s.pc[t] {
      case Leave(d) => LeavesTable(s, t, d);
      case HalLeaveIn => HandsTableOn(s, t);
      case HalLeaveOut => LeavesTable(s, t, Out);
    }
  }

  lemma StepOnDevice(s: State, t: Tid, c: Choice, dev: DevPhase, dj: DevJob, ok: bool)
    requires SceneInv(SceneOf(s)) && DeviceFree(s) && t in s.pc && Ready(s, t) && s.pc[t] == OnDevice(dev, dj, ok)
    ensures SceneInv(SceneOf(ExecDevice(s, t, dev, dj, ok, c)))
  {
    match dev {
      case DevWant => TakesDevice(s, t, OnDevice(DevTest, dj, ok));
      case DevTest => Stays(s, s, t, OnDevice(DevCall, dj, ok));
      case DevCall => Stays(s, if dj.HalDev? then HalEffect(s, dj.hal, c) else s, t, OnDevice(DevSignal, dj, c.ok));
      case DevSignal => Stays(s, s, t, OnDevice(DevUnlock, dj, ok));
      case DevUnlock => DropsDevice(s, t, AfterDevice(dj, ok));
    }
  }

  lemma StepIntoTransfer(s: State, t: Tid, at: Phase, job: Job, d: Dir, st: Stream, i: nat)
    requires SceneInv(SceneOf(s)) && t in s.pc && s.pc[t] == OnSlot(at, job, d, st, i) && HasSlot(s, d, i)
    requires at == Inc || at == IncUnlock
    ensures SceneInv(SceneOf(ExecSlot(s, t, at, job, d, st, i)))
  {
    if at == Inc {
      CountsUp(s, t, job, d, st, i);
    } else {
      DropsSlot(s, t, d, i, OnSlot(IncLeave, job, d, st, i));
    }
  }

  lemma StepInTransfer(s: State, t: Tid, at: Phase, job: Job, d: Dir, st: Stream, i: nat)
    requires SceneInv(SceneOf(s)) && t in s.pc && s.pc[t] == OnSlot(at, job, d, st, i)
    requires at == IncLeave || at == Moving
    ensures SceneInv(SceneOf(ExecSlot(s, t, at, job, d, st, i)))
  {
    if at == IncLeave {
      LeavesCounted(s, t, d, st, i, OnSlot(Moving, job, d, st, i));
    } else {
      Stays(s, s, t, OnSlot(WantBack, job, d, st, i));
    }
  }

  lemma StepOutOfTransfer(s: State, t: Tid, at: Phase, job: Job, d: Dir, st: Stream, i: nat)
    requires SceneInv(SceneOf(s)) && t in s.pc && Ready(s, t) && s.pc[t] == OnSlot(at, job, d, st, i) && HasSlot(s, d, i)
    requires at == WantBack || at == Dec || at == DecSignal || at == DecUnlock
    ensures SceneInv(SceneOf(ExecSlot(s, t, at, job, d, st, i)))
  {
    match at {
      case WantBack => TakesSlot(s, t, d, i, OnSlot(Dec, job, d, st, i));
      case Dec => CountsDown(s, t, d, i, OnSlot(DecSignal, job, d, st, i));
      case DecSignal => SignalsSlot(s, t, d, i, OnSlot(DecUnlock, job, d, st, i));
      case DecUnlock => DropsSlotAndEnds(s, t, d, st, i);
    }
  }

  lemma StepToSlot(s: State, t: Tid, at: Phase, job: Job, d: Dir, st: Stream, i: nat)
    requires SceneInv(SceneOf(s)) && t in s.pc && Ready(s, t) && s.pc[t] == OnSlot(at, job, d, st, i) && HasSlot(s, d, i)
    requires at == WantSlot || at == Awake
    ensures SceneInv(SceneOf(ExecSlot(s, t, at, job, d, st, i)))
  {
    TakesSlot(s, t, d, i, OnSlot(if at == WantSlot && job == Transfer then Inc else Test, job, d, st, i));
  }

  lemma StepTests(s: State, t: Tid, at: Phase, job: Job, d: Dir, st: Stream, i: nat)
    requires SceneInv(SceneOf(s)) && t in s.pc && Ready(s, t) && s.pc[t] == OnSlot(at, job, d, st, i) && HasSlot(s, d, i)
    requires at == Test
    ensures SceneInv(SceneOf(ExecSlot(s, t, at, job, d, st, i)))
  {
    if Busy(s, d, i) {
      FallsAsleep(s, t, d, i, OnSlot(Asleep, job, d, st, i));
    } else {
      PassesFree(s, t, d, i, OnSlot(if job == Close then FreeSignal else Calling, job, d, st, i));
    }
  }

  lemma StepPastFree(s: State, t: Tid, at: Phase, job: Job, d: Dir, st: Stream, i: nat)
    requires SceneInv(SceneOf(s)) && t in s.pc && Ready(s, t) && s.pc[t] == OnSlot(at, job, d, st, i) && HasSlot(s, d, i)
    requires at == Calling || at == FreeSignal || at == FreeUnlock
    ensures SceneInv(SceneOf(ExecSlot(s, t, at, job, d, st, i)))
  {
    match at {
      case Calling => Stays(s, s, t, OnSlot(FreeSignal, job, d, st, i));
      case FreeSignal => SignalsSlot(s, t, d, i, OnSlot(FreeUnlock, job, d, st, i));
      case FreeUnlock => DropsSlot(s, t, d, i, if job == Close then OnSlot(Remove, job, d, st, i) else Leave(d));
    }
  }

  lemma AllowedShows(s: State, t: Tid, job: Job, d: Dir, st: Stream, i: nat)
    requires t in s.pc && Allowed(s, t) && s.pc[t] == OnSlot(Remove, job, d, st, i)
    ensures forall u :: u in SceneOf(s).view && u != t && SceneOf(s).view[u].ref.Some? && SceneOf(s).view[u].ref.value.d == d
                  ==> SceneOf(s).view[u].ref.value.s == st
    ensures t in SceneOf(s).view && SceneOf(s).view[t] == One(d).(ref := Some(Ref(d, st, i)), alone := true)
  {
  }

  lemma StepRemoves(s: State, t: Tid, job: Job, d: Dir, st: Stream, i: nat)
    requires SceneInv(SceneOf(s)) && HasSlot(s, d, i)
    requires t in SceneOf(s).view && SceneOf(s).view[t] == One(d).(ref := Some(Ref(d, st, i)), alone := true)
    requires forall u :: u in SceneOf(s).view && u != t && SceneOf(s).view[u].ref.Some? && SceneOf(s).view[u].ref.value.d == d
                  ==> SceneOf(s).view[u].ref.value.s == st
    ensures SceneInv(SceneOf(ExecSlot(s, t, Remove, job, d, st, i)))
  {
    Removes(s, t, d, st, i, OnDevice(DevWant, CloseDev(d, st), false));
  }

  lemma StepAppends(s: State, t: Tid, c: Choice, d: Dir)
    requires SceneInv(SceneOf(s)) && t in s.pc && Allowed(s, t) && s.pc[t] == Append(d)
    ensures SceneInv(SceneOf(Exec(s, t, c)))
  {
    assert SceneOf(s).view[t] == Look(s.pc[t]);
    if c.ok && FirstIndex(Tab(s, d).slots, c.stream).None? {
      Appends(s, t, d, c.stream, Leave(d));
    } else {
      Stays(s, s, t, Leave(d));
    }
  }

  lemma StepOfSearch(s: State, t: Tid, c: Choice, job: Job, d: Dir, st: Stream)
    requires SceneInv(SceneOf(s)) && t in s.pc && s.pc[t] == Search(job, d, st)
    ensures SceneInv(SceneOf(Exec(s, t, c)))
  {
    var r := FirstIndex(Tab(s, d).slots, st);
    if r.None? { Stays(s, s, t, Leave(d)); } else { Finds(s, t, d, st, r.value, OnSlot(WantSlot, job, d, st, r.value)); }
  }

  lemma DeviceStaysFree(s: State, t: Tid, c: Choice)
    requires DeviceFree(s) && t in s.pc
    ensures DeviceFree(Exec(s, t, c))
  {
  }

  lemma MuteKept(s: State, t: Tid, c: Choice)
    requires MuteInv(s) && t in s.pc
    ensures MuteInv(Exec(s, t, c))
  {
  }

  /** Every step of every thread keeps the invariant. */
  lemma StepKeepsInv(s: State, t: Tid, c: Choice, s': State)
    requires Inv(s) && Step(s, t, c, s')
    ensures Inv(s')
  {
    DeviceStaysFree(s, t, c);
    MuteKept(s, t, c);
    SceneKept(s, t, c);
  }

  lemma SceneKept(s: State, t: Tid, c: Choice)
    requires SceneInv(SceneOf(s)) && DeviceFree(s) && t in s.pc && Ready(s, t) && Allowed(s, t)
    ensures SceneInv(SceneOf(Exec(s, t, c)))
  {
    match s.pc[t] {
      case OnSlot(at, job, d, st, i) =>
        PointerHasSlot(s, t, Ref(d, st, i));
        if at == Remove {
          AllowedShows(s, t, job, d, st, i);
          StepRemoves(s, t, job, d, st, i);
        } else if at == WantSlot || at == Awake {
          StepToSlot(s, t, at, job, d, st, i);
        } else if at == Test {
          StepTests(s, t, at, job, d, st, i);
        } else if at == Calling || at == FreeSignal || at == FreeUnlock {
          StepPastFree(s, t, at, job, d, st, i);
        } else if at == Inc || at == IncUnlock {
          StepIntoTransfer(s, t, at, job, d, st, i);
        } else if at == IncLeave || at == Moving {
          StepInTransfer(s, t, at, job, d, st, i);
        } else {
          StepOutOfTransfer(s, t, at, job, d, st, i);
        }
      case OnDevice(dev, dj, ok) => StepOnDevice(s, t, c, dev, dj, ok);
      case Search(job, d, st) => StepOfSearch(s, t, c, job, d, st);
      case Append(d) => StepAppends(s, t, c, d);
      case Leave(_) => StepLeavesTable(s, t, c);
      case HalLeaveIn => StepLeavesTable(s, t, c);
      case HalLeaveOut => StepLeavesTable(s, t, c);
      case _ => StepTakesTable(s, t, c);
    }
  }

  lemma StartKeepsInv(s: State, t: Tid, p: Pc, s': State)
    requires Inv(s) && Start(s, t, p, s')
    ensures Inv(s')
  {
    Going(s, t, p);
    assert Look(p) == NOTHING;
    StartStep(SceneOf(s), t);
    MoveKeepsInv(SceneOf(s), SceneOf(s'), t, In, 0);
  }

  lemma SpuriousKeepsInv(s: State, t: Tid, s': State)
    requires Inv(s) && Spurious(s, t, s')
    ensures Inv(s')
  {
    var p := s.pc[t];
    SoundThread(s, t);
    Going(s, t, p.(at := Awake));
    WakeStep(SceneOf(s), t, p.d, p.i);
    MoveKeepsInv(SceneOf(s), SceneOf(s'), t, p.d, p.i);
  }
}
