/** What the audio wrapper's locking guarantees in every reachable state: transfers never overlap
    control calls or close, sections are serial, counters are exact, and locks are taken in order. */
module AudioTheorems {
  import opened Options
  import opened AudioLocking
  import opened AudioViews
  import opened AudioSafety

  // ---- A closed stream stays out of the table until its close is over ----

  predicate SameStreams(x: seq<Slot>, y: seq<Slot>) {
    |x| == |y| && forall k :: 0 <= k < |x| ==> x[k].stream == y[k].stream
  }

  predicate Absent(slots: seq<Slot>, st: Stream) {
    forall k :: 0 <= k < |slots| ==> slots[k].stream != st
  }

  predicate Closing(p: Pc, d: Dir, st: Stream) { p.OnDevice? && p.dj == CloseDev(d, st) }

  ghost predicate Gone(s: State) {
    forall t, d, st :: t in s.pc && Closing(s.pc[t], d, st) ==> Absent(Tab(s, d).slots, st)
  }

  predicate ChangesTable(p: Pc, d: Dir) {
    (p.Append? && p.d == d) || (p.OnSlot? && p.at == Remove && p.d == d)
  }

  lemma StreamsKept(s: State, t: Tid, c: Choice, d: Dir)
    requires t in s.pc && !ChangesTable(s.pc[t], d)
    ensures SameStreams(Tab(s, d).slots, Tab(Exec(s, t, c), d).slots)
  {
  }

  /** A step of t leaves another thread where it is, or wakes it on its slot. */
  predicate Undisturbed(p: Pc, q: Pc) { q == p || (p.OnSlot? && p.at == Asleep && q == p.(at := Awake)) }

  lemma SlotStepLeaves(s: State, t: Tid, at: Phase, job: Job, d: Dir, st: Stream, i: nat, u: Tid)
    requires t in s.pc && u != t && u in ExecSlot(s, t, at, job, d, st, i).pc
    ensures u in s.pc && Undisturbed(s.pc[u], ExecSlot(s, t, at, job, d, st, i).pc[u])
  {
  }

  lemma StepLeaves(s: State, t: Tid, c: Choice, u: Tid)
    requires t in s.pc && u != t && u in Exec(s, t, c).pc
    ensures u in s.pc && Undisturbed(s.pc[u], Exec(s, t, c).pc[u])
  {
    var p := s.pc[t];
    if p.OnSlot? { SlotStepLeaves(s, t, p.at, p.job, p.d, p.s, p.i, u); }
  }

  lemma OwnClosing(s: State, t: Tid, c: Choice, d: Dir, st: Stream)
    requires t in s.pc && t in Exec(s, t, c).pc && Closing(Exec(s, t, c).pc[t], d, st)
    ensures Closing(s.pc[t], d, st) || (s.pc[t].OnSlot? && s.pc[t].at == Remove && s.pc[t].d == d && s.pc[t].s == st)
  {
  }

  lemma TableHolder(s: State, t: Tid, u: Tid, d: Dir)
    requires Inv(s) && t in s.pc && u in s.pc && Holds(Look(s.pc[t]), d) && Holds(Look(s.pc[u]), d)
    ensures t == u
  {
    var a := SceneOf(s);
    assert TabInv(a, d) && a.view[t] == Look(s.pc[t]) && a.view[u] == Look(s.pc[u]);
  }

  lemma RemovedIsAbsent(slots: seq<Slot>, i: nat)
    requires Distinct(slots) && i < |slots|
    ensures Absent(Without(slots, i), slots[i].stream)
  {
  }

  lemma AbsentKept(x: seq<Slot>, y: seq<Slot>, st: Stream)
    requires SameStreams(x, y) && Absent(x, st)
    ensures Absent(y, st)
  {
  }

  /** For a thread that was already closing. */
  lemma StillGone(s: State, t: Tid, c: Choice, u: Tid, d: Dir, st: Stream)
    requires Inv(s) && t in s.pc && u in s.pc && Closing(s.pc[u], d, st) && Absent(Tab(s, d).slots, st)
    ensures Absent(Tab(Exec(s, t, c), d).slots, st)
  {
    if ChangesTable(s.pc[t], d) { TableHolder(s, t, u, d); }
    StreamsKept(s, t, c, d);
    AbsentKept(Tab(s, d).slots, Tab(Exec(s, t, c), d).slots, st);
  }

  lemma GoneFor(s: State, t: Tid, c: Choice, u: Tid, d: Dir, st: Stream)
    requires Inv(s) && Gone(s) && t in s.pc && u in Exec(s, t, c).pc && Closing(Exec(s, t, c).pc[u], d, st)
    ensures Absent(Tab(Exec(s, t, c), d).slots, st)
  {
    if u == t { OwnClosing(s, t, c, d, st); } else { StepLeaves(s, t, c, u); }
    if Closing(s.pc[u], d, st) {
      StillGone(s, t, c, u, d, st);
    } else {
      ClosedIsGone(s, t, c, d);
    }
  }

  lemma GoneKept(s: State, t: Tid, c: Choice)
    requires Inv(s) && Gone(s) && t in s.pc
    ensures Gone(Exec(s, t, c))
  {
    var s' := Exec(s, t, c);
    forall u, d, st | u in s'.pc && Closing(s'.pc[u], d, st) ensures Absent(Tab(s', d).slots, st) {
      GoneFor(s, t, c, u, d, st);
    }
  }

  /** Also when threads come to other places outside the close, and the tables stay. */
  lemma GoneElsewhere(s: State, t: Tid, p: Pc)
    requires Gone(s) && !p.OnDevice?
    ensures Gone(Goto(s, t, p))
  {
    var s' := Goto(s, t, p);
    forall u, d, st | u in s'.pc && Closing(s'.pc[u], d, st) ensures Absent(Tab(s', d).slots, st) {
      assert u != t && u in s.pc && Closing(s.pc[u], d, st);
      assert Tab(s', d) == Tab(s, d);
    }
  }

  lemma ClosedIsGone(s: State, t: Tid, c: Choice, d: Dir)
    requires Inv(s) && t in s.pc && s.pc[t].OnSlot? && s.pc[t].at == Remove && s.pc[t].d == d
    ensures Absent(Tab(Exec(s, t, c), d).slots, s.pc[t].s)
  {
    var a, p := SceneOf(s), s.pc[t];
    assert a.view[t] == Look(p) && RefOk(a, a.view[t]) && Distinct(Slots(a, d));
    RemovedIsAbsent(Tab(s, d).slots, p.i);
  }

  // ---- Reachable states ----

  /** A step of a thread, a new call, or a wait that returns by itself. */
  datatype Action = Act(t: Tid, c: Choice) | Enter(t: Tid, p: Pc) | Rouse(t: Tid)

  ghost predicate Next(s: State, x: Action, s': State) {
    match x
    case Act(t, c) => Step(s, t, c, s')
    case Enter(t, p) => Start(s, t, p, s')
    case Rouse(t) => Spurious(s, t, s')
  }

  /** A run of the wrapper: any interleaving of steps, new calls and spurious wake-ups. */
  ghost predicate IsRun(states: seq<State>, actions: seq<Action>) {
    && |states| == |actions| + 1
    && Initial(states[0])
    && forall k {:trigger actions[k]} :: 0 <= k < |actions| ==> Next(states[k], actions[k], states[k + 1])
  }

  ghost predicate Safe(s: State) { Inv(s) && Gone(s) }

  lemma NextKeepsSafe(s: State, x: Action, s': State)
    requires Safe(s) && Next(s, x, s')
    ensures Safe(s')
  {
    match x {
      case Act(t, c) =>
        StepKeepsInv(s, t, c, s');
        GoneKept(s, t, c);
      case Enter(t, p) =>
        StartKeepsInv(s, t, p, s');
        GoneElsewhere(s, t, p);
      case Rouse(t) =>
        SpuriousKeepsInv(s, t, s');
        GoneElsewhere(s, t, s.pc[t].(at := Awake));
    }
  }

  lemma InitialIsSafe(s: State)
    requires Initial(s)
    ensures Safe(s)
  {
  }

  lemma {:induction false} ReachableIsSafe(states: seq<State>, actions: seq<Action>, k: nat)
    requires IsRun(states, actions) && k < |states|
    ensures Safe(states[k])
  {
    if k == 0 {
      InitialIsSafe(states[0]);
    } else {
      ReachableIsSafe(states, actions, k - 1);
      assert Next(states[k - 1], actions[k - 1], states[k]);
      NextKeepsSafe(states[k - 1], actions[k - 1], states[k]);
    }
  }

  // ---- Mutual exclusion ----

  /** A vendor read or write on the stream is in flight. */
  predicate Transfers(p: Pc, d: Dir, st: Stream) { p.OnSlot? && p.at == Moving && p.d == d && p.s == st }

  /** A locked control call on the stream, or a close of it past its wait, is under way. */
  predicate Controls(p: Pc, d: Dir, st: Stream) {
    (p.OnSlot? && PastFree(p.at) && p.d == d && p.s == st) || Closing(p, d, st)
  }

  lemma PointersExclude(a: Scene, t: Tid, u: Tid, x: Ref, y: Ref)
    requires SceneInv(a) && t in a.view && u in a.view && t != u
    requires a.view[t].ref == Some(x) && a.view[t].alone && a.view[u].ref == Some(y) && x.d == y.d
    ensures x.s != y.s
  {
    assert RefOk(a, a.view[t]) && RefOk(a, a.view[u]) && Distinct(Slots(a, x.d));
    assert AloneAt(a.view[t], x.d, x.i) && At(a.view[u], y.d, y.i);
  }

  lemma PointerIsPresent(a: Scene, u: Tid, y: Ref)
    requires SceneInv(a) && u in a.view && a.view[u].ref == Some(y)
    ensures !Absent(Slots(a, y.d), y.s)
  {
    assert RefOk(a, a.view[u]);
  }

  lemma TransferIsPresent(s: State, u: Tid, job: Job, d: Dir, st: Stream, i: nat)
    requires Inv(s) && u in s.pc && s.pc[u] == OnSlot(Moving, job, d, st, i)
    ensures !Absent(Tab(s, d).slots, st)
  {
    PointerIsPresent(SceneOf(s), u, Ref(d, st, i));
  }

  lemma ControlExcludes(s: State, t: Tid, u: Tid, at: Phase, jt: Job, d: Dir, st: Stream, i: nat, ju: Job, su: Stream, k: nat)
    requires Inv(s) && t in s.pc && u in s.pc && s.pc[u] == OnSlot(Moving, ju, d, su, k)
    requires s.pc[t] == OnSlot(at, jt, d, st, i) && PastFree(at)
    ensures st != su
  {
    var a := SceneOf(s);
    assert a.view[t] == LookSlot(at, d, st, i) && a.view[u] == LookSlot(Moving, d, su, k);
    PointersExclude(a, t, u, Ref(d, st, i), Ref(d, su, k));
  }

  lemma SafeExcludes(s: State, t: Tid, u: Tid, d: Dir, st: Stream)
    requires Safe(s) && t in s.pc && u in s.pc && Transfers(s.pc[u], d, st)
    ensures !Controls(s.pc[t], d, st)
  {
    var p, q := s.pc[t], s.pc[u];
    TransferIsPresent(s, u, q.job, d, st, q.i);
    assert !Closing(p, d, st);
    if p.OnSlot? && PastFree(p.at) && p.d == d {
      ControlExcludes(s, t, u, p.at, p.job, d, p.s, p.i, q.job, st, q.i);
    }
  }

  /** In every interleaving, a control call or close on a stream never overlaps a transfer on it. */
  lemma ControlNeverOverlapsTransfer(states: seq<State>, actions: seq<Action>, k: nat, t: Tid, u: Tid, d: Dir, st: Stream)
    requires IsRun(states, actions) && k < |states|
    requires t in states[k].pc && u in states[k].pc
    ensures !(Controls(states[k].pc[t], d, st) && Transfers(states[k].pc[u], d, st))
  {
    ReachableIsSafe(states, actions, k);
    if Transfers(states[k].pc[u], d, st) { SafeExcludes(states[k], t, u, d, st); }
  }

  /** Inside the section guarded by the table mutex of a direction. */
  predicate InSection(p: Pc, d: Dir) { Holds(Look(p), d) }

  /** Control operations, opens and closes of one direction are serialised; so are the calls on
      the whole device, which exclude both directions. */
  lemma SectionsAreSerial(states: seq<State>, actions: seq<Action>, k: nat, t: Tid, u: Tid, d: Dir)
    requires IsRun(states, actions) && k < |states|
    requires t in states[k].pc && u in states[k].pc && InSection(states[k].pc[t], d) && InSection(states[k].pc[u], d)
    ensures t == u
  {
    ReachableIsSafe(states, actions, k);
    TableHolder(states[k], t, u, d);
  }

  /** At most one thread sleeps on a slot, so one signal wakes all that wait. */
  lemma OneSleeper(s: State, t: Tid, u: Tid, d: Dir, i: nat)
    requires Inv(s) && t in s.pc && u in s.pc && Sleeps(s.pc[t], d, i) && Sleeps(s.pc[u], d, i)
    ensures t == u
  {
    TableHolder(s, t, u, d);
  }

  /** Between in_use++ and in_use-- of the slot. */
  predicate InFlight(p: Pc, d: Dir, i: nat) { p.OnSlot? && Counted(p.at) && p.d == d && p.i == i }

  lemma InFlightShows(p: Pc, d: Dir, i: nat)
    ensures Uses(Look(p), d, i) <==> InFlight(p, d, i)
  {
  }

  /** in_use is the number of transfers in flight. */
  lemma InUseCountsTransfers(states: seq<State>, actions: seq<Action>, k: nat, d: Dir, i: nat)
    requires IsRun(states, actions) && k < |states| && HasSlot(states[k], d, i)
    ensures SlotAt(states[k], d, i).inUse == |set t | t in states[k].pc && InFlight(states[k].pc[t], d, i)|
  {
    ReachableIsSafe(states, actions, k);
    UsersShow(states[k], d, i);
    assert Has(SceneOf(states[k]), d, i);
  }

  lemma UsersShow(s: State, d: Dir, i: nat)
    ensures Users(SceneOf(s), d, i) == set t | t in s.pc && InFlight(s.pc[t], d, i)
  {
    forall t | t in s.pc ensures Uses(Look(s.pc[t]), d, i) <==> InFlight(s.pc[t], d, i) {
      InFlightShows(s.pc[t], d, i);
    }
  }

  /** The saved mixer value exists only while in a call. */
  lemma MuteSavedOnlyInCall(states: seq<State>, actions: seq<Action>, k: nat)
    requires IsRun(states, actions) && k < |states|
    ensures states[k].mute != -1 ==> states[k].mode == IN_CALL
  {
    ReachableIsSafe(states, actions, k);
  }

  // ---- Lock order ----

  datatype Lock = OutTable | InTable_ | SlotLock(d: Dir, i: nat) | Device

  function Rank(l: Lock): nat {
    match l case OutTable => 0 case InTable_ => 1 case SlotLock(_, _) => 2 case Device => 3
  }

  ghost predicate Owns(s: State, t: Tid, l: Lock) {
    match l
    case OutTable => s.out.owner == Some(t)
    case InTable_ => s.inp.owner == Some(t)
    case SlotLock(d, i) => HasSlot(s, d, i) && SlotAt(s, d, i).owner == Some(t)
    case Device => s.devOwner == Some(t)
  }

  function TableLock(d: Dir): Lock { if d == In then InTable_ else OutTable }

  /** The lock a thread is about to take, if any. */
  function Wanted(p: Pc): Option<Lock> {
    match p
    case WantTable(_, d, _) => Some(TableLock(d))
    case OpenWantTable(d) => Some(TableLock(d))
    case HalWantOut(_) => Some(OutTable)
    case HalWantIn(_) => Some(InTable_)
    case OnSlot(at, _, d, _, i) => if Wants(at) then Some(SlotLock(d, i)) else None
    case OnDevice(dev, _, _) => if dev == DevWant then Some(Device) else None
    case _ => None
  }

  lemma OwnedShows(s: State, t: Tid, l: Lock)
    requires Inv(s) && Owns(s, t, l)
    ensures t in s.pc
    ensures match l
            case OutTable => Look(s.pc[t]).outT
            case InTable_ => Look(s.pc[t]).inT
            case SlotLock(d, i) => HoldsSlot(Look(s.pc[t]), d, i)
            case Device => Look(s.pc[t]).dev
  {
    var a := SceneOf(s);
    match l {
      case OutTable => assert TabInv(a, Out);
      case InTable_ => assert TabInv(a, In);
      case SlotLock(d, i) => assert Has(a, d, i) && SlotOwned(a, d, i);
      case Device => assert DevInv(a);
    }
  }

  lemma WantedIsHigher(p: Pc, l: Lock)
    requires Wanted(p).Some?
    requires match l
             case OutTable => Look(p).outT
             case InTable_ => Look(p).inT
             case SlotLock(d, i) => HoldsSlot(Look(p), d, i)
             case Device => Look(p).dev
    ensures Rank(l) < Rank(Wanted(p).value)
  {
  }

  /** Locks are taken in the order out table, in table, slot, device. */
  lemma LocksAreOrdered(states: seq<State>, actions: seq<Action>, k: nat, t: Tid, l: Lock)
    requires IsRun(states, actions) && k < |states| && t in states[k].pc
    requires Wanted(states[k].pc[t]).Some? && Owns(states[k], t, l)
    ensures Rank(l) < Rank(Wanted(states[k].pc[t]).value)
  {
    ReachableIsSafe(states, actions, k);
    OwnedShows(states[k], t, l);
    WantedIsHigher(states[k].pc[t], l);
  }
}
