/** Progress of the audio wrapper: no reachable state is deadlocked, no wake-up is lost, and with
    no new calls every started operation completes within a bounded number of steps. */
module AudioProgress {
  import opened AudioLocking
  import opened AudioViews
  import opened AudioSafety
  import opened AudioTheorems

  /** Thread t can take a step, even within the restricted runs. */
  ghost predicate CanMove(s: State, t: Tid) { t in s.pc && Ready(s, t) && Allowed(s, t) }

  ghost predicate SomeMove(s: State) { exists t :: CanMove(s, t) }

  lemma SlotHolderMoves(s: State, d: Dir, i: nat)
    requires Inv(s) && HasSlot(s, d, i) && SlotAt(s, d, i).owner.Some?
    ensures SomeMove(s)
  {
    var t := SlotAt(s, d, i).owner.value;
    OwnedShows(s, t, SlotLock(d, i));
    HolderIsReady(s, t);
  }

  /** A thread inside a slot or device section is not waiting for anything. */
  lemma HolderIsReady(s: State, t: Tid)
    requires t in s.pc && (Look(s.pc[t]).slot || Look(s.pc[t]).dev)
    ensures CanMove(s, t)
  {
  }

  lemma DeviceHolderMoves(s: State)
    requires Inv(s) && s.devOwner.Some?
    ensures SomeMove(s)
  {
    var t := s.devOwner.value;
    OwnedShows(s, t, Device);
    HolderIsReady(s, t);
  }

  lemma PointerSlot(s: State, t: Tid, p: Pc)
    requires Inv(s) && t in s.pc && s.pc[t] == p && p.OnSlot?
    ensures HasSlot(s, p.d, p.i)
  {
    PointerHasSlot(s, t, Ref(p.d, p.s, p.i));
  }

  /** A thread with a slot pointer and without the table mutex moves, or the slot's holder does. */
  lemma TransferMoves(s: State, u: Tid)
    requires Inv(s) && u in s.pc && s.pc[u].OnSlot? && !InTable(s.pc[u].at)
    ensures SomeMove(s)
  {
    var p := s.pc[u];
    PointerSlot(s, u, p);
    if p.at == WantBack && SlotAt(s, p.d, p.i).owner.Some? {
      SlotHolderMoves(s, p.d, p.i);
    } else {
      assert CanMove(s, u);
    }
  }

  /** A thread asleep on a slot: someone in flight will signal it. */
  lemma NoLostWakeup(s: State, t: Tid) returns (u: Tid)
    requires Inv(s) && t in s.pc && s.pc[t].OnSlot? && s.pc[t].at == Asleep
    ensures u in s.pc && s.pc[u].OnSlot? && (Counted(s.pc[u].at) || s.pc[u].at == DecSignal)
    ensures s.pc[u].d == s.pc[t].d && s.pc[u].i == s.pc[t].i && !InTable(s.pc[u].at)
  {
    var d, i := s.pc[t].d, s.pc[t].i;
    u := Signaller(SceneOf(s), t, d, i);
    PendingShows(s.pc[u], d, i);
    if InTable(s.pc[u].at) { TableHolder(s, t, u, d); }
  }

  lemma Signaller(a: Scene, t: Tid, d: Dir, i: nat) returns (u: Tid)
    requires SleepInv(a) && t in a.view && SleepsAt(a.view[t], d, i)
    ensures u in a.view && Pending(a.view[u], d, i)
  {
    assert WillSignal(a, d, i);
    u :| u in a.view && Pending(a.view[u], d, i);
  }

  lemma PendingShows(p: Pc, d: Dir, i: nat)
    requires Pending(Look(p), d, i)
    ensures p.OnSlot? && p.d == d && p.i == i && (Counted(p.at) || p.at == DecSignal)
    ensures InTable(p.at) ==> Holds(Look(p), d)
  {
  }

  lemma PointerShows(p: Pc)
    ensures Look(p).ref.Some? <==> p.OnSlot?
    ensures p.OnSlot? ==> Look(p).ref.value == Ref(p.d, p.s, p.i)
  {
  }

  /** What the restriction on runs waits for: another thread's pointer in the same direction. */
  lemma Blocker(s: State, t: Tid) returns (u: Tid, d: Dir)
    requires t in s.pc && !Allowed(s, t)
    ensures Holds(Look(s.pc[t]), d) && u in s.pc && u != t && s.pc[u].OnSlot? && s.pc[u].d == d
  {
    if s.pc[t].Append? {
      d := s.pc[t].d;
      u :| u in s.pc && u != t && Look(s.pc[u]).ref.Some? && Look(s.pc[u]).ref.value.d == d;
    } else {
      assert s.pc[t].OnSlot? && s.pc[t].at == Remove;
      d := s.pc[t].d;
      u :| u in s.pc && u != t && Look(s.pc[u]).ref.Some? && Look(s.pc[u]).ref.value.d == d;
    }
    PointerShows(s.pc[u]);
  }

  lemma NotAllowedMoves(s: State, t: Tid)
    requires Inv(s) && t in s.pc && !Allowed(s, t)
    ensures SomeMove(s)
  {
    var u, d := Blocker(s, t);
    if Holds(Look(s.pc[u]), d) { TableHolder(s, t, u, d); }
    TransferMoves(s, u);
  }

  lemma SlotPhaseMoves(s: State, t: Tid)
    requires Inv(s) && t in s.pc && s.pc[t].OnSlot?
    ensures SomeMove(s)
  {
    var p := s.pc[t];
    PointerSlot(s, t, p);
    if p.at == Asleep {
      var u := NoLostWakeup(s, t);
      TransferMoves(s, u);
    } else if Wants(p.at) && SlotAt(s, p.d, p.i).owner.Some? {
      SlotHolderMoves(s, p.d, p.i);
    } else if !Allowed(s, t) {
      NotAllowedMoves(s, t);
    } else {
      assert CanMove(s, t);
    }
  }

  /** Any thread past the table mutexes it needs leads to a move. */
  lemma InsideMoves(s: State, t: Tid)
    requires Inv(s) && t in s.pc
    requires !s.pc[t].WantTable? && !s.pc[t].OpenWantTable? && !s.pc[t].HalWantOut? && !s.pc[t].HalWantIn?
    ensures SomeMove(s)
  {
    if s.pc[t].OnSlot? {
      SlotPhaseMoves(s, t);
    } else if s.pc[t].OnDevice? && s.pc[t].dev == DevWant && s.devOwner.Some? {
      DeviceHolderMoves(s);
    } else if !Allowed(s, t) {
      NotAllowedMoves(s, t);
    } else {
      assert CanMove(s, t);
    }
  }

  lemma InHolderMoves(s: State)
    requires Inv(s) && s.inp.owner.Some?
    ensures SomeMove(s)
  {
    var t := s.inp.owner.value;
    OwnedShows(s, t, InTable_);
    InsideMoves(s, t);
  }

  lemma OutHolderMoves(s: State)
    requires Inv(s) && s.out.owner.Some?
    ensures SomeMove(s)
  {
    var t := s.out.owner.value;
    OwnedShows(s, t, OutTable);
    if s.pc[t].HalWantIn? {
      if s.inp.owner.Some? { InHolderMoves(s); } else { assert CanMove(s, t); }
    } else {
      InsideMoves(s, t);
    }
  }

  lemma AnyoneMoves(s: State, t: Tid)
    requires Inv(s) && t in s.pc
    ensures SomeMove(s)
  {
    if s.inp.owner.Some? { InHolderMoves(s); }
    else if s.out.owner.Some? { OutHolderMoves(s); }
    else if s.pc[t].WantTable? || s.pc[t].OpenWantTable? || s.pc[t].HalWantOut? || s.pc[t].HalWantIn? { assert CanMove(s, t); }
    else { InsideMoves(s, t); }
  }

  /** No reachable state is deadlocked. */
  lemma NoDeadlock(states: seq<State>, actions: seq<Action>, k: nat)
    requires IsRun(states, actions) && k < |states| && states[k].pc != map[]
    ensures exists t :: CanMove(states[k], t)
  {
    ReachableIsSafe(states, actions, k);
    assert exists t :: t in states[k].pc;
    var t :| t in states[k].pc;
    AnyoneMoves(states[k], t);
  }

  // ---- Every operation completes ----

  function SlotWork(at: Phase): nat {
    match at
    case WantSlot => 14 case Awake => 13 case Test => 12 case Asleep => 11
    case Calling => 11 case FreeSignal => 10 case FreeUnlock => 9 case Remove => 8
    case Inc => 10 case IncUnlock => 9 case IncLeave => 8 case Moving => 7
    case WantBack => 6 case Dec => 5 case DecSignal => 4 case DecUnlock => 1
  }

  function DevWork(dev: DevPhase): nat {
    match dev
    case DevWant => 7 case DevTest => 6 case DevCall => 5 case DevSignal => 4 case DevUnlock => 3 case DevAsleep => 0
  }

  /** An upper bound on the steps a thread still takes. */
  function Work(p: Pc): nat {
    match p
    case WantTable(_, _, _) => 16
    case Search(_, _, _) => 15
    case OnSlot(at, _, _, _, _) => SlotWork(at)
    case OpenWantTable(_) => 8
    case HalWantOut(_) => 9
    case HalWantIn(_) => 8
    case OnDevice(dev, _, _) => DevWork(dev)
    case Append(_) => 2
    case Leave(_) => 1
    case HalLeaveIn => 2
    case HalLeaveOut => 1
  }

  ghost function Total(pc: map<Tid, Pc>): nat
    decreases |pc|
  {
    if pc == map[] then 0
    else
      assert exists t :: t in pc;
      var t :| t in pc;
      assert |(pc - {t}).Keys| == |pc.Keys - {t}|;
      Work(pc[t]) + Total(pc - {t})
  }

  lemma {:induction false} TotalOf(pc: map<Tid, Pc>, t: Tid)
    requires t in pc
    ensures Total(pc) == Work(pc[t]) + Total(pc - {t})
    decreases |pc|
  {
    var u :| u in pc && Total(pc) == Work(pc[u]) + Total(pc - {u});
    if u != t {
      assert (pc - {u}).Keys == pc.Keys - {u} && (pc - {t}).Keys == pc.Keys - {t};
      TotalOf(pc - {u}, t);
      TotalOf(pc - {t}, u);
      assert pc - {u} - {t} == pc - {t} - {u};
    }
  }

  lemma TotalPut(pc: map<Tid, Pc>, t: Tid, p: Pc)
    requires t in pc
    ensures Total(pc[t := p]) == Total(pc) - Work(pc[t]) + Work(p)
  {
    TotalOf(pc, t);
    TotalOf(pc[t := p], t);
    assert pc[t := p] - {t} == pc - {t};
  }

  /** A signal wakes at most one thread and so adds at most two steps. */
  lemma TotalWake(s: State, d: Dir, i: nat)
    requires Inv(s)
    ensures Total(Wake(s.pc, d, i)) <= Total(s.pc) + 2
  {
    if u :| u in s.pc && Sleeps(s.pc[u], d, i) {
      forall w | w in s.pc && Sleeps(s.pc[w], d, i) ensures w == u { OneSleeper(s, u, w, d, i); }
      WakeOne(s.pc, u, d, i);
    } else {
      assert Wake(s.pc, d, i) == s.pc;
    }
  }

  lemma WakeOne(pc: map<Tid, Pc>, u: Tid, d: Dir, i: nat)
    requires u in pc && Sleeps(pc[u], d, i) && forall w :: w in pc && Sleeps(pc[w], d, i) ==> w == u
    ensures Total(Wake(pc, d, i)) <= Total(pc) + 2
  {
    assert Wake(pc, d, i) == pc[u := Woken(pc[u], d, i)];
    TotalPut(pc, u, Woken(pc[u], d, i));
  }

  lemma NobodySleepsBeside(s: State, t: Tid, d: Dir, i: nat)
    requires Inv(s) && t in s.pc && Holds(Look(s.pc[t]), d) && !Sleeps(s.pc[t], d, i)
    ensures Wake(s.pc, d, i) == s.pc
  {
    forall w | w in s.pc ensures !Sleeps(s.pc[w], d, i) {
      if Sleeps(s.pc[w], d, i) { TableHolder(s, t, w, d); }
    }
  }

  lemma PutAfterWake(pc: map<Tid, Pc>, w: map<Tid, Pc>, t: Tid, p: Pc, extra: nat)
    requires t in pc && t in w && w[t] == pc[t] && Total(w) <= Total(pc) + extra && Work(p) + extra < Work(pc[t])
    ensures Total(w[t := p]) < Total(pc)
  {
    TotalPut(w, t, p);
  }

  lemma AwakeStays(pc: map<Tid, Pc>, t: Tid, d: Dir, i: nat)
    requires t in pc && !Sleeps(pc[t], d, i)
    ensures t in Wake(pc, d, i) && Wake(pc, d, i)[t] == pc[t]
  {
  }

  lemma DecSignalWorks(s: State, t: Tid, job: Job, d: Dir, st: Stream, i: nat)
    requires Inv(s) && t in s.pc && s.pc[t] == OnSlot(DecSignal, job, d, st, i)
    ensures Total(Wake(s.pc, d, i)[t := OnSlot(DecUnlock, job, d, st, i)]) < Total(s.pc)
  {
    TotalWake(s, d, i);
    DecWork(s.pc, t, job, d, st, i);
  }

  lemma DecWork(pc: map<Tid, Pc>, t: Tid, job: Job, d: Dir, st: Stream, i: nat)
    requires t in pc && pc[t] == OnSlot(DecSignal, job, d, st, i) && Total(Wake(pc, d, i)) <= Total(pc) + 2
    ensures Total(Wake(pc, d, i)[t := OnSlot(DecUnlock, job, d, st, i)]) < Total(pc)
  {
    AwakeStays(pc, t, d, i);
    PutAfterWake(pc, Wake(pc, d, i), t, OnSlot(DecUnlock, job, d, st, i), 2);
  }

  lemma FreeSignalWorks(s: State, t: Tid, job: Job, d: Dir, st: Stream, i: nat)
    requires Inv(s) && t in s.pc && s.pc[t] == OnSlot(FreeSignal, job, d, st, i)
    ensures Total(Wake(s.pc, d, i)[t := OnSlot(FreeUnlock, job, d, st, i)]) < Total(s.pc)
  {
    NobodySleepsBeside(s, t, d, i);
    FreeWork(s.pc, t, job, d, st, i);
  }

  lemma FreeWork(pc: map<Tid, Pc>, t: Tid, job: Job, d: Dir, st: Stream, i: nat)
    requires t in pc && pc[t] == OnSlot(FreeSignal, job, d, st, i)
    ensures Total(pc[t := OnSlot(FreeUnlock, job, d, st, i)]) < Total(pc)
  {
    PutAfterWake(pc, pc, t, OnSlot(FreeUnlock, job, d, st, i), 0);
  }

  /** The other steps move only the acting thread. */
  lemma SlotWorks(s: State, t: Tid, at: Phase, job: Job, d: Dir, st: Stream, i: nat)
    requires t in s.pc && s.pc[t] == OnSlot(at, job, d, st, i)
    requires at != Asleep && at != DecSignal && at != FreeSignal
    ensures Total(ExecSlot(s, t, at, job, d, st, i).pc) < Total(s.pc)
  {
    if at == DecUnlock {
      TotalOf(s.pc, t);
    } else {
      var q := SlotTarget(s, t, at, job, d, st, i);
      TotalPut(s.pc, t, q);
    }
  }

  lemma SlotTarget(s: State, t: Tid, at: Phase, job: Job, d: Dir, st: Stream, i: nat) returns (q: Pc)
    requires at != Asleep && at != DecSignal && at != FreeSignal && at != DecUnlock
    ensures ExecSlot(s, t, at, job, d, st, i).pc == s.pc[t := q] && Work(q) < SlotWork(at)
  {
    if at == WantSlot || at == WantBack || at == Test || at == Awake || at == FreeUnlock || at == Remove {
      q := BranchTarget(s, t, at, job, d, st, i);
    } else {
      q := ExecSlot(s, t, at, job, d, st, i).pc[t];
    }
  }

  lemma BranchTarget(s: State, t: Tid, at: Phase, job: Job, d: Dir, st: Stream, i: nat) returns (q: Pc)
    requires at == WantSlot || at == WantBack || at == Test || at == Awake || at == FreeUnlock || at == Remove
    ensures ExecSlot(s, t, at, job, d, st, i).pc == s.pc[t := q] && Work(q) < SlotWork(at)
  {
    q := ExecSlot(s, t, at, job, d, st, i).pc[t];
  }

  lemma OtherTarget(s: State, t: Tid, c: Choice) returns (q: Pc)
    requires t in s.pc && Ready(s, t) && !s.pc[t].OnSlot? && !s.pc[t].Leave? && !s.pc[t].HalLeaveOut?
    ensures Exec(s, t, c).pc == s.pc[t := q] && Work(q) < Work(s.pc[t])
  {
    q := Exec(s, t, c).pc[t];
  }

  lemma OthersWork(s: State, t: Tid, c: Choice)
    requires t in s.pc && Ready(s, t) && !s.pc[t].OnSlot?
    ensures Total(Exec(s, t, c).pc) < Total(s.pc)
  {
    if s.pc[t].Leave? || s.pc[t].HalLeaveOut? {
      TotalOf(s.pc, t);
    } else {
      var q := OtherTarget(s, t, c);
      TotalPut(s.pc, t, q);
    }
  }

  /** Every step of every thread brings the whole system closer to rest. */
  lemma EveryStepWorks(s: State, t: Tid, c: Choice, s': State)
    requires Inv(s) && Step(s, t, c, s')
    ensures Total(s'.pc) < Total(s.pc)
  {
    var p := s.pc[t];
    if p.OnSlot? { EverySlotStepWorks(s, t, p.at, p.job, p.d, p.s, p.i); } else { OthersWork(s, t, c); }
  }

  lemma EverySlotStepWorks(s: State, t: Tid, at: Phase, job: Job, d: Dir, st: Stream, i: nat)
    requires Inv(s) && t in s.pc && s.pc[t] == OnSlot(at, job, d, st, i) && at != Asleep
    ensures Total(ExecSlot(s, t, at, job, d, st, i).pc) < Total(s.pc)
  {
    if at == DecSignal {
      DecSignalWorks(s, t, job, d, st, i);
    } else if at == FreeSignal {
      FreeSignalWorks(s, t, job, d, st, i);
    } else {
      SlotWorks(s, t, at, job, d, st, i);
    }
  }

  /** A wait that returns by itself adds two steps. */
  lemma SpuriousCosts(s: State, t: Tid, s': State)
    requires Spurious(s, t, s')
    ensures Total(s'.pc) == Total(s.pc) + 2
  {
    TotalPut(s.pc, t, s.pc[t].(at := Awake));
  }

  /** How many of the actions are waits that return by themselves. */
  function Rouses(acts: seq<Action>): nat {
    if acts == [] then 0 else Rouses(acts[..|acts| - 1]) + if acts[|acts| - 1].Rouse? then 1 else 0
  }

  /** No new calls, from any safe state. */
  ghost predicate IsDrain(states: seq<State>, acts: seq<Action>) {
    && |states| == |acts| + 1
    && Safe(states[0])
    && forall k {:trigger acts[k]} :: 0 <= k < |acts| ==> !acts[k].Enter? && Next(states[k], acts[k], states[k + 1])
  }

  lemma DrainStep(s: State, x: Action, s': State)
    requires Safe(s) && !x.Enter? && Next(s, x, s')
    ensures Safe(s') && Total(s'.pc) + 1 <= Total(s.pc) + if x.Rouse? then 3 else 0
  {
    NextKeepsSafe(s, x, s');
    if x.Act? { EveryStepWorks(s, x.t, x.c, s'); } else { SpuriousCosts(s, x.t, s'); }
  }

  lemma {:induction false} DrainIsBounded(states: seq<State>, acts: seq<Action>, k: nat)
    requires IsDrain(states, acts) && k < |states|
    ensures Safe(states[k]) && Total(states[k].pc) + k <= Total(states[0].pc) + 3 * Rouses(acts[..k])
  {
    if k > 0 {
      DrainIsBounded(states, acts, k - 1);
      assert Next(states[k - 1], acts[k - 1], states[k]);
      DrainStep(states[k - 1], acts[k - 1], states[k]);
      assert acts[..k][..k - 1] == acts[..k - 1];
    }
  }

  /** From any reachable state, once no new call starts, the wrapper comes to rest after at most
      Total steps and three for each spurious wake-up, whatever the scheduling, and a state where
      nothing moves has no thread left: every operation that was started has completed. */
  lemma EverythingCompletes(states: seq<State>, actions: seq<Action>, j: nat, rest: seq<State>, acts: seq<Action>)
    requires IsRun(states, actions) && j < |states|
    requires |rest| > 0 && rest[0] == states[j] && |rest| == |acts| + 1
    requires forall k {:trigger acts[k]} :: 0 <= k < |acts| ==> !acts[k].Enter? && Next(rest[k], acts[k], rest[k + 1])
    ensures |acts| <= Total(states[j].pc) + 3 * Rouses(acts)
    ensures (forall t :: !CanMove(rest[|acts|], t)) ==> rest[|acts|].pc == map[]
  {
    ReachableIsSafe(states, actions, j);
    assert IsDrain(rest, acts) && acts[..|acts|] == acts;
    DrainIsBounded(rest, acts, |acts|);
    var last := rest[|acts|];
    if last.pc != map[] {
      assert exists t :: t in last.pc;
      var t :| t in last.pc;
      AnyoneMoves(last, t);
    }
  }
}
