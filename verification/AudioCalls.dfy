/** That the audio wrapper (audio/wrapper.c) makes the vendor calls it stands for: in every run, a
    call of the wrapper reaches the vendor once, for its own stream or device, unless its stream is
    unknown; and what set_mode and set_mic_mute leave behind. */
module AudioCalls {
  import opened Options
  import opened AudioLocking
  import opened AudioTheorems

  // ---- a call, place by place ----

  /** The step from here is the vendor's: a transfer, a locked control call, or one on the device. */
  predicate Vendor(p: Pc) {
    (p.OnSlot? && (p.at == Moving || p.at == Calling)) || (p.OnDevice? && p.dev == DevCall)
  }

  /** Places of a transfer, and of the other jobs, up to their vendor call. */
  predicate BeforeMoving(at: Phase) { at == WantSlot || at == Inc || at == IncUnlock || at == IncLeave || at == Moving }
  predicate AfterMoving(at: Phase) { at == WantBack || at == Dec || at == DecSignal || at == DecUnlock }
  predicate BeforeCalling(at: Phase) { at == WantSlot || at == Test || at == Asleep || at == Awake || at == Calling }
  predicate AfterCalling(at: Phase) { at == FreeSignal || at == FreeUnlock }

  /** A thread that entered for a job on a stream is at place `at` and has called the vendor n times. */
  predicate OnStream(job: Job, at: Phase, n: nat) {
    match job
    case Transfer => (BeforeMoving(at) && n == 0) || (AfterMoving(at) && n == 1)
    case Control => (BeforeCalling(at) && n == 0) || (AfterCalling(at) && n == 1)
    case Close => at != Calling && (BeforeCalling(at) || AfterCalling(at) || at == Remove) && n == 0
  }

  predicate InDevice(dev: DevPhase, n: nat) {
    if dev == DevSignal || dev == DevUnlock then n == 1 else n == 0
  }

  /** A thread that entered at e is at p, has called the vendor n times, and found its stream or not. */
  predicate Stage(e: Pc, p: Pc, n: nat, found: bool) {
    match e
    case WantTable(job, d, st) => StreamStage(job, d, st, p, n, found)
    case OpenWantTable(d) => OpenStage(d, p, n)
    case HalWantOut(hal) => HalStage(hal, p, n)
    case _ => false
  }

  predicate StreamStage(job: Job, d: Dir, st: Stream, p: Pc, n: nat, found: bool) {
    || ((p == WantTable(job, d, st) || p == Search(job, d, st)) && n == 0 && !found)
    || (p.OnSlot? && p.job == job && p.d == d && p.s == st && found && OnStream(job, p.at, n))
    || (p.OnDevice? && job == Close && p.dj == CloseDev(d, st) && found && InDevice(p.dev, n))
    || (p == Leave(d) && job != Transfer && n == (if found then 1 else 0))
    || (p == Leave(d) && job == Transfer && n == 0 && !found)
  }

  predicate OpenStage(d: Dir, p: Pc, n: nat) {
    || (p == OpenWantTable(d) && n == 0)
    || (p.OnDevice? && p.dj == OpenDev(d) && InDevice(p.dev, n))
    || ((p == Append(d) || p == Leave(d)) && n == 1)
  }

  predicate HalStage(hal: Hal, p: Pc, n: nat) {
    || ((p == HalWantOut(hal) || p == HalWantIn(hal)) && n == 0)
    || (p.OnDevice? && p.dj == HalDev(hal) && InDevice(p.dev, n))
    || ((p == HalLeaveIn || p == HalLeaveOut) && n == 1)
  }

  /** How often a call should reach the vendor: once, unless its stream is unknown. */
  function Expected(e: Pc, found: bool): nat { if e.WantTable? && !found then 0 else 1 }

  function Ticks(b: bool): nat { if b then 1 else 0 }

  /** After a step of its own, the thread is gone with its call made, or one place further. */
  ghost predicate MovesOn(e: Pc, s: State, t: Tid, s': State, n: nat, found: bool)
    requires t in s.pc
  {
    var m := n + Ticks(Vendor(s.pc[t]));
    if t in s'.pc then Stage(e, s'.pc[t], m, found || s'.pc[t].OnSlot?) else m == Expected(e, found)
  }

  lemma TransferMovesOn(s: State, t: Tid, at: Phase, job: Job, d: Dir, st: Stream, i: nat, n: nat)
    requires t in s.pc && s.pc[t] == OnSlot(at, job, d, st, i) && at != Asleep && OnStream(job, at, n) && job == Transfer && BeforeMoving(at)
    ensures MovesOn(WantTable(job, d, st), s, t, ExecSlot(s, t, at, job, d, st, i), n, true)
  {
  }

  lemma TransferComesBack(s: State, t: Tid, at: Phase, job: Job, d: Dir, st: Stream, i: nat, n: nat)
    requires t in s.pc && s.pc[t] == OnSlot(at, job, d, st, i) && at != Asleep && OnStream(job, at, n) && job == Transfer && AfterMoving(at)
    ensures MovesOn(WantTable(job, d, st), s, t, ExecSlot(s, t, at, job, d, st, i), n, true)
  {
  }

  lemma ControlMovesOn(s: State, t: Tid, at: Phase, job: Job, d: Dir, st: Stream, i: nat, n: nat)
    requires t in s.pc && s.pc[t] == OnSlot(at, job, d, st, i) && at != Asleep && OnStream(job, at, n) && job == Control
    ensures MovesOn(WantTable(job, d, st), s, t, ExecSlot(s, t, at, job, d, st, i), n, true)
  {
  }

  lemma CloseMovesOn(s: State, t: Tid, at: Phase, job: Job, d: Dir, st: Stream, i: nat, n: nat)
    requires t in s.pc && s.pc[t] == OnSlot(at, job, d, st, i) && at != Asleep && OnStream(job, at, n) && job == Close
    ensures MovesOn(WantTable(job, d, st), s, t, ExecSlot(s, t, at, job, d, st, i), n, true)
  {
  }

  lemma DeviceMovesOn(e: Pc, s: State, t: Tid, c: Choice, dev: DevPhase, dj: DevJob, ok: bool, n: nat, found: bool)
    requires t in s.pc && s.pc[t] == OnDevice(dev, dj, ok) && dev != DevAsleep && Stage(e, s.pc[t], n, found)
    ensures MovesOn(e, s, t, ExecDevice(s, t, dev, dj, ok, c), n, found)
  {
  }

  lemma OwnStep(e: Pc, s: State, t: Tid, c: Choice, n: nat, found: bool)
    requires t in s.pc && Ready(s, t) && Stage(e, s.pc[t], n, found)
    ensures MovesOn(e, s, t, Exec(s, t, c), n, found)
  {
    var p := s.pc[t];
    if p.OnSlot? {
      if p.job == Control {
        ControlMovesOn(s, t, p.at, p.job, p.d, p.s, p.i, n);
      } else if p.job == Close {
        CloseMovesOn(s, t, p.at, p.job, p.d, p.s, p.i, n);
      } else if BeforeMoving(p.at) {
        TransferMovesOn(s, t, p.at, p.job, p.d, p.s, p.i, n);
      } else {
        TransferComesBack(s, t, p.at, p.job, p.d, p.s, p.i, n);
      }
    } else if p.OnDevice? {
      DeviceMovesOn(e, s, t, c, p.dev, p.dj, p.ok, n, found);
    }
  }

  /** A wake-up changes nothing in that. */
  lemma RousedStage(e: Pc, p: Pc, q: Pc, n: nat, found: bool)
    requires Stage(e, p, n, found) && Undisturbed(p, q)
    ensures Stage(e, q, n, found || q.OnSlot?)
  {
  }

  // ---- over runs ----

  /** The vendor calls thread t makes in actions a to b. */
  function Calls(states: seq<State>, actions: seq<Action>, t: Tid, a: nat, b: nat): nat
    requires |states| == |actions| + 1 && b <= |actions|
  {
    if b <= a then 0
    else Calls(states, actions, t, a, b - 1) + Ticks(VendorStep(states[b - 1], actions[b - 1], t))
  }

  predicate VendorStep(s: State, x: Action, t: Tid) { x.Act? && x.t == t && t in s.pc && Vendor(s.pc[t]) }

  /** Thread t has had a slot pointer in states a to b: its stream is known. */
  ghost predicate Found(states: seq<State>, t: Tid, a: nat, b: nat)
    requires b < |states|
  {
    exists k: nat :: a <= k <= b && PointerAt(states, t, k)
  }

  predicate PointerAt(states: seq<State>, t: Tid, k: nat) { k < |states| && t in states[k].pc && states[k].pc[t].OnSlot? }

  /** Thread t enters at e in action i and is inside from then to state k. */
  ghost predicate InsideSince(states: seq<State>, actions: seq<Action>, t: Tid, e: Pc, i: nat, k: nat) {
    && |states| == |actions| + 1 && i < k < |states| && actions[i] == Enter(t, e)
    && forall m: nat :: i < m <= k ==> t in states[m].pc
  }

  lemma FoundNext(states: seq<State>, t: Tid, a: nat, b: nat)
    requires a <= b + 1 < |states|
    ensures Found(states, t, a, b + 1) <==> Found(states, t, a, b) || PointerAt(states, t, b + 1)
  {
    if PointerAt(states, t, b + 1) { assert Found(states, t, a, b + 1); }
    if Found(states, t, a, b) {
      var k: nat :| a <= k <= b && PointerAt(states, t, k);
      assert a <= k <= b + 1;
    }
  }

  /** One action of the system, seen from thread t, which stays inside. */
  lemma StageNext(e: Pc, s: State, x: Action, s': State, t: Tid, n: nat, found: bool)
    requires Next(s, x, s') && t in s.pc && t in s'.pc && Stage(e, s.pc[t], n, found)
    ensures Stage(e, s'.pc[t], n + Ticks(VendorStep(s, x, t)), found || s'.pc[t].OnSlot?)
  {
    match x
    case Act(u, c) =>
      if u == t {
        OwnStep(e, s, t, c, n, found);
      } else {
        StepLeaves(s, u, c, t);
        RousedStage(e, s.pc[t], s'.pc[t], n, found);
      }
    case Enter(u, p) => RousedStage(e, s.pc[t], s'.pc[t], n, found);
    case Rouse(u) => RousedStage(e, s.pc[t], s'.pc[t], n, found);
  }

  /** Where a thread is tells how often it has called the vendor. */
  lemma {:induction false} StageOf(states: seq<State>, actions: seq<Action>, t: Tid, e: Pc, i: nat, k: nat)
    requires IsRun(states, actions) && InsideSince(states, actions, t, e, i, k)
    ensures Stage(e, states[k].pc[t], Calls(states, actions, t, i + 1, k), Found(states, t, i + 1, k))
  {
    if k == i + 1 {
      assert Next(states[i], actions[i], states[k]);
      assert states[k].pc[t] == e && !PointerAt(states, t, k);
    } else {
      var m := k - 1;
      StageOf(states, actions, t, e, i, m);
      assert Next(states[m], actions[m], states[k]);
      StageNext(e, states[m], actions[m], states[k], t, Calls(states, actions, t, i + 1, m), Found(states, t, i + 1, m));
      FoundNext(states, t, i + 1, m);
    }
  }

  /** Every call of the wrapper that returns has called the vendor exactly once, or, if its stream is
      unknown, not at all. */
  lemma VendorIsCalledOnce(states: seq<State>, actions: seq<Action>, t: Tid, e: Pc, i: nat, k: nat)
    requires IsRun(states, actions) && InsideSince(states, actions, t, e, i, k) && k < |actions| && t !in states[k + 1].pc
    ensures Calls(states, actions, t, i + 1, k + 1) == Expected(e, Found(states, t, i + 1, k))
  {
    StageOf(states, actions, t, e, i, k);
    assert Next(states[k], actions[k], states[k + 1]);
    Gone(states[k], actions[k], states[k + 1], t);
    OwnStep(e, states[k], t, actions[k].c, Calls(states, actions, t, i + 1, k), Found(states, t, i + 1, k));
  }

  lemma Gone(s: State, x: Action, s': State, t: Tid)
    requires Next(s, x, s') && t in s.pc && t !in s'.pc
    ensures x.Act? && x.t == t
  {
    if x.Act? && x.t != t { OthersStay(s, x.t, x.c, t); }
  }

  lemma OthersStay(s: State, t: Tid, c: Choice, u: Tid)
    requires t in s.pc && u in s.pc && u != t
    ensures u in Exec(s, t, c).pc
  {
    var p := s.pc[t];
    if p.OnSlot? { SlotOthersStay(s, t, p.at, p.job, p.d, p.s, p.i, u); }
  }

  lemma SlotOthersStay(s: State, t: Tid, at: Phase, job: Job, d: Dir, st: Stream, i: nat, u: Tid)
    requires t in s.pc && u in s.pc && u != t
    ensures u in ExecSlot(s, t, at, job, d, st, i).pc
  {
  }

  /** And it was called for what the caller asked: the same job on the same stream, or the same work
      on the device. */
  lemma VendorIsCalledForIt(states: seq<State>, actions: seq<Action>, t: Tid, e: Pc, i: nat, k: nat)
    requires IsRun(states, actions) && InsideSince(states, actions, t, e, i, k) && Vendor(states[k].pc[t])
    ensures var p := states[k].pc[t];
            match e
            case WantTable(job, d, st) =>
              if job == Close then p.OnDevice? && p.dj == CloseDev(d, st)
              else p.OnSlot? && p.job == job && p.d == d && p.s == st && (job == Transfer <==> p.at == Moving)
            case OpenWantTable(d) => p.OnDevice? && p.dj == OpenDev(d)
            case HalWantOut(hal) => p.OnDevice? && p.dj == HalDev(hal)
            case _ => false
  {
    StageOf(states, actions, t, e, i, k);
  }

  /** A stream in the table is found, in a slot that holds it; only one that is not there ends the
      call early. */
  lemma SearchFinds(s: State, t: Tid, c: Choice, job: Job, d: Dir, st: Stream)
    requires t in s.pc && s.pc[t] == Search(job, d, st)
    ensures var q := Exec(s, t, c).pc[t];
            if Absent(Tab(s, d).slots, st) then q == Leave(d)
            else q.OnSlot? && q == OnSlot(WantSlot, job, d, st, q.i) && q.i < |Tab(s, d).slots| && Tab(s, d).slots[q.i].stream == st
  {
  }

  /** A stream the vendor has opened is entered behind the others, unused; one it has not is not. */
  lemma OpenAdds(s: State, t: Tid, c: Choice, d: Dir)
    requires t in s.pc && s.pc[t] == Append(d)
    ensures var slots := Tab(Exec(s, t, c), d).slots;
            if c.ok && Absent(Tab(s, d).slots, c.stream) then slots == Tab(s, d).slots + [Slot(c.stream, 0, None)]
            else slots == Tab(s, d).slots
  {
  }

  /** A close takes its own slot out and leaves the others in their order. */
  lemma CloseRemoves(s: State, t: Tid, c: Choice, job: Job, d: Dir, st: Stream, i: nat)
    requires t in s.pc && s.pc[t] == OnSlot(Remove, job, d, st, i) && HasSlot(s, d, i)
    ensures var slots, now := Tab(s, d).slots, Tab(Exec(s, t, c), d).slots;
            |now| == |slots| - 1 && forall k :: 0 <= k < |now| ==> now[k] == slots[if k < i then k else k + 1]
  {
  }

  // ---- mode and mute ----

  /** set_mode and set_mic_mute take effect in their device section. */
  lemma HalTakesEffect(s: State, t: Tid, c: Choice, m: int, ok: bool)
    requires t in s.pc
    ensures s.pc[t] == OnDevice(DevCall, HalDev(SetMode(m)), ok) ==> Exec(s, t, c).mode == m
    ensures forall on :: s.pc[t] == OnDevice(DevCall, HalDev(MicMute(on)), ok) && s.mode == 2 && s.mute == -1 && c.ok ==>
              Exec(s, t, c).mute == if on then s.mixer else -1
  {
  }

  /** The mode is the one last set. */
  lemma ModeIsSet(s: State, m: int, c: Choice)
    ensures HalEffect(s, SetMode(m), c).mode == m
    ensures forall on :: HalEffect(s, MicMute(on), c).mode == s.mode
    ensures HalEffect(s, Plain, c) == s
  {
  }

  /** In a call, muting saves the mixer's value once and mutes it, and unmuting puts it back. */
  lemma MuteRoundTrip(s: State, c: Choice, d: Choice)
    requires s.mode == 2 && s.mute == -1 && s.mixer != -1 && c.ok && c.wrote && d.ok && d.wrote
    ensures var t := HalEffect(s, MicMute(true), c);
            && t.mute == s.mixer && t.mixer == MUTED
            && HalEffect(t, MicMute(true), c) == t
            && HalEffect(t, MicMute(false), d) == s
  {
  }

  /** Leaving the call does the same; outside one nothing is touched. */
  lemma MuteEndsWithCall(s: State, m: int, c: Choice)
    requires c.ok && c.wrote
    ensures s.mode == 2 && m != 2 && s.mute != -1 ==> HalEffect(s, SetMode(m), c) == s.(mode := m, mute := -1, mixer := s.mute)
    ensures s.mode != 2 ==> forall on :: HalEffect(s, MicMute(on), c) == s
    ensures s.mute == -1 ==> HalEffect(s, MicMute(false), c) == s && HalEffect(s, SetMode(m), c) == s.(mode := m)
  {
  }
}
