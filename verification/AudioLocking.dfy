/** The locking protocol of audio/wrapper.c as interleaved steps of any number of threads over
    any number of streams: two table mutexes, one mutex, counter and condition per stream slot,
    and the device mutex. A thread that is not in `pc` is outside the wrapper. */
module AudioLocking {
  import opened Options

  type Tid = nat
  type Stream = nat

  datatype Dir = In | Out

  /** What a thread does with one stream: read/write, a locked control call, or close. */
  datatype Job = Transfer | Control | Close

  datatype Hal = Plain | MicMute(on: bool) | SetMode(mode: int)

  /** Work done under the device mutex. */
  datatype DevJob = OpenDev(dir: Dir) | CloseDev(dir: Dir, stream: Stream) | HalDev(hal: Hal)

  /** struct wrapper_in_stream / wrapper_out_stream; `owner` is the holder of in_use_mutex. */
  datatype Slot = Slot(stream: Stream, inUse: int, owner: Option<Tid>)

  datatype Table = Table(slots: seq<Slot>, owner: Option<Tid>)

  /** Places of a thread that has a slot pointer; each names the action about to be taken. */
  datatype Phase =
    | WantSlot
    // INCREMENT_IN_USE, the vendor transfer, DECREMENT_IN_USE
    | Inc | IncUnlock | IncLeave | Moving | WantBack | Dec | DecSignal | DecUnlock
    // WAIT_FOR_FREE, the vendor call, UNLOCK_FREE, and the removal of a closed stream
    | Test | Asleep | Awake | Calling | FreeSignal | FreeUnlock | Remove

  /** Places along WAIT_FOR_FREE, the vendor call and UNLOCK_FREE on the device. */
  datatype DevPhase = DevWant | DevTest | DevAsleep | DevCall | DevSignal | DevUnlock

  datatype Pc =
    | WantTable(job: Job, d: Dir, s: Stream)
    | Search(job: Job, d: Dir, s: Stream)
    | OnSlot(at: Phase, job: Job, d: Dir, s: Stream, i: nat)
    | OpenWantTable(d: Dir)
    | HalWantOut(hal: Hal)
    | HalWantIn(hal: Hal)
    | OnDevice(dev: DevPhase, dj: DevJob, ok: bool)
    | Append(d: Dir)
    | Leave(d: Dir)
    | HalLeaveIn
    | HalLeaveOut

  datatype State = State(
    inp: Table,
    out: Table,
    devOwner: Option<Tid>,
    devInUse: int,
    mode: int,          // hal_audio_mode
    mute: int,          // last_mute_ctl_value
    mixer: int,         // the mixer control that mutes the microphone
    pc: map<Tid, Pc>)

  /** What the environment decides in a step: whether a call succeeds or the mixer opens, a fresh
      stream address, whether the mixer takes a value. */
  datatype Choice = Choice(ok: bool, stream: Stream, wrote: bool)

  const IN_CALL: int := 2
  const MUTED: int := 0   // what MUTE_VALUE stands for

  predicate Initial(s: State) {
    s == State(Table([], None), Table([], None), None, 0, 0, -1, s.mixer, map[])
  }

  // ---- Shared state ----

  function Tab(s: State, d: Dir): Table { if d == In then s.inp else s.out }

  function SetTab(s: State, d: Dir, t: Table): State {
    if d == In then s.(inp := t) else s.(out := t)
  }

  predicate HasSlot(s: State, d: Dir, i: nat) { i < |Tab(s, d).slots| }

  function SlotAt(s: State, d: Dir, i: nat): Slot
    requires HasSlot(s, d, i)
  {
    Tab(s, d).slots[i]
  }

  function SetSlot(s: State, d: Dir, i: nat, r: Slot): State
    requires HasSlot(s, d, i)
  {
    SetTab(s, d, Tab(s, d).(slots := Tab(s, d).slots[i := r]))
  }

  function SetOwner(s: State, d: Dir, o: Option<Tid>): State {
    SetTab(s, d, Tab(s, d).(owner := o))
  }

  function Goto(s: State, t: Tid, p: Pc): State { s.(pc := s.pc[t := p]) }

  function Finish(s: State, t: Tid): State { s.(pc := s.pc - {t}) }

  /** The table scan: the first slot holding the stream. */
  function FirstIndex(slots: seq<Slot>, stream: Stream): (r: Option<nat>)
    ensures r.Some? ==> r.value < |slots| && slots[r.value].stream == stream
    ensures r.Some? ==> forall k :: 0 <= k < r.value ==> slots[k].stream != stream
    ensures r.None? ==> forall k :: 0 <= k < |slots| ==> slots[k].stream != stream
  {
    if |slots| == 0 then None
    else if slots[0].stream == stream then Some(0)
    else match FirstIndex(slots[1..], stream) case None => None case Some(k) => Some(k + 1)
  }

  predicate Sleeps(p: Pc, d: Dir, i: nat) { p.OnSlot? && p.at == Asleep && p.d == d && p.i == i }

  function Woken(p: Pc, d: Dir, i: nat): Pc { if Sleeps(p, d, i) then p.(at := Awake) else p }

  /** pthread_cond_signal on a slot. It wakes the sleeper; there is never more than one (see
      OneSleeper), so "at least one" and "all" agree. */
  function Wake(pc: map<Tid, Pc>, d: Dir, i: nat): map<Tid, Pc> {
    map t | t in pc :: Woken(pc[t], d, i)
  }

  /** alsa_set_mic_mute. */
  function AlsaMute(s: State, on: bool, c: Choice): State {
    if (!on && s.mute == -1) || !c.ok then s
    else if on then s.(mute := if s.mute == -1 then s.mixer else s.mute, mixer := if c.wrote then MUTED else s.mixer)
    else s.(mute := -1, mixer := if c.wrote then s.mute else s.mixer)
  }

  function HalEffect(s: State, hal: Hal, c: Choice): State {
    match hal
    case Plain => s
    case MicMute(on) => if s.mode == IN_CALL then AlsaMute(s, on, c) else s
    case SetMode(m) =>
      if s.mode == IN_CALL && m != IN_CALL && s.mute != -1 then AlsaMute(s, false, c).(mute := -1, mode := m)
      else s.(mode := m)
  }

  // ---- Steps ----

  /** A thread can act: the lock it wants is free and it is not waiting on a condition. */
  predicate Ready(s: State, t: Tid)
    requires t in s.pc
  {
    match s.pc[t]
    case WantTable(_, d, _) => Tab(s, d).owner == None
    case OpenWantTable(d) => Tab(s, d).owner == None
    case HalWantOut(_) => s.out.owner == None
    case HalWantIn(_) => s.inp.owner == None
    case OnSlot(at, _, d, _, i) =>
      at != Asleep && (Wants(at) ==> HasSlot(s, d, i) && SlotAt(s, d, i).owner == None)
    case OnDevice(dev, _, _) => dev != DevAsleep && (dev == DevWant ==> s.devOwner == None)
    case _ => true
  }

  /** About to lock the slot mutex. */
  predicate Wants(at: Phase) { at == WantSlot || at == WantBack || at == Awake }

  function Acquire(s: State, t: Tid, d: Dir, i: nat): State {
    if HasSlot(s, d, i) then SetSlot(s, d, i, SlotAt(s, d, i).(owner := Some(t))) else s
  }

  function Release(s: State, d: Dir, i: nat): State {
    if HasSlot(s, d, i) then SetSlot(s, d, i, SlotAt(s, d, i).(owner := None)) else s
  }

  function Count(s: State, d: Dir, i: nat, delta: int): State {
    if HasSlot(s, d, i) then SetSlot(s, d, i, SlotAt(s, d, i).(inUse := SlotAt(s, d, i).inUse + delta)) else s
  }

  predicate Busy(s: State, d: Dir, i: nat) { HasSlot(s, d, i) && SlotAt(s, d, i).inUse != 0 }

  function PutTable(s: State, d: Dir, slots: seq<Slot>): State { SetTab(s, d, Tab(s, d).(slots := slots)) }

  /** Wake the sleeper of a slot. */
  function Signal(s: State, d: Dir, i: nat): State { s.(pc := Wake(s.pc, d, i)) }

  function Without(slots: seq<Slot>, i: nat): seq<Slot> {
    if i < |slots| then slots[..i] + slots[i + 1..] else slots
  }

  /** One step of a thread that has a slot pointer. */
  function ExecSlot(s: State, t: Tid, at: Phase, job: Job, d: Dir, st: Stream, i: nat): State {
    match at
    case WantSlot => Goto(Acquire(s, t, d, i), t, OnSlot(if job == Transfer then Inc else Test, job, d, st, i))
    case Inc => Goto(Count(s, d, i, 1), t, OnSlot(IncUnlock, job, d, st, i))
    case IncUnlock => Goto(Release(s, d, i), t, OnSlot(IncLeave, job, d, st, i))
    case IncLeave => Goto(SetOwner(s, d, None), t, OnSlot(Moving, job, d, st, i))
    case Moving => Goto(s, t, OnSlot(WantBack, job, d, st, i))
    case WantBack => Goto(Acquire(s, t, d, i), t, OnSlot(Dec, job, d, st, i))
    case Dec => Goto(Count(s, d, i, -1), t, OnSlot(DecSignal, job, d, st, i))
    case DecSignal => Goto(Signal(s, d, i), t, OnSlot(DecUnlock, job, d, st, i))
    case DecUnlock => Finish(Release(s, d, i), t)
    case Test =>
      if Busy(s, d, i) then Goto(Release(s, d, i), t, OnSlot(Asleep, job, d, st, i))
      else Goto(s, t, OnSlot(if job == Close then FreeSignal else Calling, job, d, st, i))
    case Asleep => s
    case Awake => Goto(Acquire(s, t, d, i), t, OnSlot(Test, job, d, st, i))
    case Calling => Goto(s, t, OnSlot(FreeSignal, job, d, st, i))
    case FreeSignal => Goto(Signal(s, d, i), t, OnSlot(FreeUnlock, job, d, st, i))
    case FreeUnlock => Goto(Release(s, d, i), t, if job == Close then OnSlot(Remove, job, d, st, i) else Leave(d))
    case Remove => Goto(PutTable(s, d, Without(Tab(s, d).slots, i)), t, OnDevice(DevWant, CloseDev(d, st), false))
  }

  function AfterDevice(dj: DevJob, ok: bool): Pc {
    match dj
    case OpenDev(d) => if ok then Append(d) else Leave(d)
    case CloseDev(d, _) => Leave(d)
    case HalDev(_) => HalLeaveIn
  }

  /** One step of a thread in the device section. */
  function ExecDevice(s: State, t: Tid, dev: DevPhase, dj: DevJob, ok: bool, c: Choice): State {
    match dev
    case DevWant => Goto(s.(devOwner := Some(t)), t, OnDevice(DevTest, dj, ok))
    case DevTest =>
      if s.devInUse != 0 then Goto(s.(devOwner := None), t, OnDevice(DevAsleep, dj, ok))
      else Goto(s, t, OnDevice(DevCall, dj, ok))
    case DevAsleep => s
    case DevCall => Goto(if dj.HalDev? then HalEffect(s, dj.hal, c) else s, t, OnDevice(DevSignal, dj, c.ok))
    case DevSignal => Goto(s, t, OnDevice(DevUnlock, dj, ok))
    case DevUnlock => Goto(s.(devOwner := None), t, AfterDevice(dj, ok))
  }

  /** One step of thread t. */
  function Exec(s: State, t: Tid, c: Choice): State
    requires t in s.pc
  {
    match s.pc[t]
    case WantTable(job, d, st) => Goto(SetOwner(s, d, Some(t)), t, Search(job, d, st))
    case Search(job, d, st) =>
      var r := FirstIndex(Tab(s, d).slots, st);
      Goto(s, t, if r.None? then Leave(d) else OnSlot(WantSlot, job, d, st, r.value))
    case OnSlot(at, job, d, st, i) => ExecSlot(s, t, at, job, d, st, i)
    case OpenWantTable(d) => Goto(SetOwner(s, d, Some(t)), t, OnDevice(DevWant, OpenDev(d), false))
    case HalWantOut(h) => Goto(SetOwner(s, Out, Some(t)), t, HalWantIn(h))
    case HalWantIn(h) => Goto(SetOwner(s, In, Some(t)), t, OnDevice(DevWant, HalDev(h), false))
    case OnDevice(dev, dj, ok) => ExecDevice(s, t, dev, dj, ok, c)
    case Append(d) =>
      // malloc returns an address not in use
      if c.ok && FirstIndex(Tab(s, d).slots, c.stream).None?
      then Goto(PutTable(s, d, Tab(s, d).slots + [Slot(c.stream, 0, None)]), t, Leave(d))
      else Goto(s, t, Leave(d))
    case Leave(d) => Finish(SetOwner(s, d, None), t)
    case HalLeaveIn => Goto(SetOwner(s, In, None), t, HalLeaveOut)
    case HalLeaveOut => Finish(SetOwner(s, Out, None), t)
  }

  /** The entry points of the wrapper. */
  predicate Entry(p: Pc) { p.WantTable? || p.OpenWantTable? || p.HalWantOut? }

  // ---- What each place in the code holds ----

  datatype Ref = Ref(d: Dir, s: Stream, i: nat)

  datatype View = View(
    inT: bool,                // in_streams_mutex is held
    outT: bool,               // out_streams_mutex is held
    slot: bool,               // the mutex of the slot in `ref` is held
    dev: bool,                // the device mutex is held
    ref: Option<Ref>,         // slot pointer kept
    counts: bool,             // included in the slot's in_use
    asleep: bool,
    alone: bool,              // past WAIT_FOR_FREE
    signals: bool)            // in_use lowered, signal still to come

  predicate Holds(v: View, d: Dir) { if d == In then v.inT else v.outT }

  function Locks(inT: bool, outT: bool, dev: bool): View {
    View(inT, outT, false, dev, None, false, false, false, false)
  }

  function One(d: Dir): View { Locks(d == In, d == Out, false) }

  function ForDev(dj: DevJob, dev: bool): View {
    if dj.HalDev? then Locks(true, true, dev) else One(dj.dir).(dev := dev)
  }

  /** Places where the table mutex is held as well as the pointer. */
  predicate InTable(at: Phase) {
    !(at == Moving || at == WantBack || at == Dec || at == DecSignal || at == DecUnlock)
  }

  predicate InSlot(at: Phase) {
    || at == Inc || at == IncUnlock || at == Dec || at == DecSignal || at == DecUnlock
    || at == Test || at == Calling || at == FreeSignal || at == FreeUnlock
  }

  /** Between in_use++ and in_use--. */
  predicate Counted(at: Phase) {
    at == IncUnlock || at == IncLeave || at == Moving || at == WantBack || at == Dec
  }

  predicate PastFree(at: Phase) { at == Calling || at == FreeSignal || at == FreeUnlock || at == Remove }

  function LookSlot(at: Phase, d: Dir, s: Stream, i: nat): View {
    View(InTable(at) && d == In, InTable(at) && d == Out, InSlot(at), false, Some(Ref(d, s, i)),
         Counted(at), at == Asleep, PastFree(at), at == DecSignal)
  }

  function Look(p: Pc): View {
    match p
    case WantTable(_, _, _) => Locks(false, false, false)
    case Search(_, d, _) => One(d)
    case OnSlot(at, _, d, s, i) => LookSlot(at, d, s, i)
    case OpenWantTable(_) => Locks(false, false, false)
    case HalWantOut(_) => Locks(false, false, false)
    case HalWantIn(_) => One(Out)
    case OnDevice(dev, dj, _) => ForDev(dj, dev != DevWant && dev != DevAsleep)
    case Append(d) => One(d)
    case Leave(d) => One(d)
    case HalLeaveIn => Locks(true, true, false)
    case HalLeaveOut => One(Out)
  }

  predicate At(v: View, d: Dir, i: nat) { v.ref.Some? && v.ref.value.d == d && v.ref.value.i == i }

  /** Runs are those where no other stream of the same direction is opened or closed while a
      transfer is in flight (a transfer keeps its slot pointer across the table mutex). */
  ghost predicate Allowed(s: State, t: Tid)
    requires t in s.pc
  {
    match s.pc[t]
    case Append(d) =>
      forall u :: u in s.pc && u != t && Look(s.pc[u]).ref.Some? ==> Look(s.pc[u]).ref.value.d != d
    case OnSlot(at, _, d, st, _) =>
      at == Remove ==>
        forall u :: u in s.pc && u != t && Look(s.pc[u]).ref.Some? && Look(s.pc[u]).ref.value.d == d
                    ==> Look(s.pc[u]).ref.value.s == st
    case _ => true
  }

  ghost predicate Step(s: State, t: Tid, c: Choice, s': State) {
    t in s.pc && Ready(s, t) && Allowed(s, t) && s' == Exec(s, t, c)
  }

  ghost predicate Start(s: State, t: Tid, p: Pc, s': State) {
    t !in s.pc && Entry(p) && s' == Goto(s, t, p)
  }

  /** A wait on a slot that returns without having been signalled, as pthread_cond_wait may. */
  ghost predicate Spurious(s: State, t: Tid, s': State) {
    t in s.pc && s.pc[t].OnSlot? && s.pc[t].at == Asleep && s' == Goto(s, t, s.pc[t].(at := Awake))
  }
}
