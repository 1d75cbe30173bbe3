/** Why runs of audio/wrapper.c are restricted to those where no other stream of a direction is
    closed while a transfer keeps its slot pointer: a reachable state in which one more step, of a
    close, leaves a running transfer with a pointer behind the end of the table. */
module AudioDangling {
  import opened Options
  import opened AudioLocking
  import opened AudioViews
  import opened AudioSafety
  import opened AudioTheorems

  ghost predicate Reached(s: State) {
    exists states, actions :: IsRun(states, actions) && states[|actions|] == s
  }

  lemma ReachedNext(s: State, x: Action, s': State)
    requires Reached(s) && Next(s, x, s')
    ensures Reached(s')
  {
    var states, actions :| IsRun(states, actions) && states[|actions|] == s;
    var more, acts := states + [s'], actions + [x];
    forall k {:trigger acts[k]} | 0 <= k < |acts| ensures Next(more[k], acts[k], more[k + 1]) {
      if k < |actions| { assert actions[k] == acts[k]; }
    }
    assert IsRun(more, acts) && more[|acts|] == s';
  }

  lemma ReachedStep(s: State, t: Tid, c: Choice)
    requires Reached(s) && t in s.pc && Ready(s, t) && Allowed(s, t)
    ensures Reached(Exec(s, t, c))
  {
    ReachedNext(s, Act(t, c), Exec(s, t, c));
  }

  lemma ReachedStart(s: State, t: Tid, p: Pc)
    requires Reached(s) && t !in s.pc && Entry(p)
    ensures Reached(Goto(s, t, p))
  {
    ReachedNext(s, Enter(t, p), Goto(s, t, p));
  }

  /** Nobody in the wrapper, and output streams in this order. */
  function Quiet(streams: seq<Stream>): State {
    State(Table([], None), Table(seq(|streams|, i requires 0 <= i < |streams| => Slot(streams[i], 0, None)), None), None, 0, 0, -1, 0, map[])
  }

  lemma QuietStart()
    ensures Reached(Quiet([]))
  {
    var s := Quiet([]);
    var none: seq<Action> := [];
    assert IsRun([s], none) && [s][|none|] == s;
  }

  /** One thread alone at p, with the output table held or not and the device held or not. */
  function Alone(s: State, p: Pc, table: bool, dev: bool): State {
    var o := Some(0);
    s.(out := s.out.(owner := if table then o else None), devOwner := if dev then o else None, pc := map[0 := p])
  }

  /** The steps of an open, up to the device section and through it. */
  lemma OpenSteps(s: State, st: Stream)
    requires Reached(s) && s == Alone(s, OpenWantTable(Out), false, false) && s.devInUse == 0
    ensures Reached(Alone(s, Append(Out), true, false))
  {
    var c := Choice(true, st, true);
    ReachedStep(s, 0, c);
    var s1 := Alone(s, OnDevice(DevWant, OpenDev(Out), false), true, false);
    assert Exec(s, 0, c) == s1;
    ReachedStep(s1, 0, c);
    var s2 := Alone(s, OnDevice(DevTest, OpenDev(Out), false), true, true);
    assert Exec(s1, 0, c) == s2;
    ReachedStep(s2, 0, c);
    var s3 := Alone(s, OnDevice(DevCall, OpenDev(Out), false), true, true);
    assert Exec(s2, 0, c) == s3;
    ReachedStep(s3, 0, c);
    var s4 := Alone(s, OnDevice(DevSignal, OpenDev(Out), true), true, true);
    assert Exec(s3, 0, c) == s4;
    ReachedStep(s4, 0, c);
    var s5 := Alone(s, OnDevice(DevUnlock, OpenDev(Out), true), true, true);
    assert Exec(s4, 0, c) == s5;
    ReachedStep(s5, 0, c);
    assert Exec(s5, 0, c) == Alone(s, Append(Out), true, false);
  }

  lemma Opens(streams: seq<Stream>, st: Stream)
    requires Reached(Quiet(streams)) && st !in streams
    ensures Reached(Quiet(streams + [st]))
  {
    var q, c := Quiet(streams), Choice(true, st, true);
    ReachedStart(q, 0, OpenWantTable(Out));
    var s := Goto(q, 0, OpenWantTable(Out));
    assert s == Alone(s, OpenWantTable(Out), false, false);
    OpenSteps(s, st);
    var a := Alone(s, Append(Out), true, false);
    ReachedStep(a, 0, c);
    var l := Exec(a, 0, c);
    assert l == Goto(PutTable(a, Out, a.out.slots + [Slot(st, 0, None)]), 0, Leave(Out));
    ReachedStep(l, 0, c);
    var r := Quiet(streams + [st]);
    assert r.out.slots == a.out.slots + [Slot(st, 0, None)];
    assert Exec(l, 0, c) == r;
  }

  /** Two streams with the second in use or not, the table held by a thread or not, and the slot of
      a stream held or not. */
  function Two(n: int, table: Option<Tid>, first: Option<Tid>, second: Option<Tid>, pc: map<Tid, Pc>): State {
    State(Table([], None), Table([Slot(10, 0, first), Slot(20, n, second)], table), None, 0, 0, -1, 0, pc)
  }

  function Transferring(at: Phase): Pc { OnSlot(at, Transfer, Out, 20, 1) }

  function Closing10(at: Phase): Pc { OnSlot(at, Close, Out, 10, 0) }

  const GO: Choice := Choice(true, 0, true)

  /** Thread 1 in a transfer on the second stream. */
  function Moved(at: Phase, n: int, table: Option<Tid>, slot: Option<Tid>): State {
    Two(n, table, None, slot, map[1 := Transferring(at)])
  }

  /** Thread 2 in a close of the first stream while that transfer is in the vendor call. */
  function Closed(at: Phase, slot: Option<Tid>): State {
    Two(1, Some(2), slot, None, map[1 := Transferring(Moving), 2 := Closing10(at)])
  }

  lemma Finds20(slots: seq<Slot>)
    requires |slots| == 2 && slots[0].stream == 10 && slots[1].stream == 20
    ensures FirstIndex(slots, 20) == Some(1) && FirstIndex(slots, 10) == Some(0)
  {
  }

  lemma FindsSlot20()
    requires Reached(Quiet([10, 20]))
    ensures Reached(Moved(WantSlot, 0, Some(1), None))
  {
    var q := Two(0, None, None, None, map[]);
    assert Quiet([10, 20]) == q;
    var s := Two(0, None, None, None, map[1 := WantTable(Transfer, Out, 20)]);
    ReachedStart(q, 1, WantTable(Transfer, Out, 20));
    assert Goto(q, 1, WantTable(Transfer, Out, 20)) == s;
    ReachedStep(s, 1, GO);
    var s1 := Two(0, Some(1), None, None, map[1 := Search(Transfer, Out, 20)]);
    assert Exec(s, 1, GO) == s1;
    ReachedStep(s1, 1, GO);
    Finds20(s1.out.slots);
    assert Exec(s1, 1, GO) == Moved(WantSlot, 0, Some(1), None);
  }

  lemma TakesSlot20() ensures Step(Moved(WantSlot, 0, Some(1), None), 1, GO, Moved(Inc, 0, Some(1), Some(1))) {}
  lemma Counts20() ensures Step(Moved(Inc, 0, Some(1), Some(1)), 1, GO, Moved(IncUnlock, 1, Some(1), Some(1))) {}
  lemma DropsSlot20() ensures Step(Moved(IncUnlock, 1, Some(1), Some(1)), 1, GO, Moved(IncLeave, 1, Some(1), None)) {}
  lemma Leaves20() ensures Step(Moved(IncLeave, 1, Some(1), None), 1, GO, Moved(Moving, 1, None, None)) {}

  /** A transfer on the second stream gets to the vendor call. */
  lemma Transfers20()
    requires Reached(Moved(WantSlot, 0, Some(1), None))
    ensures Reached(Moved(Moving, 1, None, None))
  {
    TakesSlot20();
    ReachedNext(Moved(WantSlot, 0, Some(1), None), Act(1, GO), Moved(Inc, 0, Some(1), Some(1)));
    Counts20();
    ReachedNext(Moved(Inc, 0, Some(1), Some(1)), Act(1, GO), Moved(IncUnlock, 1, Some(1), Some(1)));
    DropsSlot20();
    ReachedNext(Moved(IncUnlock, 1, Some(1), Some(1)), Act(1, GO), Moved(IncLeave, 1, Some(1), None));
    Leaves20();
    ReachedNext(Moved(IncLeave, 1, Some(1), None), Act(1, GO), Moved(Moving, 1, None, None));
  }

  lemma FindsSlot10()
    requires Reached(Moved(Moving, 1, None, None))
    ensures Reached(Closed(WantSlot, None))
  {
    var m := Transferring(Moving);
    var s := Two(1, None, None, None, map[1 := m, 2 := WantTable(Close, Out, 10)]);
    ReachedStart(Moved(Moving, 1, None, None), 2, WantTable(Close, Out, 10));
    assert Goto(Moved(Moving, 1, None, None), 2, WantTable(Close, Out, 10)) == s;
    ReachedStep(s, 2, GO);
    var s1 := Two(1, Some(2), None, None, map[1 := m, 2 := Search(Close, Out, 10)]);
    assert Exec(s, 2, GO) == s1;
    ReachedStep(s1, 2, GO);
    Finds20(s1.out.slots);
    assert Exec(s1, 2, GO) == Closed(WantSlot, None);
  }

  lemma TakesSlot10() ensures Step(Closed(WantSlot, None), 2, GO, Closed(Test, Some(2))) {}
  lemma Tests10() ensures Step(Closed(Test, Some(2)), 2, GO, Closed(FreeSignal, Some(2))) {}
  lemma Signals10() ensures Step(Closed(FreeSignal, Some(2)), 2, GO, Closed(FreeUnlock, Some(2))) {
    var s := Closed(FreeSignal, Some(2));
    assert Wake(s.pc, Out, 0) == s.pc;
  }
  lemma DropsSlot10() ensures Step(Closed(FreeUnlock, Some(2)), 2, GO, Closed(Remove, None)) {}

  /** Meanwhile a close of the first one gets to the removal. */
  lemma Closes10()
    requires Reached(Closed(WantSlot, None))
    ensures Reached(Closed(Remove, None))
  {
    TakesSlot10();
    ReachedNext(Closed(WantSlot, None), Act(2, GO), Closed(Test, Some(2)));
    Tests10();
    ReachedNext(Closed(Test, Some(2)), Act(2, GO), Closed(FreeSignal, Some(2)));
    Signals10();
    ReachedNext(Closed(FreeSignal, Some(2)), Act(2, GO), Closed(FreeUnlock, Some(2)));
    DropsSlot10();
    ReachedNext(Closed(FreeUnlock, Some(2)), Act(2, GO), Closed(Remove, None));
  }

  lemma BothInside()
    ensures Reached(Closed(Remove, None))
  {
    QuietStart();
    Opens([], 10);
    Opens([10], 20);
    assert [] + [10] == [10] && [10] + [20] == [10, 20];
    FindsSlot20();
    Transfers20();
    FindsSlot10();
    Closes10();
  }

  /** In a reachable state a close is about to take its stream out of the table while a transfer on
      another stream is in the vendor call; if it did, the transfer's slot would be gone. */
  lemma PointerDangles() returns (s: State, t: Tid, u: Tid)
    ensures Reached(s) && t in s.pc && s.pc[t] == Transferring(Moving)
    ensures u in s.pc && u != t && Ready(s, u) && !Allowed(s, u)
    ensures forall c :: var s' := Exec(s, u, c); t in s'.pc && s'.pc[t] == s.pc[t] && !RefOk(SceneOf(s'), Look(s.pc[t]))
  {
    BothInside();
    s, t, u := Closed(Remove, None), 1, 2;
    assert Look(s.pc[1]).ref == Some(Ref(Out, 20, 1));
  }
}
