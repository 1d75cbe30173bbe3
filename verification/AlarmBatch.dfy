/** What one run of alarm_process (charge_only_mode/alarm.c) may fire: the alarms that were due
    when it read the clock, in their order, but for those cancelled by an earlier callback. */
module AlarmBatch {
  import opened AlarmQueue

  /** A callback that ran, and what it cancelled. */
  datatype Entry<C> = Entry(alarm: Alarm<C>, killed: set<C>)

  function Survivors<C(==)>(q: seq<Alarm<C>>, killed: set<C>): seq<Alarm<C>> {
    if q == [] then [] else (if q[0].f in killed then [] else [q[0]]) + Survivors(q[1..], killed)
  }

  /** The log of a batch over due alarms q, of which `rest` has yet to fire. */
  ghost predicate Batch<C(!new)>(q: seq<Alarm<C>>, log: seq<Entry<C>>, rest: seq<Alarm<C>>)
    decreases |log|
  {
    if log == [] then rest == q
    else q != [] && log[0].alarm == q[0] && Batch(Survivors(q[1..], log[0].killed), log[1..], rest)
  }

  lemma {:induction false} SurvivorsNone<C>(q: seq<Alarm<C>>)
    ensures Survivors(q, {}) == q
  {
    if q != [] { SurvivorsNone(q[1..]); }
  }

  lemma {:induction false} SurvivorsKill<C>(q: seq<Alarm<C>>, killed: set<C>, f: C)
    ensures Without(Survivors(q, killed), f) == Survivors(q, killed + {f})
  {
    if q != [] {
      SurvivorsKill(q[1..], killed, f);
      var r := Survivors(q[1..], killed);
      assert ([q[0]] + r)[1..] == r && [] + r == r;
    }
  }

  lemma {:induction false} SurvivorsFewer<C>(q: seq<Alarm<C>>, killed: set<C>)
    ensures |Survivors(q, killed)| <= |q|
  {
    if q != [] { SurvivorsFewer(q[1..], killed); }
  }

  // ---- what a batch is, alarm by alarm ----

  /** The log of a pass over q in which an alarm is skipped when its callback is in `killed` or was
      cancelled by an earlier one of the pass, and fires otherwise. */
  ghost predicate Pass<C(!new)>(q: seq<Alarm<C>>, log: seq<Entry<C>>, killed: set<C>)
    decreases |q|
  {
    if q == [] then log == []
    else if q[0].f in killed then Pass(q[1..], log, killed)
    else log != [] && log[0].alarm == q[0] && Pass(q[1..], log[1..], killed + log[0].killed)
  }

  lemma {:induction false} SurvivorsTwice<C>(q: seq<Alarm<C>>, a: set<C>, b: set<C>)
    ensures Survivors(Survivors(q, a), b) == Survivors(q, a + b)
  {
    if q != [] {
      SurvivorsTwice(q[1..], a, b);
      var r := Survivors(q[1..], a);
      assert ([q[0]] + r)[1..] == r && [] + r == r;
    }
  }

  /** A batch over the survivors of q is a pass over q. */
  lemma {:induction false} BatchIsPass<C(!new)>(q: seq<Alarm<C>>, log: seq<Entry<C>>, killed: set<C>)
    ensures Batch(Survivors(q, killed), log, []) <==> Pass(q, log, killed)
    decreases |q|
  {
    if q != [] {
      var r := Survivors(q[1..], killed);
      if q[0].f in killed {
        assert Survivors(q, killed) == r;
        BatchIsPass(q[1..], log, killed);
      } else {
        var s := Survivors(q, killed);
        assert s == [q[0]] + r && s[1..] == r;
        if log != [] {
          SurvivorsTwice(q[1..], killed, log[0].killed);
          BatchIsPass(q[1..], log[1..], killed + log[0].killed);
        }
      }
    }
  }

  ghost predicate Increasing(idx: seq<nat>) { forall i, j :: 0 <= i < j < |idx| ==> idx[i] < idx[j] }

  /** Neither in `killed` nor cancelled by a callback of the log that fires before place i. */
  ghost predicate Spared<C(!new)>(a: Alarm<C>, i: nat, log: seq<Entry<C>>, idx: seq<nat>, killed: set<C>)
    requires |idx| == |log|
  {
    a.f !in killed && forall j :: 0 <= j < |log| && idx[j] < i ==> a.f !in log[j].killed
  }

  /** The log fires the alarms of q at the places idx, in their order, and those are exactly the
      alarms no earlier callback has cancelled. */
  ghost predicate Fires<C(!new)>(q: seq<Alarm<C>>, log: seq<Entry<C>>, idx: seq<nat>, killed: set<C>) {
    && |idx| == |log| && Increasing(idx)
    && (forall j :: 0 <= j < |idx| ==> idx[j] < |q| && q[idx[j]] == log[j].alarm)
    && (forall i :: 0 <= i < |q| ==> (i in idx <==> Spared(q[i], i, log, idx, killed)))
  }

  /** The places one further on. */
  ghost function Up(idx: seq<nat>): (r: seq<nat>)
    ensures |r| == |idx| && forall j :: 0 <= j < |idx| ==> r[j] == idx[j] + 1
    ensures forall i: nat :: i + 1 in r <==> i in idx
    ensures 0 !in r
  {
    var r := seq(|idx|, j requires 0 <= j < |idx| => idx[j] + 1);
    assert forall i: nat :: i in idx ==> i + 1 in r by {
      forall i: nat | i in idx ensures i + 1 in r {
        var j :| 0 <= j < |idx| && idx[j] == i;
        assert r[j] == i + 1;
      }
    }
    r
  }

  /** The places one further back. */
  ghost function Down(idx: seq<nat>): (r: seq<nat>)
    requires 0 !in idx
    ensures Up(r) == idx
  {
    var r := seq(|idx|, j requires 0 <= j < |idx| => if idx[j] > 0 then idx[j] - 1 else 0);
    assert forall j :: 0 <= j < |idx| ==> idx[j] in idx && idx[j] > 0;
    assert Up(r) == idx;
    r
  }

  lemma SparedUp<C(!new)>(a: Alarm<C>, i: nat, log: seq<Entry<C>>, idx: seq<nat>, killed: set<C>)
    requires |idx| == |log|
    ensures Spared(a, i + 1, log, Up(idx), killed) <==> Spared(a, i, log, idx, killed)
  {
    var r := Up(idx);
    assert forall j :: 0 <= j < |log| ==> (r[j] < i + 1 <==> idx[j] < i);
  }

  /** Behind a skipped alarm the log is one of the rest. */
  lemma SkipFires<C(!new)>(q: seq<Alarm<C>>, log: seq<Entry<C>>, idx: seq<nat>, killed: set<C>)
    requires q != [] && q[0].f in killed && |idx| == |log|
    ensures Fires(q, log, Up(idx), killed) <==> Fires(q[1..], log, idx, killed)
  {
    var r := q[1..];
    forall i: nat | i < |r| ensures Spared(q[i + 1], i + 1, log, Up(idx), killed) <==> Spared(r[i], i, log, idx, killed) {
      SparedUp(r[i], i, log, idx, killed);
    }
    SkipPlaces(q, log, idx, killed);
  }

  lemma SkipPlaces<C(!new)>(q: seq<Alarm<C>>, log: seq<Entry<C>>, idx: seq<nat>, killed: set<C>)
    requires q != [] && q[0].f in killed && |idx| == |log|
    requires forall i: nat :: i < |q[1..]| ==>
      (Spared(q[i + 1], i + 1, log, Up(idx), killed) <==> Spared(q[1..][i], i, log, idx, killed))
    ensures Fires(q, log, Up(idx), killed) <==> Fires(q[1..], log, idx, killed)
  {
    var r, up := q[1..], Up(idx);
    assert Increasing(up) <==> Increasing(idx) by { IncreasingUp(idx); }
    if Fires(r, log, idx, killed) {
      forall i | 0 <= i < |q| ensures i in up <==> Spared(q[i], i, log, up, killed) {
        if i > 0 { assert i - 1 in idx <==> Spared(r[i - 1], i - 1, log, idx, killed); }
      }
      assert Fires(q, log, up, killed);
    }
    if Fires(q, log, up, killed) {
      forall i | 0 <= i < |r| ensures i in idx <==> Spared(r[i], i, log, idx, killed) {
        assert i + 1 in up <==> Spared(q[i + 1], i + 1, log, up, killed);
      }
      forall j | 0 <= j < |idx| ensures idx[j] < |r| && r[idx[j]] == log[j].alarm { assert up[j] < |q|; }
    }
  }

  lemma IncreasingUp(idx: seq<nat>)
    ensures Increasing(Up(idx)) <==> Increasing(idx)
  {
    var r := Up(idx);
    if Increasing(r) {
      forall i, j | 0 <= i < j < |idx| ensures idx[i] < idx[j] { assert r[i] < r[j]; }
    }
  }

  lemma SparedNext<C(!new)>(a: Alarm<C>, i: nat, log: seq<Entry<C>>, idx: seq<nat>, killed: set<C>)
    requires log != [] && |idx| == |log| - 1
    ensures Spared(a, i + 1, log, [0] + Up(idx), killed) <==> Spared(a, i, log[1..], idx, killed + log[0].killed)
  {
    var r := [0] + Up(idx);
    if Spared(a, i + 1, log, r, killed) {
      assert r[0] < i + 1;
      forall j | 0 <= j < |log[1..]| && idx[j] < i ensures a.f !in log[1..][j].killed {
        assert r[j + 1] == idx[j] + 1 && log[1..][j] == log[j + 1];
      }
    }
    if Spared(a, i, log[1..], idx, killed + log[0].killed) {
      forall j | 0 <= j < |log| && r[j] < i + 1 ensures a.f !in log[j].killed {
        if j > 0 { assert r[j] == idx[j - 1] + 1 && log[j] == log[1..][j - 1]; }
      }
    }
  }

  lemma NextIn(idx: seq<nat>, i: nat)
    ensures (i + 1 in [0] + Up(idx) <==> i in idx) && 0 in [0] + Up(idx)
  {
    assert ([0] + Up(idx))[0] == 0;
    assert forall k :: k in [0] + Up(idx) <==> k == 0 || k in Up(idx);
  }

  lemma IncreasingNext(idx: seq<nat>)
    ensures Increasing([0] + Up(idx)) <==> Increasing(idx)
  {
    var r := [0] + Up(idx);
    if Increasing(r) {
      forall i, j | 0 <= i < j < |idx| ensures idx[i] < idx[j] { assert r[i + 1] < r[j + 1]; }
    }
  }

  /** Behind an alarm that fires, the rest of the log is one of the rest of the alarms. */
  lemma NextFires<C(!new)>(q: seq<Alarm<C>>, log: seq<Entry<C>>, idx: seq<nat>, killed: set<C>)
    requires q != [] && q[0].f !in killed && log != [] && log[0].alarm == q[0] && |idx| == |log| - 1
    ensures Fires(q[1..], log[1..], idx, killed + log[0].killed) ==> Fires(q, log, [0] + Up(idx), killed)
    ensures Fires(q, log, [0] + Up(idx), killed) ==> Fires(q[1..], log[1..], idx, killed + log[0].killed)
  {
    if Fires(q[1..], log[1..], idx, killed + log[0].killed) { NextFiresUp(q, log, idx, killed); }
    if Fires(q, log, [0] + Up(idx), killed) { NextFiresDown(q, log, idx, killed); }
  }

  lemma PlaceNext<C(!new)>(q: seq<Alarm<C>>, log: seq<Entry<C>>, idx: seq<nat>, j: nat)
    requires q != [] && log != [] && log[0].alarm == q[0] && |idx| == |log| - 1 && j < |log|
    requires j > 0 ==> idx[j - 1] < |q[1..]| && q[1..][idx[j - 1]] == log[1..][j - 1].alarm
    ensures ([0] + Up(idx))[j] < |q| && q[([0] + Up(idx))[j]] == log[j].alarm
  {
    if j > 0 { assert ([0] + Up(idx))[j] == idx[j - 1] + 1 && log[1..][j - 1] == log[j]; }
  }

  lemma ChosenNext<C(!new)>(q: seq<Alarm<C>>, log: seq<Entry<C>>, idx: seq<nat>, killed: set<C>, i: nat)
    requires q != [] && q[0].f !in killed && log != [] && |idx| == |log| - 1 && i < |q|
    requires i > 0 ==> (i - 1 in idx <==> Spared(q[1..][i - 1], i - 1, log[1..], idx, killed + log[0].killed))
    ensures i in [0] + Up(idx) <==> Spared(q[i], i, log, [0] + Up(idx), killed)
  {
    if i > 0 {
      NextIn(idx, i - 1);
      SparedNext(q[i], i - 1, log, idx, killed);
      assert q[1..][i - 1] == q[i];
    } else {
      NextIn(idx, 0);
    }
  }

  lemma NextFiresUp<C(!new)>(q: seq<Alarm<C>>, log: seq<Entry<C>>, idx: seq<nat>, killed: set<C>)
    requires q != [] && q[0].f !in killed && log != [] && log[0].alarm == q[0]
    requires Fires(q[1..], log[1..], idx, killed + log[0].killed)
    ensures Fires(q, log, [0] + Up(idx), killed)
  {
    var r := [0] + Up(idx);
    IncreasingNext(idx);
    forall j | 0 <= j < |r| ensures r[j] < |q| && q[r[j]] == log[j].alarm { PlaceNext(q, log, idx, j); }
    forall i | 0 <= i < |q| ensures i in r <==> Spared(q[i], i, log, r, killed) { ChosenNext(q, log, idx, killed, i); }
  }

  lemma NextFiresDown<C(!new)>(q: seq<Alarm<C>>, log: seq<Entry<C>>, idx: seq<nat>, killed: set<C>)
    requires q != [] && log != [] && |idx| == |log| - 1 && Fires(q, log, [0] + Up(idx), killed)
    ensures Fires(q[1..], log[1..], idx, killed + log[0].killed)
  {
    var r := [0] + Up(idx);
    IncreasingNext(idx);
    forall j | 0 <= j < |idx| ensures idx[j] < |q[1..]| && q[1..][idx[j]] == log[1..][j].alarm {
      assert r[j + 1] == idx[j] + 1 && r[j + 1] < |q| && q[r[j + 1]] == log[j + 1].alarm;
    }
    forall i | 0 <= i < |q[1..]| ensures i in idx <==> Spared(q[1..][i], i, log[1..], idx, killed + log[0].killed) {
      NextIn(idx, i);
      SparedNext(q[i + 1], i, log, idx, killed);
      assert i + 1 in r <==> Spared(q[i + 1], i + 1, log, r, killed);
    }
  }

  lemma {:induction false} PassFires<C(!new)>(q: seq<Alarm<C>>, log: seq<Entry<C>>, killed: set<C>) returns (idx: seq<nat>)
    requires Pass(q, log, killed)
    ensures Fires(q, log, idx, killed)
    decreases |q|
  {
    if q == [] {
      idx := [];
    } else if q[0].f in killed {
      var rest := PassFires(q[1..], log, killed);
      SkipFires(q, log, rest, killed);
      idx := Up(rest);
    } else {
      var rest := PassFires(q[1..], log[1..], killed + log[0].killed);
      NextFires(q, log, rest, killed);
      idx := [0] + Up(rest);
    }
  }

  /** The first place of all is the first to fire. */
  lemma ZeroFirst(idx: seq<nat>)
    requires Increasing(idx) && 0 in idx
    ensures idx[0] == 0 && 0 !in idx[1..]
  {
    assert forall i :: 0 < i < |idx| ==> idx[0] < idx[i];
  }

  lemma {:induction false} FiresPass<C(!new)>(q: seq<Alarm<C>>, log: seq<Entry<C>>, idx: seq<nat>, killed: set<C>)
    requires Fires(q, log, idx, killed)
    ensures Pass(q, log, killed)
    decreases |q|
  {
    if q != [] {
      assert 0 in idx <==> Spared(q[0], 0, log, idx, killed);
      if q[0].f in killed {
        SkipFires(q, log, Down(idx), killed);
        FiresPass(q[1..], log, Down(idx), killed);
      } else {
        ZeroFirst(idx);
        var rest := Down(idx[1..]);
        assert idx == [0] + Up(rest);
        assert q[idx[0]] == log[0].alarm;
        NextFires(q, log, rest, killed);
        FiresPass(q[1..], log[1..], rest, killed + log[0].killed);
      }
    }
  }

  /** The meaning of a batch: it fires, in queue order, exactly the due alarms that no callback
      fired before them in the batch has cancelled. */
  lemma BatchIsExact<C(!new)>(q: seq<Alarm<C>>, log: seq<Entry<C>>)
    ensures Batch(q, log, []) <==> exists idx :: Fires(q, log, idx, {})
  {
    SurvivorsNone(q);
    BatchIsPass(q, log, {});
    if Batch(q, log, []) {
      var idx := PassFires(q, log, {});
    }
    if idx :| Fires(q, log, idx, {}) { FiresPass(q, log, idx, {}); }
  }

  /** So alarms fire in time order, and first set first among equal times. */
  lemma FiresInOrder<C(!new)>(q: seq<Alarm<C>>, log: seq<Entry<C>>, i: nat, j: nat)
    requires Batch(q, log, []) && Ordered(q) && i < j < |log|
    ensures Before(log[i].alarm, log[j].alarm)
  {
    BatchIsExact(q, log);
    var idx :| Fires(q, log, idx, {});
    assert idx[i] < idx[j];
  }
}
