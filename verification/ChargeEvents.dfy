/** What keys, callbacks and the charger bring about in charge-only mode (charge_only_mode/main.c):
    which alarms come and go, when they are set for, and that the phone reboots only on a power key
    held down for a second. */
module ChargeEvents {
  import opened AlarmQueue
  import opened AlarmBatch
  import opened ChargeSpec
  import opened ChargeTheorems

  // ---- alarms in a queue ----

  lemma {:induction false} InsertedIn(q: Timers, a: Alarm<Callback>, x: Alarm<Callback>)
    ensures x in Inserted(q, a) <==> x == a || x in q
  {
    if q != [] {
      assert q == [q[0]] + q[1..];
      if !Later(q[0].time, a.time) { InsertedIn(q[1..], a, x); }
    }
  }

  lemma {:induction false} WithoutIn(q: Timers, f: Callback, x: Alarm<Callback>)
    ensures x in Without(q, f) <==> x in q && x.f != f
  {
    if q != [] {
      assert q == [q[0]] + q[1..];
      WithoutIn(q[1..], f, x);
    }
  }

  /** The time that many microseconds in. */
  function TimeOf(micros: nat): TimeVal { TimeVal(micros / 1000000, micros % 1000000) }

  lemma PlusIsTimeOf(t: TimeVal, ms: nat)
    ensures Plus(t, ms) == TimeOf(Micros(t) + 1000 * ms)
  {
    PlusIsMicros(t, ms);
  }

  /** The alarm set as number `serial` at reading n of the clock, for ms milliseconds later. */
  function New(w: World, n: nat, f: Callback, ms: nat, serial: nat): Alarm<Callback> {
    Alarm(TimeOf(Micros(w.clock(n)) + 1000 * ms), f, serial)
  }

  /** Setting an alarm adds that alarm and no other. */
  lemma SetAdds(w: World, s: View, f: Callback, ms: nat)
    ensures forall x :: x in Set(w, s, f, ms).q <==> x == New(w, s.ticks, f, ms, s.serials) || x in s.q
  {
    PlusIsTimeOf(w.clock(s.ticks), ms);
    forall x ensures x in Set(w, s, f, ms).q <==> x == New(w, s.ticks, f, ms, s.serials) || x in s.q {
      InsertedIn(s.q, New(w, s.ticks, f, ms, s.serials), x);
    }
  }

  /** Cancelling a callback takes its alarms and no others. */
  lemma CancelTakes(s: View, f: Callback)
    ensures forall x :: x in Cancel(s, f).q <==> x in s.q && x.f != f
  {
    forall x ensures x in Cancel(s, f).q <==> x in s.q && x.f != f { WithoutIn(s.q, f, x); }
  }

  /** No alarm of the screen is pending. */
  predicate ScreenIdle(s: View) { forall x :: x in s.q ==> x.f == PowerKey }

  lemma CancelScreenTakes(s: View)
    ensures forall x :: x in CancelScreen(s).q <==> x in s.q && x.f == PowerKey
  {
    CancelTakes(s, Bright2);
    CancelTakes(Cancel(s, Bright2), Bright1);
    CancelTakes(Cancel(Cancel(s, Bright2), Bright1), Animation);
  }

  // ---- the screen ----

  /** The display is lit from s on: stage one ends in five seconds, and the animation comes after ms
      milliseconds; a pending reboot stays. */
  ghost predicate Lit(w: World, s: View, t: View, ms: nat) {
    && !t.blank
    && forall x :: x in t.q <==>
         x == New(w, s.ticks, Bright1, 5000, s.serials) || x == New(w, s.ticks + 1, Animation, ms, s.serials + 1)
         || (x in s.q && x.f == PowerKey)
  }

  lemma StartLights(w: World, s: View, ms: nat)
    requires ScreenIdle(s)
    ensures Lit(w, s, StartScreen(w, s, ms), ms)
  {
    SetAdds(w, s.(blank := false), Bright1, 5000);
    SetAdds(w, Set(w, s.(blank := false), Bright1, 5000), Animation, ms);
  }

  /** It is dark: nothing of the screen is pending; a pending reboot of s stays. */
  ghost predicate Dark(s: View, t: View) { t.blank && forall x :: x in t.q <==> x in s.q && x.f == PowerKey }

  lemma GoesDark(s: View)
    requires ScreenIdle(s)
    ensures Dark(s, GoDark(s))
  {
    CancelTakes(Ran(s, Bright2), Animation);
  }

  lemma {:induction false} NothingCounted(q: Timers, f: Callback)
    ensures Count(q, f) == 0 <==> forall x :: x in q ==> x.f != f
  {
    if q != [] {
      assert q == [q[0]] + q[1..];
      NothingCounted(q[1..], f);
    }
  }

  lemma CancelAllButKeys(s: View)
    ensures forall x :: x in Cancel(Cancel(Cancel(s, Bright2), Animation), Bright1).q <==> x in s.q && x.f == PowerKey
  {
    CancelTakes(s, Bright2);
    CancelTakes(Cancel(s, Bright2), Animation);
    CancelTakes(Cancel(Cancel(s, Bright2), Animation), Bright1);
  }

  /** The power key coming up ends stage one. */
  lemma WakeupEndsStageOne(w: World, s: View)
    requires Count(s.q, Bright1) > 0
    ensures Dark(s, WakeupKey(w, s))
  {
    CancelAllButKeys(s);
    GoesDark(Cancel(Cancel(Cancel(s, Bright2), Animation), Bright1));
  }

  /** In any other stage it wakes the screen. */
  lemma WakeupLights(w: World, s: View)
    requires Count(s.q, Bright1) == 0
    ensures Lit(w, s, WakeupKey(w, s), 500)
  {
    CancelAllButKeys(s);
    StartLights(w, Cancel(Cancel(Cancel(s, Bright2), Animation), Bright1), 500);
  }

  /** And a pending reboot is off in either case. */
  lemma PowerKeyUpDoes(w: World, s: View)
    ensures var t := OnEvent(w, s, PowerKeyUp);
            && Count(t.q, PowerKey) == 0
            && (if Count(s.q, Bright1) > 0 then Dark(s.(q := []), t) else Lit(w, s.(q := []), t, 500))
  {
    var c, t := Cancel(s, PowerKey), OnEvent(w, s, PowerKeyUp);
    CancelTakes(s, PowerKey);
    CancelCounts(s, PowerKey, Bright1);
    if Count(s.q, Bright1) > 0 {
      WakeupEndsStageOne(w, c);
      DarkBare(s, c, t);
    } else {
      WakeupLights(w, c);
      LitBare(w, s, c, t, 500);
    }
    NothingCounted(t.q, PowerKey);
  }

  /** Without a pending reboot there is nothing to stay. */
  lemma DarkBare(s: View, c: View, t: View)
    requires Dark(c, t) && c == s.(q := c.q) && forall x :: x in c.q ==> x.f != PowerKey
    ensures Dark(s.(q := []), t) && forall x :: x in t.q ==> x.f != PowerKey
  {
  }

  lemma LitBare(w: World, s: View, c: View, t: View, ms: nat)
    requires Lit(w, c, t, ms) && c == s.(q := c.q) && forall x :: x in c.q ==> x.f != PowerKey
    ensures Lit(w, s.(q := []), t, ms) && forall x :: x in t.q ==> x.f != PowerKey
  {
  }

  /** Going down, it sets the reboot for a second later, if the battery is strong enough. */
  lemma PowerKeyDownDoes(w: World, s: View)
    ensures var t := OnEvent(w, s, PowerKeyDown);
            && t.blank == s.blank
            && forall x :: x in t.q <==> (s.powerup && x == New(w, s.ticks, PowerKey, 1000, s.serials)) || x in s.q
  {
    SetAdds(w, s, PowerKey, 1000);
  }

  /** Any other key wakes the screen, whatever stage it is in. */
  lemma OtherKeyDoes(w: World, s: View)
    ensures Lit(w, s, OnEvent(w, s, OtherKeyDown), 500)
  {
    CancelScreenTakes(s);
    StartLights(w, CancelScreen(s), 500);
  }

  /** Charge-only mode starts lit, with the animation after a second and a half. */
  lemma StartDoes(w: World)
    ensures Lit(w, View([], 0, 0, 0, 0, false, false, false, true, []), Start(w), 1500) && !Start(w).quit
  {
    StartLights(w, View([], 0, 0, 0, 0, false, false, false, true, []), 1500);
  }

  // ---- callbacks and the charger ----

  /** What a look at the charger does: the voltage decides whether the power key counts, and a charger
      that has gone for the first time shuts the screen down. */
  lemma PowerEventDoes(w: World, s: View)
    ensures var t := PowerEvent(w, s);
            && t.powerup == w.strong(s.polls) && t.quit == s.quit
            && (if s.shutdown || w.plugged(s.polls) then t.q == s.q && t.blank == s.blank && t.shutdown == s.shutdown
                else t.shutdown && Dark(s, t))
  {
    var u := s.(powerup := w.strong(s.polls), polls := s.polls + 1, shutdown := true);
    CancelTakes(u, Bright2);
    CancelTakes(Cancel(u, Bright2), Bright1);
    CancelTakes(Ran(Cancel(Cancel(u, Bright2), Bright1), Bright2), Animation);
  }

  /** Stage one goes on to stage two, which lasts ten seconds; stage two ends in the dark. */
  lemma StagesDo(w: World, s: View)
    ensures var t := Fired(w, s, Bright1);
            t.blank == s.blank && forall x :: x in t.q <==> x == New(w, s.ticks, Bright2, 10000, s.serials) || x in s.q
    ensures var t := Fired(w, s, Bright2); t.blank && forall x :: x in t.q <==> x in s.q && x.f != Animation
  {
    SetAdds(w, Ran(s, Bright1), Bright2, 10000);
    CancelTakes(Ran(s, Bright2), Animation);
  }

  /** The animation comes again every half second, until the charger has gone. */
  lemma AnimationDoes(w: World, s: View)
    ensures var t := Fired(w, s, Animation);
            if s.shutdown || w.plugged(s.polls)
            then t.blank == s.blank && forall x :: x in t.q <==> x == New(w, s.ticks, Animation, 500, s.serials) || x in s.q
            else t.shutdown && Dark(s, t)
  {
    SetAdds(w, Ran(s, Animation), Animation, 500);
    PowerEventDoes(w, Set(w, Ran(s, Animation), Animation, 500));
  }

  /** The reboot takes the screen's timers with it, and ends the program if it succeeds. */
  lemma RebootDoes(w: World, s: View)
    ensures var t := Fired(w, s, PowerKey);
            && t.quit == (s.quit || w.reboots(s.tries)) && t.blank == s.blank
            && forall x :: x in t.q <==> x in s.q && x.f == PowerKey
  {
    CancelScreenTakes(Ran(s, PowerKey));
  }

  // ---- a reboot needs a key held down ----

  /** The pending reboots. */
  function Keys(s: View): set<Alarm<Callback>> { set x | x in s.q && x.f == PowerKey }

  lemma SetKeeps(w: World, s: View, f: Callback, ms: nat)
    requires f != PowerKey
    ensures Keys(Set(w, s, f, ms)) == Keys(s)
  {
    SetAdds(w, s, f, ms);
  }

  lemma CancelKeeps(s: View, f: Callback)
    requires f != PowerKey
    ensures Keys(Cancel(s, f)) == Keys(s)
  {
    CancelTakes(s, f);
  }

  lemma CancelScreenKeeps(s: View)
    ensures Keys(CancelScreen(s)) == Keys(s)
  {
    CancelScreenTakes(s);
  }

  lemma PowerEventKeeps(w: World, s: View)
    ensures Keys(PowerEvent(w, s)) == Keys(s)
  {
    PowerEventDoes(w, s);
  }

  /** No callback sets a reboot or takes one back. */
  lemma FiredKeeps(w: World, s: View, f: Callback)
    ensures Keys(Fired(w, s, f)) == Keys(s)
  {
    match f
    case Animation =>
      SetKeeps(w, Ran(s, Animation), Animation, 500);
      PowerEventKeeps(w, Set(w, Ran(s, Animation), Animation, 500));
    case Bright1 => SetKeeps(w, Ran(s, Bright1), Bright2, 10000);
    case Bright2 => CancelKeeps(Ran(s, Bright2), Animation);
    case PowerKey => CancelScreenKeeps(Ran(s, PowerKey));
  }

  /** alarm_process sets none either. */
  lemma {:induction false} DrainedKeeps(w: World, s: View, now: TimeVal)
    requires Sane(w, s, now)
    ensures Keys(Drained(w, s, now)) <= Keys(s)
    decreases |Due(s.q, now)|
  {
    if Due(s.q, now) == [] {
      DrainEnd(w, s, now);
    } else {
      DrainStep(w, s, now);
      var t := Fired(w, Taken(s), s.q[0].f);
      FiredKeeps(w, Taken(s), s.q[0].f);
      assert Keys(Taken(s)) <= Keys(s);
      DrainedKeeps(w, t, now);
    }
  }

  lemma ProcessKeepsKeys(w: World, s: View)
    requires Sound(w, s)
    ensures Keys(Process(w, s)) <= Keys(s)
  {
    SampledSane(w, s);
    DrainedKeeps(w, Sampled(s), w.clock(s.ticks));
  }

  /** Of the events, the power key going down adds one reboot, and coming up leaves none. */
  lemma EventKeys(w: World, s: View, r: Event)
    ensures Keys(OnEvent(w, s, r)) ==
            if r == PowerKeyUp then {}
            else if r == PowerKeyDown && s.powerup then Keys(s) + {New(w, s.ticks, PowerKey, 1000, s.serials)}
            else Keys(s)
  {
    match r
    case PowerKeyDown => PowerKeyDownDoes(w, s);
    case PowerKeyUp =>
      PowerKeyUpDoes(w, s);
      NothingCounted(OnEvent(w, s, PowerKeyUp).q, PowerKey);
    case OtherKeyDown => OtherKeyDoes(w, s);
    case Battery => PowerEventKeeps(w, s);
    case Quit =>
    case Nothing =>
  }

  /** One turn, which quit leaves out. */
  ghost predicate Goes(w: World, s: View, r: Event, t: View) {
    Sound(w, s) && t == if s.quit then s else Turn(w, s, r)
  }

  /** The states before each turn and after the last. */
  ghost predicate History(w: World, events: seq<Event>, states: seq<View>) {
    && |states| == |events| + 1 && states[0] == Start(w)
    && forall k: nat {:trigger events[k]} :: k < |events| ==> Goes(w, states[k], events[k], states[k + 1])
  }

  /** Every run has one: that of After. */
  lemma HistoryOf(w: World, events: seq<Event>) returns (states: seq<View>)
    requires Monotone(w.clock)
    ensures History(w, events, states) && forall k: nat :: k <= |events| ==> states[k] == After(w, events[..k])
  {
    states := seq(|events| + 1, k requires 0 <= k <= |events| && Monotone(w.clock) => After(w, events[..k]));
    assert events[..0] == [];
    forall k: nat {:trigger events[k]} | k < |events| ensures Goes(w, states[k], events[k], states[k + 1]) {
      assert events[..k + 1][..k] == events[..k];
    }
  }

  /** Turn k handles event e. */
  predicate Handles(w: World, events: seq<Event>, states: seq<View>, k: nat, e: Event)
    requires |states| == |events| + 1
  {
    k < |events| && events[k] == e && !states[k].quit && !Near(w, states[k])
  }

  /** In turn i the power key went down and set alarm a. */
  predicate SetAt(w: World, events: seq<Event>, states: seq<View>, i: nat, a: Alarm<Callback>)
    requires |states| == |events| + 1
  {
    && Handles(w, events, states, i, PowerKeyDown)
    && states[i].powerup && a == New(w, Asked(states[i]).ticks, PowerKey, 1000, states[i].serials)
  }

  /** Alarm a was set by the power key in a turn before n, and the key has not come up since. */
  ghost predicate Held(w: World, events: seq<Event>, states: seq<View>, n: nat, a: Alarm<Callback>)
    requires |states| == |events| + 1
  {
    exists i: nat :: i < n && SetAt(w, events, states, i, a) && NotUp(w, events, states, i, n)
  }

  ghost predicate NotUp(w: World, events: seq<Event>, states: seq<View>, i: nat, n: nat)
    requires |states| == |events| + 1
  {
    forall k: nat :: i < k < n ==> !Handles(w, events, states, k, PowerKeyUp)
  }

  lemma HeldOn(w: World, events: seq<Event>, states: seq<View>, n: nat, a: Alarm<Callback>)
    requires |states| == |events| + 1 && Held(w, events, states, n, a) && !Handles(w, events, states, n, PowerKeyUp)
    ensures Held(w, events, states, n + 1, a)
  {
    var i: nat :| i < n && SetAt(w, events, states, i, a) && NotUp(w, events, states, i, n);
    assert NotUp(w, events, states, i, n + 1);
  }

  lemma NoneAtStart(w: World)
    ensures Keys(Start(w)) == {}
  {
    StartDoes(w);
  }

  /** A reboot pending after a turn was so before, and the key did not come up, or the key has just
      gone down. */
  lemma Kept(w: World, s: View, r: Event, t: View, a: Alarm<Callback>)
    requires Goes(w, s, r, t) && a in Keys(t)
    ensures a in Keys(s) ==> s.quit || Near(w, s) || r != PowerKeyUp
    ensures a !in Keys(s) ==>
              !s.quit && !Near(w, s) && r == PowerKeyDown && s.powerup && a == New(w, Asked(s).ticks, PowerKey, 1000, s.serials)
  {
    TurnKeys(w, s, r);
  }

  lemma HeldFrom(w: World, events: seq<Event>, states: seq<View>, n: nat, a: Alarm<Callback>)
    requires |states| == |events| + 1 && SetAt(w, events, states, n, a)
    ensures Held(w, events, states, n + 1, a)
  {
    assert NotUp(w, events, states, n, n + 1);
  }

  /** Every pending reboot is of a key that went down and has not come up. */
  lemma {:induction false} RebootsAreHeld(w: World, events: seq<Event>, states: seq<View>, n: nat, a: Alarm<Callback>)
    requires History(w, events, states) && n <= |events| && a in Keys(states[n])
    ensures Held(w, events, states, n, a)
  {
    if n == 0 {
      NoneAtStart(w);
    } else {
      var m := n - 1;
      assert Goes(w, states[m], events[m], states[n]);
      Kept(w, states[m], events[m], states[n], a);
      if a in Keys(states[m]) {
        RebootsAreHeld(w, events, states, m, a);
        HeldOn(w, events, states, m, a);
      } else {
        HeldFrom(w, events, states, m, a);
      }
    }
  }

  /** What a turn does to the pending reboots. */
  lemma TurnKeys(w: World, s: View, r: Event)
    requires Sound(w, s)
    ensures Near(w, s) ==> Keys(Turn(w, s, r)) <= Keys(s)
    ensures !Near(w, s) ==>
              Keys(Turn(w, s, r)) ==
              if r == PowerKeyUp then {}
              else if r == PowerKeyDown && s.powerup then Keys(s) + {New(w, Asked(s).ticks, PowerKey, 1000, s.serials)}
              else Keys(s)
  {
    if Near(w, s) {
      ProcessKeepsKeys(w, Sampled(s));
      assert Keys(Sampled(s)) == Keys(s);
    } else {
      EventKeys(w, Asked(s), r);
      assert Keys(Asked(s)) == Keys(s);
    }
  }

  lemma {:induction false} FiredWasPending(q: Timers, log: seq<Entry<Callback>>, j: nat)
    requires Batch(q, log, []) && j < |log|
    ensures log[j].alarm in q
    decreases |log|
  {
    if j > 0 {
      FiredWasPending(Survivors(q[1..], log[0].killed), log[1..], j - 1);
      SurvivorsIn(q[1..], log[0].killed, log[j].alarm);
      assert log[1..][j - 1] == log[j];
    }
  }

  lemma {:induction false} SurvivorsIn(q: Timers, killed: set<Callback>, x: Alarm<Callback>)
    requires x in Survivors(q, killed)
    ensures x in q
  {
    if x != q[0] { SurvivorsIn(q[1..], killed, x); }
  }

  lemma {:induction false} DueIn(q: Timers, now: TimeVal, x: Alarm<Callback>)
    requires x in Due(q, now)
    ensures x in q && !Later(x.time, now)
  {
    if x != q[0] { DueIn(q[1..], now, x); }
  }

  /** The reboot fires only for a power key that went down at least a second before and has not come
      up since. */
  lemma RebootNeedsHold(w: World, events: seq<Event>, states: seq<View>, n: nat, j: nat)
    requires History(w, events, states) && n <= |events| && Sound(w, Sampled(states[n]))
    requires j < |ProcessLog(w, Sampled(states[n]))| && ProcessLog(w, Sampled(states[n]))[j].alarm.f == PowerKey
    ensures var a := ProcessLog(w, Sampled(states[n]))[j].alarm;
            Held(w, events, states, n, a) && Micros(a.time) <= Micros(w.clock(Sampled(states[n]).ticks))
  {
    var s := Sampled(states[n]);
    var now, a := w.clock(s.ticks), ProcessLog(w, s)[j].alarm;
    ProcessIsBatch(w, s);
    FiredWasPending(Due(s.q, now), ProcessLog(w, s), j);
    DueIn(s.q, now, a);
    assert a in Keys(states[n]);
    RebootsAreHeld(w, events, states, n, a);
    HeldTime(w, events, states, n, a);
    LaterIsMicros(a.time, now);
  }

  lemma HeldTime(w: World, events: seq<Event>, states: seq<View>, n: nat, a: Alarm<Callback>)
    requires |states| == |events| + 1 && Held(w, events, states, n, a)
    ensures Normal(a.time)
  {
  }
}
