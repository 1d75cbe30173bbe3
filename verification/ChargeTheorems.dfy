/** What holds of the timers of charge-only mode (charge_only_mode/main.c) between any two events
    or callbacks, and what alarm_process fires. */
module ChargeTheorems {
  import opened AlarmQueue
  import opened AlarmBatch
  import opened ChargeSpec

  /** As many animation alarms as brightness alarms, at most one, and none on a blank display, when
      `extra` alarms of f are counted as well. */
  predicate BalancedWith(s: View, f: Callback, extra: nat) {
    var anim := Count(s.q, Animation) + if f == Animation then extra else 0;
    var bright := Count(s.q, Bright1) + Count(s.q, Bright2) + if f == Bright1 || f == Bright2 then extra else 0;
    anim == bright <= 1 && (s.blank ==> anim == 0)
  }

  predicate Balanced(s: View) { BalancedWith(s, PowerKey, 0) }

  // ---- counts ----

  lemma SetCounts(w: World, s: View, f: Callback, ms: nat, g: Callback)
    ensures Count(Set(w, s, f, ms).q, g) == Count(s.q, g) + if f == g then 1 else 0
  {
    CountInserted(s.q, Alarm(Plus(w.clock(s.ticks), ms), f, s.serials), g);
  }

  lemma CancelCounts(s: View, f: Callback, g: Callback)
    ensures Count(Cancel(s, f).q, g) == if f == g then 0 else Count(s.q, g)
  {
    CountWithout(s.q, f, g);
  }

  lemma CancelScreenCounts(s: View, g: Callback)
    ensures Count(CancelScreen(s).q, g) == if g == PowerKey then Count(s.q, g) else 0
  {
    CancelCounts(s, Bright2, g);
    CancelCounts(Cancel(s, Bright2), Bright1, g);
    CancelCounts(Cancel(Cancel(s, Bright2), Bright1), Animation, g);
  }

  lemma StartCounts(w: World, s: View, timeout: nat, g: Callback)
    ensures Count(StartScreen(w, s, timeout).q, g) == Count(s.q, g) + if g == Bright1 || g == Animation then 1 else 0
  {
    SetCounts(w, s.(blank := false), Bright1, 5000, g);
    SetCounts(w, Set(w, s.(blank := false), Bright1, 5000), Animation, timeout, g);
  }

  // ---- balance ----

  lemma StartBalances(w: World, s: View, timeout: nat)
    requires forall g :: g != PowerKey ==> Count(s.q, g) == 0
    ensures Balanced(StartScreen(w, s, timeout))
  {
    StartCounts(w, s, timeout, Animation);
    StartCounts(w, s, timeout, Bright1);
    StartCounts(w, s, timeout, Bright2);
  }

  lemma ScreenOffBalances(s: View)
    ensures Balanced(CancelScreen(s)) && forall b, c :: Balanced(CancelScreen(s).(blank := b, calls := c))
  {
    CancelScreenCounts(s, Animation);
    CancelScreenCounts(s, Bright1);
    CancelScreenCounts(s, Bright2);
  }

  lemma PowerEventBalances(w: World, s: View)
    requires Balanced(s)
    ensures Balanced(PowerEvent(w, s))
  {
    if !s.shutdown && !w.plugged(s.polls) {
      ScreenOffBalances(s.(powerup := w.strong(s.polls), polls := s.polls + 1, shutdown := true));
    }
  }

  /** Every callback restores the balance that taking out its alarm has broken. */
  lemma FiredBalances(w: World, s: View, f: Callback)
    requires BalancedWith(s, f, 1)
    ensures Balanced(Fired(w, s, f))
  {
    match f
    case Animation =>
      var t := Ran(s, Animation);
      SetCounts(w, t, Animation, ANIMATION_TIMEOUT, Animation);
      SetCounts(w, t, Animation, ANIMATION_TIMEOUT, Bright1);
      SetCounts(w, t, Animation, ANIMATION_TIMEOUT, Bright2);
      PowerEventBalances(w, Set(w, t, Animation, ANIMATION_TIMEOUT));
    case Bright1 =>
      var t := Ran(s, Bright1);
      SetCounts(w, t, Bright2, 10000, Animation);
      SetCounts(w, t, Bright2, 10000, Bright1);
      SetCounts(w, t, Bright2, 10000, Bright2);
    case Bright2 =>
      CancelCounts(s, Animation, Animation);
      CancelCounts(s, Animation, Bright1);
      CancelCounts(s, Animation, Bright2);
    case PowerKey => ScreenOffBalances(s);
  }

  lemma TakenBalances(s: View)
    requires s.q != [] && Balanced(s)
    ensures BalancedWith(Taken(s), s.q[0].f, 1)
  {
  }

  /** Between any two callbacks of a batch the balance holds. */
  lemma {:induction false} TrailBalances(w: World, s: View, now: TimeVal)
    requires Sane(w, s, now) && Balanced(s)
    ensures forall k :: 0 <= k < |Trail(w, s, now)| ==> Balanced(Trail(w, s, now)[k])
    decreases |Due(s.q, now)|
  {
    if Due(s.q, now) != [] {
      FiringShrinks(w, s, now);
      TakenBalances(s);
      FiredBalances(w, Taken(s), s.q[0].f);
      TrailBalances(w, Fired(w, Taken(s), s.q[0].f), now);
    }
  }

  /** Every event keeps the balance. */
  lemma EventBalances(w: World, s: View, r: Event)
    requires Balanced(s)
    ensures Balanced(OnEvent(w, s, r))
  {
    match r
    case PowerKeyDown =>
      SetCounts(w, s, PowerKey, 1000, Animation);
      SetCounts(w, s, PowerKey, 1000, Bright1);
      SetCounts(w, s, PowerKey, 1000, Bright2);
    case PowerKeyUp => WakeupBalances(w, Cancel(s, PowerKey));
    case OtherKeyDown =>
      forall g | g != PowerKey ensures Count(CancelScreen(s).q, g) == 0 { CancelScreenCounts(s, g); }
      StartBalances(w, CancelScreen(s), ANIMATION_TIMEOUT);
    case Battery => PowerEventBalances(w, s);
    case Quit =>
    case Nothing =>
  }

  lemma WakeupBalances(w: World, s: View)
    ensures Balanced(WakeupKey(w, s))
  {
    var t := Cancel(Cancel(Cancel(s, Bright2), Animation), Bright1);
    forall g | g != PowerKey ensures Count(t.q, g) == 0 {
      CancelCounts(s, Bright2, g);
      CancelCounts(Cancel(s, Bright2), Animation, g);
      CancelCounts(Cancel(Cancel(s, Bright2), Animation), Bright1, g);
    }
    StartBalances(w, t, ANIMATION_TIMEOUT);
    CancelCounts(t, Animation, Animation);
    CancelCounts(t, Animation, Bright1);
    CancelCounts(t, Animation, Bright2);
  }

  // ---- batches ----

  /** alarm_process fires a batch of exactly the alarms due at the time it read (see
      AlarmBatch.BatchIsExact), and leaves none due. */
  lemma {:induction false} LogIsBatch(w: World, s: View, now: TimeVal)
    requires Sane(w, s, now)
    ensures Batch(Due(s.q, now), Log(w, s, now), []) && |Log(w, s, now)| == |Trail(w, s, now)| - 1
    ensures Sane(w, Drained(w, s, now), now) && NoneDue(Drained(w, s, now).q, now)
    decreases |Due(s.q, now)|
  {
    if Due(s.q, now) == [] {
      NothingDue(s.q, now);
    } else {
      var t := Fired(w, Taken(s), s.q[0].f);
      FiringShrinks(w, s, now);
      TakenSane(w, s, now);
      FiredSane(w, Taken(s), s.q[0].f, now);
      LogIsBatch(w, t, now);
      var log := Log(w, s, now);
      assert log[1..] == Log(w, t, now);
    }
  }

  lemma PowerEventCalls(w: World, s: View)
    ensures PowerEvent(w, s).calls == s.calls + if s.shutdown || w.plugged(s.polls) then [] else [Bright2]
  {
  }

  lemma AnimationCalls(w: World, s: View)
    ensures Fired(w, s, Animation).calls == s.calls + ([Animation] + if Killed(w, s, Animation) != {} then [Bright2] else [])
  {
    var dark := if s.shutdown || w.plugged(s.polls) then [] else [Bright2];
    PowerEventCalls(w, Set(w, Ran(s, Animation), Animation, ANIMATION_TIMEOUT));
    assert s.calls + [Animation] + dark == s.calls + ([Animation] + dark);
  }

  lemma FiredCalls(w: World, s: View, a: Alarm<Callback>)
    ensures Fired(w, s, a.f).calls == s.calls + Runs(Entry(a, Killed(w, s, a.f)))
  {
    if a.f == Animation { AnimationCalls(w, s); }
  }

  lemma {:induction false} AllRunsNext(calls: seq<Callback>, e: Entry<Callback>, log: seq<Entry<Callback>>)
    ensures calls + Runs(e) + AllRuns(log) == calls + AllRuns([e] + log)
  {
    assert ([e] + log)[1..] == log;
    assert calls + Runs(e) + AllRuns(log) == calls + (Runs(e) + AllRuns(log));
  }

  lemma {:induction false} LogNext(w: World, s: View, now: TimeVal)
    requires Sane(w, s, now) && Due(s.q, now) != []
    ensures s.q != [] && Sane(w, Fired(w, Taken(s), s.q[0].f), now)
    ensures Log(w, s, now) == [Entry(s.q[0], Killed(w, Taken(s), s.q[0].f))] + Log(w, Fired(w, Taken(s), s.q[0].f), now)
  {
    FiringShrinks(w, s, now);
  }

  /** alarm_process runs the callbacks of that batch, in its order, and no others. */
  lemma {:induction false} CallsAreBatch(w: World, s: View, now: TimeVal)
    requires Sane(w, s, now)
    ensures Drained(w, s, now).calls == s.calls + AllRuns(Log(w, s, now))
    decreases |Due(s.q, now)|
  {
    if Due(s.q, now) == [] {
      DrainEnd(w, s, now);
    } else {
      DrainStep(w, s, now);
      LogNext(w, s, now);
      var t, e := Fired(w, Taken(s), s.q[0].f), Entry(s.q[0], Killed(w, Taken(s), s.q[0].f));
      assert t.calls == s.calls + Runs(e) by { FiredCalls(w, Taken(s), s.q[0]); }
      CallsAreBatch(w, t, now);
      AllRunsNext(s.calls, e, Log(w, t, now));
    }
  }

  /** alarm_process: what it fires is a batch of the alarms due at the time it read, and what runs
      is what it fires. */
  lemma ProcessIsBatch(w: World, s: View)
    requires Sound(w, s)
    ensures Batch(Due(s.q, w.clock(s.ticks)), ProcessLog(w, s), [])
    ensures Process(w, s).calls == s.calls + AllRuns(ProcessLog(w, s))
    ensures NoneDue(Process(w, s).q, w.clock(s.ticks))
  {
    SampledSane(w, s);
    LogIsBatch(w, Sampled(s), w.clock(s.ticks));
    CallsAreBatch(w, Sampled(s), w.clock(s.ticks));
  }

  // ---- runs ----

  lemma SetSound(w: World, s: View, f: Callback, ms: nat)
    requires Sound(w, s)
    ensures Sound(w, Set(w, s, f, ms))
  {
    InsertedOrdered(s.q, Alarm(Plus(w.clock(s.ticks), ms), f, s.serials));
  }

  lemma CancelSound(w: World, s: View, f: Callback)
    requires Sound(w, s)
    ensures Sound(w, Cancel(s, f))
  {
    WithoutOrdered(s.q, f, s.serials);
  }

  lemma CancelScreenSound(w: World, s: View)
    requires Sound(w, s)
    ensures Sound(w, CancelScreen(s))
  {
    CancelSound(w, s, Bright2);
    CancelSound(w, Cancel(s, Bright2), Bright1);
    CancelSound(w, Cancel(Cancel(s, Bright2), Bright1), Animation);
  }

  lemma StartScreenSound(w: World, s: View, timeout: nat)
    requires Sound(w, s)
    ensures Sound(w, StartScreen(w, s, timeout))
  {
    SetSound(w, s.(blank := false), Bright1, 5000);
    SetSound(w, Set(w, s.(blank := false), Bright1, 5000), Animation, timeout);
  }

  lemma WakeupSound(w: World, s: View)
    requires Sound(w, s)
    ensures Sound(w, WakeupKey(w, s))
  {
    CancelSound(w, s, Bright2);
    CancelSound(w, Cancel(s, Bright2), Animation);
    var t := Cancel(Cancel(Cancel(s, Bright2), Animation), Bright1);
    CancelSound(w, Cancel(Cancel(s, Bright2), Animation), Bright1);
    CancelSound(w, t, Animation);
    StartScreenSound(w, t, ANIMATION_TIMEOUT);
  }

  lemma EventSound(w: World, s: View, r: Event)
    requires Sound(w, s)
    ensures Sound(w, OnEvent(w, s, r))
  {
    match r
    case PowerKeyDown => SetSound(w, s, PowerKey, 1000);
    case PowerKeyUp =>
      CancelSound(w, s, PowerKey);
      WakeupSound(w, Cancel(s, PowerKey));
    case OtherKeyDown =>
      CancelScreenSound(w, s);
      StartScreenSound(w, CancelScreen(s), ANIMATION_TIMEOUT);
    case Battery => CancelScreenSound(w, s.(powerup := w.strong(s.polls), polls := s.polls + 1, shutdown := true));
    case Quit =>
    case Nothing =>
  }

  lemma ProcessKeeps(w: World, s: View)
    requires Sound(w, s) && Balanced(s)
    ensures Sound(w, Process(w, s)) && Balanced(Process(w, s))
  {
    SampledSane(w, s);
    var now := w.clock(s.ticks);
    LogIsBatch(w, Sampled(s), now);
    TrailBalances(w, Sampled(s), now);
  }

  lemma TurnKeeps(w: World, s: View, r: Event)
    requires Sound(w, s) && Balanced(s)
    ensures Sound(w, Turn(w, s, r)) && Balanced(Turn(w, s, r))
  {
    if Near(w, s) {
      ProcessKeeps(w, Sampled(s));
    } else {
      EventSound(w, Asked(s), r);
      EventBalances(w, Asked(s), r);
    }
  }

  lemma StartIsBalanced(w: World)
    requires Monotone(w.clock)
    ensures Sound(w, Start(w)) && Balanced(Start(w))
  {
    var s := View([], 0, 0, 0, 0, false, false, false, true, []);
    StartScreenSound(w, s, 1500);
    StartBalances(w, s, 1500);
  }

  /** The state after some turns of the main loop, which quit stops. */
  ghost function After(w: World, events: seq<Event>): (s: View)
    requires Monotone(w.clock)
    ensures Sound(w, s) && Balanced(s)
  {
    StartIsBalanced(w);
    if events == [] then Start(w)
    else
      var s := After(w, events[..|events| - 1]);
      TurnKeeps(w, s, events[|events| - 1]);
      if s.quit then s else Turn(w, s, events[|events| - 1])
  }

  /** Nothing happens after quit. */
  lemma {:induction false} AfterQuit(w: World, events: seq<Event>, k: nat)
    requires Monotone(w.clock) && k <= |events| && (k == |events| || After(w, events[..k]).quit)
    ensures After(w, events) == After(w, events[..k])
    decreases |events|
  {
    if k == |events| {
      assert events[..k] == events;
    } else {
      var before := events[..|events| - 1];
      assert before[..k] == events[..k];
      AfterQuit(w, before, k);
    }
  }
}
