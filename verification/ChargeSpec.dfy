/** What charge-only mode (charge_only_mode/main.c and alarm.c) does to its timers and flags, event
    by event and callback by callback. */
module ChargeSpec {
  import opened AlarmQueue
  import opened AlarmBatch

  datatype Callback = Animation | Bright1 | Bright2 | PowerKey

  datatype Event = PowerKeyDown | PowerKeyUp | OtherKeyDown | Battery | Quit | Nothing

  const ANIMATION_TIMEOUT: nat := 500

  type Timers = seq<Alarm<Callback>>

  /** Successive readings of the clock, of the charger, of the battery voltage against
      POWERUP_VOLTAGE, and of whether a reboot succeeds. */
  datatype World = World(clock: nat -> TimeVal, plugged: nat -> bool, strong: nat -> bool, reboots: nat -> bool)

  /** The timers, the flags, how many readings have been taken, and which callbacks have run. */
  datatype View = View(
    q: Timers,
    serials: nat,      // alarms set so far
    ticks: nat,        // readings of the clock
    polls: nat,        // readings of the charger and the voltage
    tries: nat,        // reboots tried
    quit: bool,
    shutdown: bool,
    powerup: bool,
    blank: bool,
    calls: seq<Callback>)

  /** The clock does not go backwards. */
  ghost predicate Monotone(clock: nat -> TimeVal) {
    && (forall i :: Normal(clock(i)))
    && (forall i, j :: i <= j ==> !Later(clock(i), clock(j)))
  }

  // ---- timers ----

  function Set(w: World, s: View, f: Callback, ms: nat): View {
    s.(q := Inserted(s.q, Alarm(Plus(w.clock(s.ticks), ms), f, s.serials)), serials := s.serials + 1, ticks := s.ticks + 1)
  }

  function Cancel(s: View, f: Callback): View { s.(q := Without(s.q, f)) }

  function CancelScreen(s: View): View { Cancel(Cancel(Cancel(s, Bright2), Bright1), Animation) }

  // ---- callbacks ----

  function Ran(s: View, f: Callback): View { s.(calls := s.calls + [f]) }

  /** screen_brightness_animation_alarm2, whoever calls it. */
  function GoDark(s: View): View { Cancel(Ran(s, Bright2), Animation).(blank := true) }

  /** screen_brightness_animation_start. */
  function StartScreen(w: World, s: View, timeout: nat): View {
    Set(w, Set(w, s.(blank := false), Bright1, 5000), Animation, timeout)
  }

  /** power_event: the first report without charger shuts down. */
  function PowerEvent(w: World, s: View): View {
    var t := s.(powerup := w.strong(s.polls), polls := s.polls + 1);
    if s.shutdown || w.plugged(s.polls) then t
    else GoDark(Cancel(Cancel(t.(shutdown := true), Bright2), Bright1))
  }

  /** What a callback does once its own alarm is out of the queue. */
  function Fired(w: World, s: View, f: Callback): View {
    match f
    case Animation => PowerEvent(w, Set(w, Ran(s, Animation), Animation, ANIMATION_TIMEOUT))
    case Bright1 => Set(w, Ran(s, Bright1), Bright2, 10000)
    case Bright2 => GoDark(s)
    case PowerKey => CancelScreen(Ran(s, PowerKey)).(quit := s.quit || w.reboots(s.tries), tries := s.tries + 1)
  }

  /** What a callback cancels. */
  function Killed(w: World, s: View, f: Callback): set<Callback> {
    match f
    case Animation => if s.shutdown || w.plugged(s.polls) then {} else {Bright2, Bright1, Animation}
    case Bright1 => {}
    case Bright2 => {Animation}
    case PowerKey => {Bright2, Bright1, Animation}
  }

  /** Queue in order, clock sound, and `now` a time it has shown. */
  ghost predicate Sane(w: World, s: View, now: TimeVal) {
    Monotone(w.clock) && Ordered(s.q) && SetBefore(s.q, s.serials) && Normal(now) && !Later(now, w.clock(s.ticks))
  }

  /** An alarm set after `now` was read is later than now. */
  lemma SetIsLater(now: TimeVal, t: TimeVal, ms: nat)
    requires Normal(now) && Normal(t) && !Later(now, t) && ms > 0
    ensures Later(Plus(t, ms), now)
  {
    PlusIsMicros(t, ms);
    LaterIsMicros(now, t);
    LaterIsMicros(Plus(t, ms), now);
  }

  lemma SetSane(w: World, s: View, f: Callback, ms: nat, now: TimeVal)
    requires Sane(w, s, now) && ms > 0
    ensures Sane(w, Set(w, s, f, ms), now) && Due(Set(w, s, f, ms).q, now) == Due(s.q, now)
  {
    var a := Alarm(Plus(w.clock(s.ticks), ms), f, s.serials);
    SetIsLater(now, w.clock(s.ticks), ms);
    DueInserted(s.q, a, now);
    InsertedOrdered(s.q, a);
    assert !Later(w.clock(s.ticks), w.clock(s.ticks + 1));
  }

  lemma CancelSane(w: World, s: View, f: Callback, now: TimeVal)
    requires Sane(w, s, now)
    ensures Sane(w, Cancel(s, f), now) && Due(Cancel(s, f).q, now) == Without(Due(s.q, now), f)
  {
    DueWithout(s.q, f, now);
    WithoutOrdered(s.q, f, s.serials);
  }

  lemma CancelAll(w: World, s: View, now: TimeVal)
    requires Sane(w, s, now)
    ensures Sane(w, CancelScreen(s), now) && Due(CancelScreen(s).q, now) == Survivors(Due(s.q, now), {Bright2, Bright1, Animation})
  {
    var d := Due(s.q, now);
    CancelSane(w, s, Bright2, now);
    CancelSane(w, Cancel(s, Bright2), Bright1, now);
    CancelSane(w, Cancel(Cancel(s, Bright2), Bright1), Animation, now);
    SurvivorsNone(d);
    SurvivorsKill(d, {}, Bright2);
    SurvivorsKill(d, {} + {Bright2}, Bright1);
    SurvivorsKill(d, {} + {Bright2} + {Bright1}, Animation);
    assert {} + {Bright2} + {Bright1} + {Animation} == {Bright2, Bright1, Animation};
  }

  /** A callback leaves of the due alarms those it has not cancelled, and adds none. */
  lemma FiredSane(w: World, s: View, f: Callback, now: TimeVal)
    requires Sane(w, s, now)
    ensures Sane(w, Fired(w, s, f), now) && Due(Fired(w, s, f).q, now) == Survivors(Due(s.q, now), Killed(w, s, f))
  {
    SurvivorsNone(Due(s.q, now));
    match f
    case Animation =>
      var t := Set(w, Ran(s, Animation), Animation, ANIMATION_TIMEOUT);
      SetSane(w, Ran(s, Animation), Animation, ANIMATION_TIMEOUT, now);
      var u := t.(powerup := w.strong(t.polls), polls := t.polls + 1);
      assert Sane(w, u, now);
      CancelAll(w, u.(shutdown := true), now);
    case Bright1 => SetSane(w, Ran(s, Bright1), Bright2, 10000, now);
    case Bright2 =>
      CancelSane(w, Ran(s, Bright2), Animation, now);
      SurvivorsKill(Due(s.q, now), {}, Animation);
      assert {} + {Animation} == {Animation};
    case PowerKey => CancelAll(w, Ran(s, PowerKey), now);
  }

  // ---- alarm_process ----

  /** Take out the first alarm. */
  function Taken(s: View): View
    requires s.q != []
  {
    s.(q := s.q[1..])
  }

  lemma TakenSane(w: World, s: View, now: TimeVal)
    requires Sane(w, s, now) && Due(s.q, now) != []
    ensures s.q != [] && Sane(w, Taken(s), now) && Due(Taken(s).q, now) == Due(s.q, now)[1..] && Due(s.q, now)[0] == s.q[0]
  {
  }

  lemma FiringShrinks(w: World, s: View, now: TimeVal)
    requires Sane(w, s, now) && Due(s.q, now) != []
    ensures s.q != [] && Sane(w, Fired(w, Taken(s), s.q[0].f), now)
    ensures |Due(Fired(w, Taken(s), s.q[0].f).q, now)| < |Due(s.q, now)|
  {
    TakenSane(w, s, now);
    FiredSane(w, Taken(s), s.q[0].f, now);
    SurvivorsFewer(Due(Taken(s).q, now), Killed(w, Taken(s), s.q[0].f));
  }

  /** The states after each callback of a batch at time now, from s on. */
  ghost function Trail(w: World, s: View, now: TimeVal): (r: seq<View>)
    requires Sane(w, s, now)
    ensures r != [] && r[0] == s
    decreases |Due(s.q, now)|
  {
    if Due(s.q, now) == [] then [s]
    else
      FiringShrinks(w, s, now);
      [s] + Trail(w, Fired(w, Taken(s), s.q[0].f), now)
  }

  /** What fires in that batch, and what each callback cancels. */
  ghost function Log(w: World, s: View, now: TimeVal): seq<Entry<Callback>>
    requires Sane(w, s, now)
    decreases |Due(s.q, now)|
  {
    if Due(s.q, now) == [] then []
    else
      FiringShrinks(w, s, now);
      [Entry(s.q[0], Killed(w, Taken(s), s.q[0].f))] + Log(w, Fired(w, Taken(s), s.q[0].f), now)
  }

  /** The callbacks that run when an entry fires: its own, and the blanking that the animation
      calls when it finds the charger gone. */
  function Runs(e: Entry<Callback>): seq<Callback> {
    [e.alarm.f] + if e.alarm.f == Animation && e.killed != {} then [Bright2] else []
  }

  function AllRuns(log: seq<Entry<Callback>>): seq<Callback> {
    if log == [] then [] else Runs(log[0]) + AllRuns(log[1..])
  }

  /** The state the batch ends in. */
  ghost function Drained(w: World, s: View, now: TimeVal): View
    requires Sane(w, s, now)
  {
    var t := Trail(w, s, now);
    t[|t| - 1]
  }

  lemma DrainStep(w: World, s: View, now: TimeVal)
    requires Sane(w, s, now) && Due(s.q, now) != []
    ensures s.q != [] && Sane(w, Fired(w, Taken(s), s.q[0].f), now)
    ensures |Due(Fired(w, Taken(s), s.q[0].f).q, now)| < |Due(s.q, now)|
    ensures Drained(w, s, now) == Drained(w, Fired(w, Taken(s), s.q[0].f), now)
  {
    FiringShrinks(w, s, now);
  }

  lemma DrainEnd(w: World, s: View, now: TimeVal)
    requires Sane(w, s, now) && Due(s.q, now) == []
    ensures Drained(w, s, now) == s
  {
  }

  /** The reading of the clock at the head of alarm_process. */
  function Sampled(s: View): View { s.(ticks := s.ticks + 1) }

  ghost predicate Sound(w: World, s: View) { Monotone(w.clock) && Ordered(s.q) && SetBefore(s.q, s.serials) }

  lemma SampledSane(w: World, s: View)
    requires Sound(w, s)
    ensures Sane(w, Sampled(s), w.clock(s.ticks))
  {
    assert !Later(w.clock(s.ticks), w.clock(s.ticks + 1));
  }

  /** What alarm_process fires. */
  ghost function ProcessLog(w: World, s: View): seq<Entry<Callback>>
    requires Sound(w, s)
  {
    SampledSane(w, s);
    Log(w, Sampled(s), w.clock(s.ticks))
  }

  ghost function Process(w: World, s: View): View
    requires Sound(w, s)
  {
    SampledSane(w, s);
    Drained(w, Sampled(s), w.clock(s.ticks))
  }

  // ---- the main loop ----

  /** update_screen_on_wakeup_key: stage one goes dark, anything else starts over. */
  function WakeupKey(w: World, s: View): View {
    var t := Cancel(Cancel(Cancel(s, Bright2), Animation), Bright1);
    if Count(s.q, Bright1) > 0 then GoDark(t) else StartScreen(w, t, ANIMATION_TIMEOUT)
  }

  function OnEvent(w: World, s: View, r: Event): View {
    match r
    case PowerKeyDown => if s.powerup then Set(w, s, PowerKey, 1000) else s
    case PowerKeyUp => WakeupKey(w, Cancel(s, PowerKey))
    case OtherKeyDown => StartScreen(w, CancelScreen(s), ANIMATION_TIMEOUT)
    case Battery => PowerEvent(w, s)
    case Quit => s.(quit := true)
    case Nothing => s
  }

  /** The first alarm is less than a millisecond away at the reading alarm_get_time_until_next
      takes. */
  predicate Near(w: World, s: View) { s.q != [] && MillisUntil(s.q[0].time, w.clock(s.ticks)) < 1 }

  /** alarm_get_time_until_next reads the clock only if there is an alarm. */
  function Asked(s: View): View { if s.q == [] then s else Sampled(s) }

  ghost function Turn(w: World, s: View, r: Event): View
    requires Sound(w, s)
  {
    if Near(w, s) then Process(w, Sampled(s)) else OnEvent(w, Asked(s), r)
  }

  /** main up to its loop. */
  function Start(w: World): View {
    StartScreen(w, View([], 0, 0, 0, 0, false, false, false, true, []), 1500)
  }
}
