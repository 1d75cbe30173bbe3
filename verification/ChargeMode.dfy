/** Charge-only mode as it runs (charge_only_mode/main.c): timers whose callbacks set and cancel
    timers drive the animation, the backlight and the power key. */
module ChargeMode {
  import opened AlarmQueue
  import opened AlarmBatch
  import opened AlarmList
  import opened ChargeSpec
  import T = ChargeTheorems

  class Device {
    const queue: Queue<Callback>
    const world: World
    var ticks: nat
    var polls: nat
    var tries: nat
    var quit: bool
    var shutdown: bool
    var powerup: bool
    var blank: bool
    ghost var calls: seq<Callback>   // the callbacks that have run

    ghost predicate Valid()
      reads this, queue, queue.repr
    {
      queue.Valid() && Monotone(world.clock)
    }

    ghost function Now(): View
      reads this, queue
    {
      View(queue.Contents(), queue.serials, ticks, polls, tries, quit, shutdown, powerup, blank, calls)
    }

    /** gettimeofday. */
    method ReadClock() returns (t: TimeVal)
      modifies this`ticks
      ensures t == world.clock(old(ticks)) && Now() == Sampled(old(Now()))
    {
      t := world.clock(ticks);
      ticks := ticks + 1;
    }

    /** alarm_set_relative. */
    method SetAlarm(f: Callback, ms: nat)
      requires Valid()
      modifies this`ticks, queue, queue.repr
      ensures Valid() && Now() == Set(world, old(Now()), f, ms) && fresh(queue.repr - old(queue.repr))
    {
      var t := ReadClock();
      queue.SetRelative(f, ms, t);
    }

    /** alarm_cancel. */
    method CancelAlarm(f: Callback) returns (cancelled: nat)
      requires Valid()
      modifies queue, queue.repr
      ensures Valid() && Now() == Cancel(old(Now()), f) && queue.repr == old(queue.repr)
      ensures cancelled == Count(old(Now()).q, f)
    {
      cancelled := queue.Cancel(f);
    }

    /** screen_brightness_animation_alarm2. */
    method Bright2Alarm()
      requires Valid()
      modifies this`blank, this`calls, queue, queue.repr
      ensures Valid() && Now() == GoDark(old(Now())) && queue.repr == old(queue.repr)
    {
      calls := calls + [Bright2];
      var n := CancelAlarm(Animation);
      blank := true;      // a shutdown powers off before this
    }

    /** screen_brightness_animation_alarm1. */
    method Bright1Alarm()
      requires Valid()
      modifies this`ticks, this`calls, queue, queue.repr
      ensures Valid() && Now() == Fired(world, old(Now()), Bright1) && fresh(queue.repr - old(queue.repr))
    {
      calls := calls + [Bright1];
      SetAlarm(Bright2, 10000);
    }

    /** screen_brightness_animation_start. */
    method StartAnimation(timeout: nat)
      requires Valid()
      modifies this`ticks, this`blank, queue, queue.repr
      ensures Valid() && Now() == StartScreen(world, old(Now()), timeout) && fresh(queue.repr - old(queue.repr))
    {
      blank := false;
      SetAlarm(Bright1, 5000);
      SetAlarm(Animation, timeout);
    }

    /** power_event. */
    method Power()
      requires Valid()
      modifies this`blank, this`shutdown, this`powerup, this`polls, this`calls, queue, queue.repr
      ensures Valid() && Now() == PowerEvent(world, old(Now())) && queue.repr == old(queue.repr)
    {
      powerup := world.strong(polls);
      var charger := world.plugged(polls);
      polls := polls + 1;
      if !shutdown && !charger {
        shutdown := true;
        var n := CancelAlarm(Bright2);
        n := CancelAlarm(Bright1);
        Bright2Alarm();
      }
    }

    /** animation_alarm. */
    method AnimationAlarm()
      requires Valid()
      modifies this`ticks, this`blank, this`shutdown, this`powerup, this`polls, this`calls, queue, queue.repr
      ensures Valid() && Now() == Fired(world, old(Now()), Animation) && fresh(queue.repr - old(queue.repr))
    {
      calls := calls + [Animation];
      SetAlarm(Animation, ANIMATION_TIMEOUT);
      Power();
    }

    /** The three cancellations common to a reboot and a wake-up. */
    method CancelTimers()
      requires Valid()
      modifies queue, queue.repr
      ensures Valid() && Now() == CancelScreen(old(Now())) && queue.repr == old(queue.repr)
    {
      var n := CancelAlarm(Bright2);
      n := CancelAlarm(Bright1);
      n := CancelAlarm(Animation);
    }

    /** power_key_alarm. */
    method PowerKeyAlarm()
      requires Valid()
      modifies this`quit, this`tries, this`calls, queue, queue.repr
      ensures Valid() && Now() == Fired(world, old(Now()), PowerKey) && queue.repr == old(queue.repr)
    {
      calls := calls + [PowerKey];
      CancelTimers();
      if world.reboots(tries) { quit := true; }
      tries := tries + 1;
    }

    /** The call through a->f in alarm_process. */
    method Fire(f: Callback)
      requires Valid()
      modifies this, queue, queue.repr
      ensures Valid() && Now() == Fired(world, old(Now()), f) && fresh(queue.repr - old(queue.repr))
    {
      match f
      case Animation => AnimationAlarm();
      case Bright1 => Bright1Alarm();
      case Bright2 => Bright2Alarm();
      case PowerKey => PowerKeyAlarm();
    }

    /** The loop body of alarm_process: no callback has freed the node when it is freed. */
    method FireFirst()
      requires Valid() && queue.nodes != []
      modifies this, queue, queue.repr
      ensures Valid() && Now() == Fired(world, Taken(old(Now())), old(Now()).q[0].f)
      ensures old(queue.nodes[0]).frees == 1 && fresh(queue.repr - old(queue.repr))
    {
      var a := queue.TakeFirst();
      Fire(a.f);
      a.Free();
    }

    /** Is the first alarm due? */
    method FirstIsDue(now: TimeVal) returns (due: bool)
      requires Valid()
      ensures due <==> Due(queue.Contents(), now) != []
      ensures due ==> queue.nodes != []
    {
      due := queue.alarms != null && !Later(queue.alarms.time, now);
    }

    /** The loop of alarm_process. */
    method FireAll(now: TimeVal)
      requires Valid() && Sane(world, Now(), now)
      modifies this, queue, queue.repr
      ensures Valid() && Now() == Drained(world, old(Now()), now) && fresh(queue.repr - old(queue.repr))
    {
      ghost var start := Now();
      var due := FirstIsDue(now);
      while due
        invariant Valid() && Sane(world, Now(), now) && Drained(world, Now(), now) == Drained(world, start, now)
        invariant due <==> Due(Now().q, now) != []
        invariant due ==> queue.nodes != []
        invariant fresh(queue.repr - old(queue.repr))
        decreases |Due(Now().q, now)|
      {
        DrainStep(world, Now(), now);
        FireFirst();
        due := FirstIsDue(now);
      }
      DrainEnd(world, Now(), now);
    }

    /** alarm_process: a batch of the alarms due when it reads the clock, and no other callback, has
        run when it returns. */
    method AlarmProcess()
      requires Valid() && Sound(world, Now())
      modifies this, queue, queue.repr
      ensures Valid() && Now() == Process(world, old(Now())) && fresh(queue.repr - old(queue.repr))
      ensures Batch(Due(old(Now()).q, world.clock(old(ticks))), ProcessLog(world, old(Now())), [])
      ensures calls == old(calls) + AllRuns(ProcessLog(world, old(Now())))
    {
      T.ProcessIsBatch(world, Now());
      SampledSane(world, Now());
      var now := ReadClock();
      FireAll(now);
    }

    /** alarm_get_time_until_next. */
    method TimeUntilNext() returns (delta: int)
      requires Valid()
      modifies this`ticks
      ensures Now() == Asked(old(Now())) && (delta < 1 <==> Near(world, old(Now())))
      ensures delta == if Now().q == [] then 0x7fffffff else MillisUntil(Now().q[0].time, world.clock(old(ticks)))
    {
      if queue.alarms == null { return 0x7fffffff; }
      var now := ReadClock();
      return MillisUntil(queue.alarms.time, now);
    }

    /** update_screen_on_wakeup_key. */
    method WakeScreen()
      requires Valid()
      modifies this`ticks, this`blank, this`calls, queue, queue.repr
      ensures Valid() && Now() == WakeupKey(world, old(Now())) && fresh(queue.repr - old(queue.repr))
    {
      ghost var s := Now();
      T.CancelCounts(s, Bright2, Bright1);
      T.CancelCounts(Cancel(s, Bright2), Animation, Bright1);
      var n := CancelAlarm(Bright2);
      n := CancelAlarm(Animation);
      n := CancelAlarm(Bright1);
      if n > 0 {
        Bright2Alarm();
      } else {
        StartAnimation(ANIMATION_TIMEOUT);
      }
    }

    /** update_screen_on_wakeup_key2. */
    method WakeScreen2()
      requires Valid()
      modifies this`ticks, this`blank, queue, queue.repr
      ensures Valid() && Now() == OnEvent(world, old(Now()), OtherKeyDown) && fresh(queue.repr - old(queue.repr))
    {
      CancelTimers();
      StartAnimation(ANIMATION_TIMEOUT);
    }

    /** The switch of main's loop. */
    method Handle(r: Event)
      requires Valid()
      modifies this, queue, queue.repr
      ensures Valid() && Now() == OnEvent(world, old(Now()), r) && fresh(queue.repr - old(queue.repr))
    {
      match r
      case PowerKeyDown => if powerup { SetAlarm(PowerKey, 1000); }
      case PowerKeyUp =>
        var n := CancelAlarm(PowerKey);
        WakeScreen();
      case OtherKeyDown => WakeScreen2();
      case Battery => Power();
      case Quit => quit := true;
      case Nothing =>
    }

    /** One turn of main's loop; r is what ev_get returns if it is called. */
    method LoopTurn(r: Event)
      requires Valid() && Sound(world, Now())
      modifies this, queue, queue.repr
      ensures Valid() && Now() == Turn(world, old(Now()), r) && fresh(queue.repr - old(queue.repr))
    {
      var delay := TimeUntilNext();
      if delay < 1 {
        AlarmProcess();
      } else {
        Handle(r);
      }
    }

    /** main up to its loop. */
    constructor (world: World)
      requires Monotone(world.clock)
      ensures Valid() && this.world == world && Now() == Start(world) && fresh(queue) && fresh(queue.repr)
    {
      this.world := world;
      ticks, polls, tries, quit, shutdown, powerup, blank := 0, 0, 0, false, false, false, true;
      calls := [];
      queue := new Queue();
      new;
      StartAnimation(1500);
    }
  }

  /** Charge-only mode from its start until it quits or the events end: its state is the one the
      events lead to, and in it and before it, between any two events or callbacks, the timers are
      balanced. */
  method Run(world: World, events: seq<Event>) returns (d: Device)
    requires Monotone(world.clock)
    ensures d.Now() == T.After(world, events) && T.Balanced(d.Now()) && d.Valid()
  {
    d := new Device(world);
    var k := 0;
    while k < |events| && !d.quit
      invariant k <= |events| && d.Valid() && d.world == world && d.Now() == T.After(world, events[..k])
      invariant fresh(d) && fresh(d.queue) && fresh(d.queue.repr)
    {
      assert events[..k + 1][..k] == events[..k];
      d.LoopTurn(events[k]);
      k := k + 1;
    }
    T.AfterQuit(world, events, k);
  }
}
