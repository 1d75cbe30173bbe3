/** What holds at every head of the USB daemon's main loop (usbd/usb_app.c), over every run. */
module UsbTheorems {
  import opened Options
  import opened UsbModes
  import opened UsbSpec

  // ---- sessions ----

  /** The mode before change i. */
  function ModeBefore(changes: seq<Change>, i: nat): Mode
    requires i <= |changes|
  {
    if i == 0 then MIN else changes[i - 1].mode
  }

  /** The trace is complete sessions in MIN and then in the modes of the changes, in their order,
      the last of them still open and with n enable_done calls; the kernel flags are its. */
  ghost predicate Visits(s: View, past: seq<Session>, n: nat) {
    && s.trace == AllComplete(past) + Opened(Session(s.mode, n))
    && s.flags == ModeFlags(s.mode, n)
    && |past| == |s.changes| && s.mode == ModeBefore(s.changes, |s.changes|)
    && forall i :: 0 <= i < |past| ==> past[i].mode == ModeBefore(s.changes, i)
  }

  ghost predicate InSessions(s: View) { exists past, n: nat :: Visits(s, past, n) }

  /** No change to a mode other than MIN happened without a cable. */
  predicate ChangedOnline(changes: seq<Change>) {
    forall i :: 0 <= i < |changes| ==> changes[i].mode == MIN || changes[i].online
  }

  lemma SwitchVisits(s: View, m: Mode, past: seq<Session>, n: nat)
    requires Visits(s, past, n)
    ensures Visits(Switch(s, m), past + [Session(s.mode, n)], 0)
  {
    var open := Session(s.mode, n);
    AddSession(past, open);
    NewSession(m);
    Concat(AllComplete(past), Opened(open), Seen(PreDisable, s.mode), Seen(DisableDone, s.mode));
    var now := past + [open];
    var t := Switch(s, m);
    forall i | 0 <= i < |now| ensures now[i].mode == ModeBefore(t.changes, i) {
      if i < |past| { assert now[i] == past[i] && (i > 0 ==> t.changes[i - 1] == s.changes[i - 1]); }
    }
  }

  lemma SwitchKeeps(s: View, m: Mode)
    requires InSessions(s) && ChangedOnline(s.changes) && (m == MIN || s.online)
    ensures InSessions(Switch(s, m)) && ChangedOnline(Switch(s, m).changes)
  {
    var past, n: nat :| Visits(s, past, n);
    SwitchVisits(s, m, past, n);
  }

  lemma EnableKeeps(s: View, t: View)
    requires InSessions(s) && t.mode == s.mode && t.changes == s.changes
    requires t.trace == Enabled(s).trace && t.flags == Enabled(s).flags
    ensures InSessions(t)
  {
    var past, n: nat :| Visits(s, past, n);
    EnableAgain(s.mode, n);
    assert Visits(t, past, n + 1);
  }

  // ---- the state log ----

  /** IN_PROGRESS entered since the last DETACHED. */
  function Entered(states: seq<State>): nat {
    if states == [] then 0
    else match states[|states| - 1]
      case DETACHED => 0
      case IN_PROGRESS => Entered(states[..|states| - 1]) + 1
      case _ => Entered(states[..|states| - 1])
  }

  /** Between two entries of IN_PROGRESS there is a DETACHED. */
  predicate OnceBetweenDetaches(states: seq<State>) {
    forall i, j :: 0 <= i < j < |states| && states[i] == IN_PROGRESS && states[j] == IN_PROGRESS ==>
      exists k :: i < k < j && states[k] == DETACHED
  }

  lemma {:induction false} NoneEntered(states: seq<State>, i: nat)
    requires Entered(states) == 0 && i < |states| && states[i] == IN_PROGRESS
    ensures exists k :: i < k < |states| && states[k] == DETACHED
  {
    var last := |states| - 1;
    if states[last] != DETACHED {
      NoneEntered(states[..last], i);
      var k :| i < k < last && states[..last][k] == DETACHED;
      assert states[k] == DETACHED;
    }
  }

  lemma {:induction false} SomeEntered(states: seq<State>) returns (i: nat)
    requires Entered(states) > 0
    ensures i < |states| && states[i] == IN_PROGRESS && forall k :: i < k < |states| ==> states[k] != DETACHED
  {
    var last := |states| - 1;
    if states[last] == IN_PROGRESS {
      i := last;
    } else {
      i := SomeEntered(states[..last]);
      forall k | i < k < |states| ensures states[k] != DETACHED {
        if k < last { assert states[..last][k] == states[k]; }
      }
    }
  }

  lemma {:induction false} EnteredNext(states: seq<State>, st: State)
    ensures Entered(states + [st]) ==
            (if st == DETACHED then 0 else if st == IN_PROGRESS then Entered(states) + 1 else Entered(states))
  {
    assert (states + [st])[..|states|] == states;
  }

  /** A log stays as it should exactly when IN_PROGRESS is entered for the first time since the last
      detach, if it is. */
  lemma {:induction false} EnterKeepsOnce(states: seq<State>, st: State)
    ensures OnceBetweenDetaches(states + [st]) <==>
              OnceBetweenDetaches(states) && (st == IN_PROGRESS ==> Entered(states) == 0)
  {
    if st == IN_PROGRESS && Entered(states) > 0 {
      TwiceEntered(states);
    } else if OnceBetweenDetaches(states) {
      OnceStays(states, st);
    } else if OnceBetweenDetaches(states + [st]) {
      OnceBefore(states, st);
    }
  }

  lemma {:induction false} TwiceEntered(states: seq<State>)
    requires Entered(states) > 0
    ensures !OnceBetweenDetaches(states + [IN_PROGRESS])
  {
    var i := SomeEntered(states);
    var now := states + [IN_PROGRESS];
    assert now[i] == IN_PROGRESS && now[|states|] == IN_PROGRESS;
    assert forall k :: i < k < |states| ==> now[k] != DETACHED;
  }

  lemma {:induction false} OnceStays(states: seq<State>, st: State)
    requires OnceBetweenDetaches(states) && (st == IN_PROGRESS ==> Entered(states) == 0)
    ensures OnceBetweenDetaches(states + [st])
  {
    var now := states + [st];
    forall i, j | 0 <= i < j < |now| && now[i] == IN_PROGRESS && now[j] == IN_PROGRESS
      ensures exists k :: i < k < j && now[k] == DETACHED
    {
      if j < |states| {
        var k :| i < k < j && states[k] == DETACHED;
        assert now[k] == DETACHED;
      } else {
        NoneEntered(states, i);
        var k :| i < k < |states| && states[k] == DETACHED;
        assert now[k] == DETACHED;
      }
    }
  }

  lemma {:induction false} OnceBefore(states: seq<State>, st: State)
    requires OnceBetweenDetaches(states + [st])
    ensures OnceBetweenDetaches(states)
  {
    var now := states + [st];
    forall i, j | 0 <= i < j < |states| && states[i] == IN_PROGRESS && states[j] == IN_PROGRESS
      ensures exists k :: i < k < j && states[k] == DETACHED
    {
      assert now[i] == IN_PROGRESS && now[j] == IN_PROGRESS;
      var k :| i < k < j && now[k] == DETACHED;
      assert states[k] == DETACHED;
    }
  }

  /** How often n descriptor requests bring the counter to 1. */
  function Entries(n: nat): nat { (n + WRAP - 1) / WRAP }

  lemma EntriesNext(n: nat)
    ensures Entries(n + 1) == Entries(n) + if n % WRAP == 0 then 1 else 0
    ensures (n % WRAP + 1) % WRAP == (n + 1) % WRAP && ((n % WRAP + 1) % WRAP == 1 <==> n % WRAP == 0)
    ensures Entries(n) == 0 <==> n == 0
    ensures n % WRAP == 0 && n != 0 ==> n >= WRAP
  {
    var q, r := n / WRAP, n % WRAP;
    assert n == WRAP * q + r;
    if r > 0 { assert n + WRAP - 1 == WRAP * (q + 1) + (r - 1); }
  }

  /** IN_PROGRESS is entered once for every 2^32 requests begun since the last detach, and so more
      than once between two detaches exactly when there were more than 2^32 of them. */
  predicate LogOk(states: seq<State>, asked: nat, most: nat) {
    asked <= most && Entered(states) == Entries(asked) && (OnceBetweenDetaches(states) <==> most <= 0x1_0000_0000)
  }

  lemma {:induction false} LogRequest(states: seq<State>, asked: nat, most: nat)
    requires LogOk(states, asked, most)
    ensures LogOk(if asked % WRAP == 0 then states + [IN_PROGRESS] else states, asked + 1, if most < asked + 1 then asked + 1 else most)
  {
    EntriesNext(asked);
    EnterKeepsOnce(states, IN_PROGRESS);
    EnteredNext(states, IN_PROGRESS);
  }

  lemma {:induction false} LogState(states: seq<State>, asked: nat, most: nat, st: State)
    requires LogOk(states, asked, most) && st != IN_PROGRESS
    ensures LogOk(states + [st], if st == DETACHED then 0 else asked, most)
  {
    EnterKeepsOnce(states, st);
    EnteredNext(states, st);
  }

  ghost predicate StateLogged(s: View) {
    && s.states != [] && s.state == s.states[|s.states| - 1]
    && s.desCount == s.asked % WRAP && LogOk(s.states, s.asked, s.most)
  }

  // ---- the invariant ----

  predicate Attached(st: State) { st == ATTACHED || st == IN_PROGRESS || st == ENUMERATED }

  predicate Linked(s: View) { (s.online <==> s.cable != CABLE_UNKNOWN) && (s.online <==> Attached(s.state)) }

  predicate FactoryOk(s: View) { s.cable == CABLE_FACTORY ==> s.mode == NETWORK || s.mode == NETWORK_ADB }

  ghost predicate Core(s: View) { InSessions(s) && ChangedOnline(s.changes) && StateLogged(s) && Linked(s) }

  ghost predicate Inv(s: View) { Core(s) && FactoryOk(s) }

  /** Nothing that the invariant speaks of differs. */
  predicate Alike(s: View, t: View) { t == s.(tethering := t.tethering, appFd := t.appFd) }

  lemma AlikeKeeps(s: View, t: View)
    requires Core(s) && Alike(s, t)
    ensures Core(t)
  {
    var past, n: nat :| Visits(s, past, n);
    assert Visits(t, past, n);
  }

  lemma SwitchKeepsCore(s: View, m: Mode)
    requires Core(s) && (m == MIN || s.online)
    ensures Core(Switch(s, m))
  {
    SwitchKeeps(s, m);
  }

  lemma ToKeepsCore(s: View, target: Option<Mode>)
    requires Core(s) && (target.Some? ==> target.value == MIN || s.online)
    ensures Core(To(s, target))
  {
    if target.Some? { SwitchKeepsCore(s, target.value); }
  }

  // ---- cable ----

  lemma PluggedKeeps(s: View, cable: Cable)
    requires Core(s)
    ensures Core(Plugged(s, cable))
  {
    var st := if cable == CABLE_UNKNOWN then DETACHED else ATTACHED;
    LogState(s.states, s.asked, s.most, st);
    var past, n: nat :| Visits(s, past, n);
    assert Visits(Plugged(s, cable), past, n);
  }

  lemma UEventKeeps(boot: Boot, s: View, e: UEvent)
    requires Inv(s)
    ensures Inv(OnUEvent(boot, s, e))
  {
    if e.Switched? {
      PluggedKeeps(s, e.cable);
      HandledKeeps(boot, Plugged(s, e.cable), e.factoryAdb, e.adb, e.notifyOk);
    }
  }

  lemma HandledKeeps(boot: Boot, s: View, factoryAdb: bool, adb: Adb, notifyOk: bool)
    requires Core(s)
    ensures Inv(Handled(boot, s, factoryAdb, adb, notifyOk))
  {
    if s.cable == CABLE_FACTORY {
      SwitchKeepsCore(s, FactoryMode(factoryAdb));
    } else if boot == NORMAL {
      AlikeKeeps(s, Told(s, s.state != DEFAULT, notifyOk));
    } else if s.cable == CABLE_USB {
      AlikeKeeps(s, s.(tethering := false));
      ToKeepsCore(s.(tethering := false), DefaultMode(boot, adb));
    }
  }

  // ---- driver ----

  lemma AltFieldsKeep(boot: Boot, s: View, adbField: Field, tetherField: Field, adb: Adb)
    requires Core(s) && s.online
    ensures Core(OnAltFields(boot, s, adbField, tetherField, adb))
  {
    var t := if tetherField == Other then s.tethering else tetherField == Enable;
    AlikeKeeps(s, s.(tethering := t));
    ToKeepsCore(s.(tethering := t), AltTarget(boot, adbField, tetherField, adb, t));
  }

  lemma SwitchRequestKeeps(boot: Boot, s: View, tag: string, adb: Adb, ok: bool)
    requires Core(s) && s.online
    ensures var t := OnSwitchRequest(boot, s, tag, adb, ok); Core(t) && t.cable == s.cable && t.online
  {
    var found := SwitchOf(tag) < USB_MODE_MAX;
    var target := SwitchTarget(boot, s.mode, tag, found, adb, s.tethering);
    if target.Some? {
      SwitchKeepsCore(s, target.value);
    } else {
      AlikeKeeps(s, Told(s, adb >= 0 && found, ok));
    }
  }

  /** t is s after a descriptor request, in terms of how many there were. */
  predicate AskedOnce(s: View, t: View) {
    && t.asked == s.asked + 1 && t.desCount == t.asked % WRAP && t.most == (if s.most < t.asked then t.asked else s.most)
    && t.states == (if s.asked % WRAP == 0 then s.states + [IN_PROGRESS] else s.states)
    && t.state == (if s.asked % WRAP == 0 then IN_PROGRESS else s.state)
  }

  lemma GetDescRequests(s: View, ok: bool)
    requires s.desCount == s.asked % WRAP
    ensures AskedOnce(s, OnEnum(s, GetDesc, ok))
  {
    EntriesNext(s.asked);
  }

  lemma RequestLogs(s: View, t: View)
    requires StateLogged(s) && AskedOnce(s, t)
    ensures StateLogged(t)
  {
    LogRequest(s.states, s.asked, s.most);
  }

  lemma GetDescKeeps(s: View, ok: bool)
    requires Core(s) && s.online
    ensures Core(OnEnum(s, GetDesc, ok))
  {
    var t := OnEnum(s, GetDesc, ok);
    assert StateLogged(t) by {
      GetDescRequests(s, ok);
      RequestLogs(s, t);
    }
    assert InSessions(t) by { SameVisits(s, t); }
  }

  lemma EnumeratedKeeps(s: View, ok: bool)
    requires Core(s) && s.online
    ensures Core(OnEnum(s, Enumerated, ok))
  {
    var t := OnEnum(s, Enumerated, ok);
    assert StateLogged(t) by { LogState(s.states, s.asked, s.most, ENUMERATED); }
    assert InSessions(t) by { EnableKeeps(s, t); }
  }

  lemma EnumKeeps(s: View, enum: Enum, ok: bool)
    requires Core(s) && s.online
    ensures Core(OnEnum(s, enum, ok)) && OnEnum(s, enum, ok).cable == s.cable
  {
    match enum
    case GetDesc => GetDescKeeps(s, ok);
    case Enumerated => EnumeratedKeeps(s, ok);
    case NoEnum =>
  }

  lemma SameVisits(s: View, t: View)
    requires InSessions(s) && t.mode == s.mode && t.changes == s.changes && t.trace == s.trace && t.flags == s.flags
    ensures InSessions(t)
  {
    var past, n: nat :| Visits(s, past, n);
    assert Visits(t, past, n);
  }

  lemma DeviceKeeps(boot: Boot, s: View, e: DeviceEvent)
    requires Inv(s)
    ensures Inv(OnDevice(boot, s, e))
  {
    if e.Device? {
      if s.cable == CABLE_FACTORY {
        ToKeepsCore(s, FactoryTarget(e.adb, e.factoryAdb));
      } else {
        DeviceFieldsKeep(boot, s, e);
      }
    }
  }

  lemma DeviceFieldsKeep(boot: Boot, s: View, e: DeviceEvent)
    requires Core(s) && e.Device? && s.cable != CABLE_FACTORY
    ensures Inv(OnDevice(boot, s, e))
  {
    var t := s;
    if boot != NORMAL && s.online {
      t := OnAltFields(boot, s, e.adb, e.tether, e.altAdb);
      AltFieldsKeep(boot, s, e.adb, e.tether, e.altAdb);
    }
    if t.cable == CABLE_USB && t.online { UsbDeviceKeeps(boot, t, e); }
  }

  lemma UsbDeviceKeeps(boot: Boot, s: View, e: DeviceEvent)
    requires Core(s) && e.Device? && s.online && s.cable == CABLE_USB
    ensures Inv(OnUsbDevice(boot, s, e))
  {
    var t := s;
    if e.tag != "none" {
      t := OnSwitchRequest(boot, s, e.tag, e.switchAdb, e.switchOk);
      SwitchRequestKeeps(boot, s, e.tag, e.switchAdb, e.switchOk);
    }
    EnumKeeps(t, e.enum, e.enumOk);
  }

  // ---- application ----

  lemma MessageKeeps(s: View, text: string, replyOk: bool, doneOk: bool)
    requires Inv(s)
    ensures Inv(OnMessage(s, text, replyOk, doneOk))
  {
    if s.cable != CABLE_FACTORY {
      var t := To(s, RequestTarget(RequestOf(text), s.mode, s.online, replyOk));
      ToKeepsCore(s, RequestTarget(RequestOf(text), s.mode, s.online, replyOk));
      AlikeKeeps(t, OnMessage(s, text, replyOk, doneOk));
    }
  }

  lemma AppKeeps(s: View, connect: Option<nat>, e: AppEvent)
    requires Inv(s)
    ensures Inv(OnApp(s, connect, e))
  {
    if s.appFd >= 0 && e.Message? {
      MessageKeeps(s, e.text, e.replyOk, e.doneOk);
    } else {
      AlikeKeeps(s, OnApp(s, connect, e));
    }
  }

  // ---- runs ----

  lemma TurnKeeps(boot: Boot, s: View, i: Input)
    requires Inv(s)
    ensures Inv(OnTurn(boot, s, i))
  {
    UEventKeeps(boot, s, i.uevent);
    DeviceKeeps(boot, OnUEvent(boot, s, i.uevent), i.device);
    if boot == NORMAL {
      AppKeeps(OnDevice(boot, OnUEvent(boot, s, i.uevent), i.device), i.connect, i.app);
    }
  }

  lemma BlankIsSafe(s: View)
    requires s == View(MIN, DEFAULT, CABLE_UNKNOWN, false, 0, false, -1, CLEARED, [], [], [DEFAULT], 0, 0)
    ensures Inv(s)
  {
    NewSession(MIN);
    assert AllComplete([]) == [] && Visits(s, [], 0);
    assert [DEFAULT][..0] == [] && Entered([DEFAULT]) == 0;
  }

  lemma StartIsSafe(boot: Boot, cable: Cable, factoryAdb: bool, adb: Adb)
    ensures Inv(Start(boot, cable, factoryAdb, adb))
  {
    var blank := View(MIN, DEFAULT, CABLE_UNKNOWN, false, 0, false, -1, CLEARED, [], [], [DEFAULT], 0, 0);
    BlankIsSafe(blank);
    if cable != CABLE_UNKNOWN {
      var s := Plugged(blank, cable);
      PluggedKeeps(blank, cable);
      if cable == CABLE_FACTORY {
        SwitchKeepsCore(s, FactoryMode(factoryAdb));
      } else {
        ToKeepsCore(s, DefaultMode(boot, adb));
      }
    }
  }

  /** At every loop head of every run: the hook trace is complete sessions plus one open one, in the
      modes of the changes; every change to a mode other than MIN happened with a cable in; online
      holds exactly with a cable and exactly in an attached state; a factory cable means a network
      mode; and IN_PROGRESS is entered at most once between two detaches if and only if there were
      never more than 2^32 descriptor requests between two of them. */
  lemma {:induction false} EveryLoopHeadIsSafe(boot: Boot, cable: Cable, factoryAdb: bool, adb: Adb, inputs: seq<Input>)
    ensures Inv(After(boot, Start(boot, cable, factoryAdb, adb), inputs))
  {
    if inputs == [] {
      StartIsSafe(boot, cable, factoryAdb, adb);
    } else {
      var before := inputs[..|inputs| - 1];
      EveryLoopHeadIsSafe(boot, cable, factoryAdb, adb, before);
      TurnKeeps(boot, After(boot, Start(boot, cable, factoryAdb, adb), before), inputs[|inputs| - 1]);
    }
  }

  /** One turn that finds a descriptor request and nothing else. */
  function Request(): Input { Input(NoUEvent, Device("none", Other, Other, GetDesc, false, 0, 0, true, true), None, NoAppEvent) }

  lemma {:induction false} RequestsCount(n: nat)
    ensures var s := After(NORMAL, Start(NORMAL, CABLE_USB, false, 0), seq(n, _ => Request()));
            s.cable == CABLE_USB && s.online && s.asked == n && s.most == n && s.appFd == -1
  {
    var inputs := seq(n, _ => Request());
    if n > 0 {
      assert inputs[..n - 1] == seq(n - 1, _ => Request());
      RequestsCount(n - 1);
    }
  }

  /** A run that breaks it: 2^32 + 1 requests in a row. */
  lemma TooManyRequests()
    ensures !OnceBetweenDetaches(After(NORMAL, Start(NORMAL, CABLE_USB, false, 0), seq(0x1_0000_0001, _ => Request())).states)
  {
    RequestsCount(0x1_0000_0001);
    EveryLoopHeadIsSafe(NORMAL, CABLE_USB, false, 0, seq(0x1_0000_0001, _ => Request()));
  }

  /** So at every loop head the kernel flags are what the trace leaves of cleared ones, and follow
      the mode: mass storage is on only in modes of the MSC family. */
  lemma FlagsAtLoopHead(s: View)
    requires Inv(s)
    ensures s.flags == FlagsOf(s.trace)
    ensures s.flags.mass ==> MscFamily(s.mode)
    ensures s.flags.cdrom <==> CdromFamily(s.mode)
    ensures s.flags.eject <==> s.mode != MSC
  {
    var past, n: nat :| Visits(s, past, n);
    FlagsFollowMode(past, Session(s.mode, n));
  }

  // ---- logs only grow ----

  predicate Extends(s: View, t: View) { s.trace <= t.trace && s.changes <= t.changes && s.states <= t.states }

  lemma ExtendsTrans(s: View, t: View, u: View)
    requires Extends(s, t) && Extends(t, u)
    ensures Extends(s, u)
  {
  }

  lemma ToExtends(s: View, target: Option<Mode>)
    ensures Extends(s, To(s, target))
  {
  }

  lemma EnumExtends(s: View, enum: Enum, ok: bool)
    ensures Extends(s, OnEnum(s, enum, ok))
  {
  }

  lemma UEventExtends(boot: Boot, s: View, e: UEvent)
    ensures Extends(s, OnUEvent(boot, s, e))
  {
    if e.Switched? {
      var t := Plugged(s, e.cable);
      assert Extends(s, t);
      HandledExtends(boot, t, e.factoryAdb, e.adb, e.notifyOk);
      ExtendsTrans(s, t, OnUEvent(boot, s, e));
    }
  }

  lemma HandledExtends(boot: Boot, s: View, factoryAdb: bool, adb: Adb, notifyOk: bool)
    ensures Extends(s, Handled(boot, s, factoryAdb, adb, notifyOk))
  {
  }

  lemma AltFieldsExtend(boot: Boot, s: View, adbField: Field, tetherField: Field, adb: Adb)
    ensures Extends(s, OnAltFields(boot, s, adbField, tetherField, adb))
  {
  }

  lemma SwitchRequestExtends(boot: Boot, s: View, tag: string, adb: Adb, ok: bool)
    ensures Extends(s, OnSwitchRequest(boot, s, tag, adb, ok))
  {
  }

  lemma UsbDeviceExtends(boot: Boot, s: View, e: DeviceEvent)
    requires e.Device?
    ensures Extends(s, OnUsbDevice(boot, s, e))
  {
    var t := if e.tag != "none" then OnSwitchRequest(boot, s, e.tag, e.switchAdb, e.switchOk) else s;
    SwitchRequestExtends(boot, s, e.tag, e.switchAdb, e.switchOk);
    EnumExtends(t, e.enum, e.enumOk);
    ExtendsTrans(s, t, OnEnum(t, e.enum, e.enumOk));
  }

  lemma DeviceExtends(boot: Boot, s: View, e: DeviceEvent)
    ensures Extends(s, OnDevice(boot, s, e))
  {
    if e.Device? && s.cable == CABLE_FACTORY {
      ToExtends(s, FactoryTarget(e.adb, e.factoryAdb));
    } else if e.Device? {
      var t := if boot != NORMAL && s.online then OnAltFields(boot, s, e.adb, e.tether, e.altAdb) else s;
      AltFieldsExtend(boot, s, e.adb, e.tether, e.altAdb);
      UsbDeviceExtends(boot, t, e);
      ExtendsTrans(s, t, OnUsbDevice(boot, t, e));
    }
  }

  lemma AppExtends(s: View, connect: Option<nat>, e: AppEvent)
    ensures Extends(s, OnApp(s, connect, e))
  {
  }

  /** A turn adds to the logs and takes nothing back. */
  lemma TurnExtends(boot: Boot, s: View, i: Input)
    ensures Extends(s, OnTurn(boot, s, i))
  {
    var a := OnUEvent(boot, s, i.uevent);
    var b := OnDevice(boot, a, i.device);
    UEventExtends(boot, s, i.uevent);
    DeviceExtends(boot, a, i.device);
    ExtendsTrans(s, a, b);
    AppExtends(b, i.connect, i.app);
    ExtendsTrans(s, b, OnApp(b, i.connect, i.app));
  }

  lemma {:induction false} RunExtends(boot: Boot, s: View, inputs: seq<Input>, k: nat)
    requires k <= |inputs|
    ensures Extends(After(boot, s, inputs[..k]), After(boot, s, inputs))
    decreases |inputs|
  {
    if k == |inputs| {
      assert inputs[..k] == inputs;
    } else {
      var before := inputs[..|inputs| - 1];
      RunExtends(boot, s, before, k);
      assert before[..k] == inputs[..k];
      TurnExtends(boot, After(boot, s, before), inputs[|inputs| - 1]);
    }
  }
}
