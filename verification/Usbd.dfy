/** The USB daemon of usbd/usb_app.c as it runs: global variables changed by its main loop. */
module Usbd {
  import opened Options
  import opened UsbModes
  import S = UsbSpec
  import T = UsbTheorems

  /** The first mode an application's message asks for. */
  method FindRequest(text: string) returns (i: nat)
    ensures S.Requested(text, i)
  {
    i := 0;
    while i < USB_MODE_MAX
      invariant i <= USB_MODE_MAX && forall j: nat :: j < i ==> Request(j) != Some(text)
    {
      if Request(i) == Some(text) { return; }
      i := i + 1;
    }
  }

  /** The first mode of that name the PC may ask for. */
  method FindSwitch(tag: string) returns (i: nat)
    ensures S.SwitchedTo(tag, i)
  {
    i := 0;
    while i < USB_MODE_MAX
      invariant i <= USB_MODE_MAX && forall j: nat :: j < i ==> !(Name(j) == tag && Switchable(j))
    {
      if Name(i) == tag && Switchable(i) { return; }
      i := i + 1;
    }
  }

  class Daemon {
    const boot: S.Boot
    var mode: Mode
    var state: S.State
    var cable: S.Cable
    var online: bool
    var desCount: nat          // modulo 2^32
    var tethering: bool
    var appFd: int
    // what the hooks write to the kernel
    var massStorage: bool
    var cdrom: bool
    var eject: bool
    // logs of hook calls, mode changes and state assignments
    ghost var trace: seq<Call>
    ghost var changes: seq<S.Change>
    ghost var states: seq<S.State>
    // descriptor requests since the last detach, and the most between any two
    ghost var asked: nat
    ghost var most: nat

    ghost function View(): S.View
      reads this
    {
      S.View(mode, state, cable, online, desCount, tethering, appFd, Flags(massStorage, cdrom, eject), trace, changes, states, asked, most)
    }

    /** Call a hook of the current mode if it has one. */
    method CallHook(h: Hook)
      modifies this`trace, this`massStorage, this`cdrom, this`eject
      ensures View() == old(View()).(flags := FlagsAfter(h, mode, old(View()).flags), trace := old(trace) + Seen(h, mode))
    {
      if HasHook(h, mode) {
        trace := trace + [Call(h, mode)];
        match h
        case PreEnable =>
          if mode == MSC { eject := false; }
          if CdromFamily(mode) { cdrom := true; }
        case EnableDone =>
          if MscFamily(mode) { massStorage := true; }
        case PreDisable =>
          if MscFamily(mode) { massStorage := false; }
        case DisableDone =>
          if CdromFamily(mode) { cdrom := false; }
          if mode == MSC { eject := true; }
      }
    }

    /** The first half of usbd_set_usb_mode: the hooks that end the current mode. */
    method LeaveMode()
      modifies this`trace, this`massStorage, this`cdrom, this`eject
      ensures View() == old(View()).(flags := FlagsAfter(DisableDone, mode, FlagsAfter(PreDisable, mode, old(View()).flags)),
                                     trace := old(trace) + Seen(PreDisable, mode) + Seen(DisableDone, mode))
    {
      CallHook(PreDisable);
      CallHook(DisableDone);
    }

    /** The hook that begins the current mode; MIN has none. */
    method BeginMode()
      modifies this`trace, this`massStorage, this`cdrom, this`eject
      ensures View() == old(View()).(flags := FlagsAfter(PreEnable, mode, old(View()).flags), trace := old(trace) + Seen(PreEnable, mode))
    {
      if mode == MIN { return; }
      CallHook(PreEnable);
    }

    /** usbd_set_usb_mode. */
    method SetMode(m: Mode)
      modifies this`mode, this`trace, this`changes, this`massStorage, this`cdrom, this`eject
      ensures View() == S.Switch(old(View()), m)
    {
      LeaveMode();
      changes := changes + [S.Change(m, online)];
      mode := m;
      BeginMode();
    }

    method EnterState(st: S.State)
      modifies this`state, this`states
      ensures View() == S.Enter(old(View()), st)
    {
      state := st;
      states := states + [st];
    }

    /** A write to the application if one is connected; a failure drops it. */
    method Tell(needed: bool, ok: bool)
      modifies this`appFd
      ensures View() == S.Told(old(View()), needed, ok)
    {
      if needed && appFd >= 0 && !ok { appFd := -1; }
    }

    /** usbd_enumerate_default_mode: any property value but 0 counts as adb. */
    method EnumerateDefault(adb: S.Adb)
      modifies this`mode, this`trace, this`changes, this`massStorage, this`cdrom, this`eject
      ensures View() == S.To(old(View()), S.DefaultMode(boot, adb))
    {
      match boot
      case DEBUG => SetMode(if adb != 0 then MSC_ADB else MSC);
      case BPTOOLS => SetMode(if adb != 0 then BPTOOLS_ETH_ADB else BPTOOLS_ETH);
      case TABLET => SetMode(if adb != 0 then TABLET_NETWORK_MTP_ADB else CDROM);
      case NORMAL =>
    }

    /** usbd_alt_mode_set, reached only in an alternate mode. */
    method AltModeSet(adbField: S.Field, tetherField: S.Field, adb: S.Adb)
      requires boot != S.NORMAL
      modifies this`tethering, this`mode, this`trace, this`changes, this`massStorage, this`cdrom, this`eject
      ensures View() == S.OnAltFields(boot, old(View()), adbField, tetherField, adb)
    {
      var adbEn: int := if adbField == S.Enable then 1 else if adbField == S.Disable then 0 else -1;
      if tetherField == S.Other && adbEn < 0 { return; }
      if tetherField != S.Other { tethering := tetherField == S.Enable; }
      if boot == S.DEBUG {
        SetMode(if adbEn == 1 || tetherField == S.Enable then MSC_ADB else MSC);
      } else {
        if adbEn < 0 {
          adbEn := adb;
          if adbEn < 0 { return; }
        }
        SetMode(S.AltMode(boot, adbEn == 1, tethering));
      }
    }

    /** usb_req_mode_switch. */
    method ReqModeSwitch(tag: string, adb: S.Adb, ok: bool)
      modifies this`appFd, this`mode, this`trace, this`changes, this`massStorage, this`cdrom, this`eject
      ensures View() == S.OnSwitchRequest(boot, old(View()), tag, adb, ok)
    {
      if adb < 0 { return; }
      var i := FindSwitch(tag);
      S.OneSwitch(tag, i);
      if i == USB_MODE_MAX {
        if tag == "cdrom2" { SetMode(CDROM2); }
        return;
      }
      if mode == CDROM || mode == CDROM2 {
        if boot == S.TABLET {
          if adb == 0 {
            SetMode(if tethering then RNDIS else TABLET_NETWORK_MTP);
          } else {
            SetMode(if tethering then RNDIS_ADB else TABLET_NETWORK_MTP_ADB);
          }
        } else {
          SetMode(if adb == 0 then NGP else NGP_ADB);
        }
        return;
      }
      Tell(true, ok);
    }

    /** usbd_enum_process. */
    method EnumProcess(ok: bool) returns (told: bool)
      modifies this`trace, this`massStorage, this`cdrom, this`eject
      ensures View() == S.Enabled(old(View()))
      ensures told <==> !(appFd >= 0 && Announced(mode) && !ok)
    {
      CallHook(EnableDone);
      return !(appFd >= 0 && Announced(mode) && !ok);
    }

    /** The switch branch of process_usb_uevent_message. */
    method CableEvent(now: S.Cable)
      modifies this`cable, this`online, this`state, this`states, this`desCount, this`asked
      ensures View() == S.Plugged(old(View()), now)
    {
      cable := now;
      if cable != S.CABLE_UNKNOWN {
        online := true;
        EnterState(S.ATTACHED);
      } else {
        online := false;
        EnterState(S.DETACHED);
        desCount := 0;
        asked := 0;
      }
    }

    /** usbd_handle_cable_status_change. */
    method CableChange(factoryAdb: bool, adb: S.Adb, notifyOk: bool)
      modifies this`appFd, this`tethering, this`mode, this`trace, this`changes, this`massStorage, this`cdrom, this`eject
      ensures View() == S.Handled(boot, old(View()), factoryAdb, adb, notifyOk)
    {
      if cable == S.CABLE_FACTORY {
        SetMode(if factoryAdb then NETWORK_ADB else NETWORK);
      } else if boot == S.NORMAL {
        Tell(state != S.DEFAULT, notifyOk);
      } else if cable == S.CABLE_USB {
        tethering := false;
        EnumerateDefault(adb);
      }
    }

    /** The enumeration field of a driver event under a USB cable. */
    method EnumEvent(enum: S.Enum, ok: bool)
      modifies this`appFd, this`state, this`states, this`desCount, this`asked, this`most, this`trace, this`massStorage, this`cdrom, this`eject
      ensures View() == S.OnEnum(old(View()), enum, ok)
    {
      match enum
      case GetDesc =>
        desCount := (desCount + 1) % S.WRAP;
        asked := asked + 1;
        most := if most < asked then asked else most;
        if desCount == 1 {
          EnterState(S.IN_PROGRESS);
          Tell(true, ok);
        }
      case Enumerated =>
        EnterState(S.ENUMERATED);
        var told := EnumProcess(ok);
        if !told { appFd := -1; }
      case NoEnum =>
    }

    /** A driver event under a factory cable. */
    method FactoryDeviceEvent(adb: S.Field, factoryAdb: bool)
      modifies this`mode, this`trace, this`changes, this`massStorage, this`cdrom, this`eject
      ensures View() == S.To(old(View()), S.FactoryTarget(adb, factoryAdb))
    {
      if factoryAdb && adb == S.Enable {
        SetMode(NETWORK_ADB);
      } else if adb == S.Disable {
        SetMode(NETWORK);
      }
    }

    /** The switch and enumeration fields of a driver event. */
    method UsbDeviceEvent(e: S.DeviceEvent)
      requires e.Device?
      modifies this
      ensures View() == S.OnUsbDevice(boot, old(View()), e)
    {
      if e.tag != "none" {
        ReqModeSwitch(e.tag, e.switchAdb, e.switchOk);
      }
      EnumEvent(e.enum, e.enumOk);
    }

    /** A driver event. */
    method DeviceEvent(e: S.DeviceEvent)
      requires e.Device?
      modifies this
      ensures View() == S.OnDevice(boot, old(View()), e)
    {
      if cable == S.CABLE_FACTORY {
        FactoryDeviceEvent(e.adb, e.factoryAdb);
        return;
      }
      if boot != S.NORMAL && online {
        AltModeSet(e.adb, e.tether, e.altAdb);
      }
      if cable == S.CABLE_USB && online {
        UsbDeviceEvent(e);
      }
    }

    /** usbd_socket_event on a message; the caller drops the application on a failure. */
    method SocketEvent(text: string, replyOk: bool, doneOk: bool) returns (ok: bool)
      requires appFd >= 0
      modifies this`mode, this`trace, this`changes, this`massStorage, this`cdrom, this`eject
      ensures S.OnMessage(old(View()), text, replyOk, doneOk) == View().(appFd := if ok then appFd else -1)
    {
      if cable == S.CABLE_FACTORY { return true; }
      var i := FindRequest(text);
      S.OneRequest(text, i);
      if i == MIN {
        SetMode(MIN);
        return true;
      }
      if i < USB_MODE_MAX {
        if Answered(i) && !replyOk { return false; }
        if mode != i {
          if online { SetMode(i); }
        } else if Announced(mode) && !doneOk {
          return false;
        }
      }
      return true;
    }

    /** The application sockets, under a normal boot. */
    method AppTurn(connect: Option<nat>, e: S.AppEvent)
      modifies this
      ensures View() == S.OnApp(old(View()), connect, e)
    {
      var listening := appFd >= 0;
      if connect.Some? && appFd == -1 {
        appFd := connect.value;
      }
      if listening && !e.NoAppEvent? {
        var ok := false;
        if e.Message? { ok := SocketEvent(e.text, e.replyOk, e.doneOk); }
        if !ok { appFd := -1; }
      }
    }

    /** main up to its loop, once the switch state has been read. */
    constructor (boot: S.Boot, cable: S.Cable, factoryAdb: bool, adb: S.Adb)
      ensures this.boot == boot && View() == S.Start(boot, cable, factoryAdb, adb)
    {
      this.boot, this.cable := boot, cable;
      mode, desCount, tethering, appFd := MIN, 0, false, -1;
      massStorage, cdrom, eject := false, false, true;
      trace, changes, asked, most := [], [], 0, 0;
      online, state, states := false, S.DEFAULT, [S.DEFAULT];
      new;
      if cable != S.CABLE_UNKNOWN {
        online := true;
        EnterState(S.ATTACHED);
      }
      if online {
        if cable == S.CABLE_FACTORY {
          SetMode(if factoryAdb then NETWORK_ADB else NETWORK);
        } else if boot != S.NORMAL {
          EnumerateDefault(adb);
        }
      }
    }

    /** One turn of the main loop. */
    method Turn(i: S.Input)
      modifies this
      ensures View() == S.OnTurn(boot, old(View()), i)
    {
      if i.uevent.Switched? {
        CableEvent(i.uevent.cable);
        CableChange(i.uevent.factoryAdb, i.uevent.adb, i.uevent.notifyOk);
      }
      if i.device.Device? { DeviceEvent(i.device); }
      if boot == S.NORMAL { AppTurn(i.connect, i.app); }
    }
  }

  /** The daemon from its start through any number of turns: its state is the one the inputs lead
      to, and what holds of every loop head holds of it. */
  method Run(boot: S.Boot, cable: S.Cable, factoryAdb: bool, adb: S.Adb, inputs: seq<S.Input>) returns (d: Daemon)
    ensures d.View() == S.After(boot, S.Start(boot, cable, factoryAdb, adb), inputs)
    ensures T.Inv(d.View())
    ensures d.massStorage ==> MscFamily(d.mode)
    ensures (d.cdrom <==> CdromFamily(d.mode)) && (d.eject <==> d.mode != MSC)
  {
    d := new Daemon(boot, cable, factoryAdb, adb);
    ghost var start := d.View();
    for k := 0 to |inputs|
      invariant fresh(d) && d.boot == boot && d.View() == S.After(boot, start, inputs[..k])
    {
      assert inputs[..k + 1][..k] == inputs[..k];
      d.Turn(inputs[k]);
    }
    assert inputs[..|inputs|] == inputs;
    T.EveryLoopHeadIsSafe(boot, cable, factoryAdb, adb, inputs);
    T.FlagsAtLoopHead(d.View());
  }
}
