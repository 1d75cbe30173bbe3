/** What the USB daemon of usbd/usb_app.c does to its state, event by event: hook sessions, cable
    and state, mode changes, and the enumeration state. */
module UsbSpec {
  import opened Options
  import opened UsbModes

  datatype Cable = CABLE_USB | CABLE_FACTORY | CABLE_UNKNOWN
  datatype State = DEFAULT | DETACHED | ATTACHED | IN_PROGRESS | ENUMERATED
  datatype Boot = NORMAL | DEBUG | BPTOOLS | TABLET

  /** usbd_get_adb_property: -1 for an error. */
  type Adb = a: int | -1 <= a <= 1

  datatype Field = Enable | Disable | Other            // an adb or tethering field of a driver event
  datatype Enum = GetDesc | Enumerated | NoEnum        // its last field

  /** A message on the uevent socket. */
  datatype UEvent =
    | NoUEvent                                          // none, or one about something else
    | Unreadable                                        // the switch state cannot be read
    | Switched(cable: Cable, factoryAdb: bool, adb: Adb, notifyOk: bool)

  /** A message from the driver, with what the properties and the writes it leads to give. */
  datatype DeviceEvent =
    | NoDeviceEvent
    | Device(tag: string, adb: Field, tether: Field, enum: Enum,
             factoryAdb: bool, altAdb: Adb, switchAdb: Adb, switchOk: bool, enumOk: bool)

  datatype AppEvent =
    | NoAppEvent
    | ReadFailed
    | Closed
    | Message(text: string, replyOk: bool, doneOk: bool)

  /** What one turn of the main loop finds ready. */
  datatype Input = Input(uevent: UEvent, device: DeviceEvent, connect: Option<nat>, app: AppEvent)

  /** A call of usbd_set_usb_mode and whether a cable was in. */
  datatype Change = Change(mode: Mode, online: bool)

  /** The values of an int. */
  const WRAP: nat := 0x1_0000_0000

  /** The daemon's variables, the kernel flags its hooks write, the logs of hook calls, of mode
      changes and of assignments to the state, and how many descriptor requests there were. */
  datatype View = View(
    mode: Mode,
    state: State,
    cable: Cable,
    online: bool,
    desCount: nat,       // modulo 2^32
    tethering: bool,
    appFd: int,
    flags: Flags,
    trace: seq<Call>,
    changes: seq<Change>,
    states: seq<State>,
    asked: nat,          // since the last detach
    most: nat)           // between any two detaches

  // ---- which mode an event asks for ----

  /** The table of alternate modes. */
  function AltMode(boot: Boot, adb: bool, tether: bool): Mode {
    if boot == BPTOOLS then
      if adb then (if tether then RNDIS_BPTOOLS_ETH_ADB else BPTOOLS_ETH_ADB)
      else (if tether then RNDIS_BPTOOLS_ETH else BPTOOLS_ETH)
    else if adb then (if tether then RNDIS_ADB else TABLET_NETWORK_MTP_ADB)
    else CDROM
  }

  /** i is the first mode an application's message asks for, or USB_MODE_MAX if there is none. */
  predicate Requested(text: string, i: nat) {
    && i <= USB_MODE_MAX && (i < USB_MODE_MAX ==> Request(i) == Some(text))
    && forall j: nat :: j < i ==> Request(j) != Some(text)
  }

  /** i is the first mode of that name the PC may ask for, or USB_MODE_MAX. */
  predicate SwitchedTo(tag: string, i: nat) {
    && i <= USB_MODE_MAX && (i < USB_MODE_MAX ==> Name(i) == tag && Switchable(i))
    && forall j: nat :: j < i ==> !(Name(j) == tag && Switchable(j))
  }

  lemma AnyRequest(text: string) returns (i: nat)
    ensures Requested(text, i)
  {
    i := 0;
    while i < USB_MODE_MAX && Request(i) != Some(text)
      invariant i <= USB_MODE_MAX && forall j: nat :: j < i ==> Request(j) != Some(text)
    {
      i := i + 1;
    }
  }

  lemma AnySwitch(tag: string) returns (i: nat)
    ensures SwitchedTo(tag, i)
  {
    i := 0;
    while i < USB_MODE_MAX && !(Name(i) == tag && Switchable(i))
      invariant i <= USB_MODE_MAX && forall j: nat :: j < i ==> !(Name(j) == tag && Switchable(j))
    {
      i := i + 1;
    }
  }

  ghost function RequestOf(text: string): (i: nat)
    ensures Requested(text, i)
  {
    assert exists i: nat :: Requested(text, i) by { var i := AnyRequest(text); }
    var i: nat :| Requested(text, i); i
  }

  ghost function SwitchOf(tag: string): (i: nat)
    ensures SwitchedTo(tag, i)
  {
    assert exists i: nat :: SwitchedTo(tag, i) by { var i := AnySwitch(tag); }
    var i: nat :| SwitchedTo(tag, i); i
  }

  lemma OneRequest(text: string, i: nat)
    requires Requested(text, i)
    ensures RequestOf(text) == i
  {
    var j := RequestOf(text);
    assert !(i < j) && !(j < i);
  }

  lemma OneSwitch(tag: string, i: nat)
    requires SwitchedTo(tag, i)
    ensures SwitchOf(tag) == i
  {
    var j := SwitchOf(tag);
    assert !(i < j) && !(j < i);
  }

  /** The mode a driver's switch request leads to; a CD-ROM gives way at once, other modes are
      left for the application to change. */
  function SwitchTarget(boot: Boot, mode: Mode, tag: string, found: bool, adb: Adb, tethering: bool): Option<Mode> {
    if adb < 0 then None
    else if !found then (if tag == "cdrom2" then Some(CDROM2) else None)
    else if mode != CDROM && mode != CDROM2 then None
    else if boot != TABLET then Some(if adb == 0 then NGP else NGP_ADB)
    else if tethering then Some(if adb == 0 then RNDIS else RNDIS_ADB)
    else Some(if adb == 0 then TABLET_NETWORK_MTP else TABLET_NETWORK_MTP_ADB)
  }

  /** The default mode of an alternate boot; any property value but 0 counts as adb. */
  function DefaultMode(boot: Boot, adb: Adb): Option<Mode> {
    match boot
    case DEBUG => Some(if adb != 0 then MSC_ADB else MSC)
    case BPTOOLS => Some(if adb != 0 then BPTOOLS_ETH_ADB else BPTOOLS_ETH)
    case TABLET => Some(if adb != 0 then TABLET_NETWORK_MTP_ADB else CDROM)
    case NORMAL => None
  }

  /** The mode an adb or tethering field leads to under an alternate boot. */
  function AltTarget(boot: Boot, adbField: Field, tetherField: Field, adb: Adb, tethering: bool): Option<Mode> {
    if adbField == Other && tetherField == Other then None
    else if boot == DEBUG then Some(if adbField == Enable || tetherField == Enable then MSC_ADB else MSC)
    else if adbField == Other && adb < 0 then None
    else Some(AltMode(boot, if adbField == Other then adb == 1 else adbField == Enable, tethering))
  }

  /** The mode an application's request leads to. */
  function RequestTarget(i: nat, mode: Mode, online: bool, replyOk: bool): Option<Mode> {
    if i == MIN then Some(MIN)
    else if i < USB_MODE_MAX && (Answered(i) ==> replyOk) && mode != i && online then Some(i)
    else None
  }

  /** The mode a driver event leads to under a factory cable. */
  function FactoryTarget(adb: Field, factoryAdb: bool): Option<Mode> {
    if factoryAdb && adb == Enable then Some(NETWORK_ADB) else if adb == Disable then Some(NETWORK) else None
  }

  // ---- events ----

  /** usbd_set_usb_mode. */
  function Switch(s: View, m: Mode): View {
    s.(mode := m,
       flags := FlagsAfter(PreEnable, m, FlagsAfter(DisableDone, s.mode, FlagsAfter(PreDisable, s.mode, s.flags))),
       trace := s.trace + Seen(PreDisable, s.mode) + Seen(DisableDone, s.mode) + Seen(PreEnable, m),
       changes := s.changes + [Change(m, s.online)])
  }

  function To(s: View, target: Option<Mode>): View { if target.Some? then Switch(s, target.value) else s }

  /** An assignment to the state. */
  function Enter(s: View, st: State): View { s.(state := st, states := s.states + [st]) }

  /** A write to the application; a failure drops it. */
  function Told(s: View, needed: bool, ok: bool): View {
    if needed && s.appFd >= 0 && !ok then s.(appFd := -1) else s
  }

  function FactoryMode(adb: bool): Mode { if adb then NETWORK_ADB else NETWORK }

  /** The switch branch of process_usb_uevent_message. */
  function Plugged(s: View, cable: Cable): View {
    if cable == CABLE_UNKNOWN then Enter(s.(cable := cable, online := false, desCount := 0, asked := 0), DETACHED)
    else Enter(s.(cable := cable, online := true), ATTACHED)
  }

  /** usbd_handle_cable_status_change. */
  function Handled(boot: Boot, s: View, factoryAdb: bool, adb: Adb, notifyOk: bool): View {
    if s.cable == CABLE_FACTORY then Switch(s, FactoryMode(factoryAdb))
    else if boot == NORMAL then Told(s, s.state != DEFAULT, notifyOk)
    else if s.cable == CABLE_USB then To(s.(tethering := false), DefaultMode(boot, adb))
    else s
  }

  function OnUEvent(boot: Boot, s: View, e: UEvent): View {
    if e.Switched? then Handled(boot, Plugged(s, e.cable), e.factoryAdb, e.adb, e.notifyOk) else s
  }

  /** usbd_alt_mode_set. */
  function OnAltFields(boot: Boot, s: View, adbField: Field, tetherField: Field, adb: Adb): View {
    var t := if tetherField == Other then s.tethering else tetherField == Enable;
    To(s.(tethering := t), AltTarget(boot, adbField, tetherField, adb, t))
  }

  /** usb_req_mode_switch. */
  ghost function OnSwitchRequest(boot: Boot, s: View, tag: string, adb: Adb, ok: bool): View {
    var found := SwitchOf(tag) < USB_MODE_MAX;
    var target := SwitchTarget(boot, s.mode, tag, found, adb, s.tethering);
    if target.Some? then Switch(s, target.value) else Told(s, adb >= 0 && found, ok)
  }

  /** enable_done of the current mode. */
  function Enabled(s: View): View {
    s.(flags := FlagsAfter(EnableDone, s.mode, s.flags), trace := s.trace + Seen(EnableDone, s.mode))
  }

  /** One more descriptor request. */
  function Asked(s: View): View {
    s.(asked := s.asked + 1, most := if s.most < s.asked + 1 then s.asked + 1 else s.most)
  }

  /** The enumeration field of a driver event. */
  function OnEnum(s: View, enum: Enum, ok: bool): View {
    match enum
    case GetDesc =>
      var t := Asked(s.(desCount := (s.desCount + 1) % WRAP));
      if t.desCount == 1 then Told(Enter(t, IN_PROGRESS), true, ok) else t
    case Enumerated => Told(Enabled(Enter(s, ENUMERATED)), Announced(s.mode), ok)
    case NoEnum => s
  }

  ghost function OnUsbDevice(boot: Boot, s: View, e: DeviceEvent): View
    requires e.Device?
  {
    OnEnum(if e.tag != "none" then OnSwitchRequest(boot, s, e.tag, e.switchAdb, e.switchOk) else s, e.enum, e.enumOk)
  }

  ghost function OnDevice(boot: Boot, s: View, e: DeviceEvent): View {
    if !e.Device? then s
    else if s.cable == CABLE_FACTORY then To(s, FactoryTarget(e.adb, e.factoryAdb))
    else
      var t := if boot != NORMAL && s.online then OnAltFields(boot, s, e.adb, e.tether, e.altAdb) else s;
      if t.cable == CABLE_USB && t.online then OnUsbDevice(boot, t, e) else t
  }

  /** usbd_socket_event, for a message. */
  ghost function OnMessage(s: View, text: string, replyOk: bool, doneOk: bool): View {
    if s.cable == CABLE_FACTORY then s
    else
      var i := RequestOf(text);
      var asked := MIN < i < USB_MODE_MAX;
      var failed := asked && ((Answered(i) && !replyOk) || (s.mode == i && Announced(i) && !doneOk));
      Told(To(s, RequestTarget(i, s.mode, s.online, replyOk)), failed, false)
  }

  /** A new application is taken only if none is connected, and listened to from the next turn. */
  ghost function OnApp(s: View, connect: Option<nat>, e: AppEvent): View {
    if s.appFd < 0 then (if connect.Some? && s.appFd == -1 then s.(appFd := connect.value) else s)
    else match e
      case NoAppEvent => s
      case Message(text, replyOk, doneOk) => OnMessage(s, text, replyOk, doneOk)
      case _ => s.(appFd := -1)
  }

  /** One turn of the main loop: cable, then driver, then application. */
  ghost function OnTurn(boot: Boot, s: View, i: Input): View {
    var t := OnDevice(boot, OnUEvent(boot, s, i.uevent), i.device);
    if boot == NORMAL then OnApp(t, i.connect, i.app) else t
  }

  /** main up to its loop. */
  function Start(boot: Boot, cable: Cable, factoryAdb: bool, adb: Adb): View {
    var s := View(MIN, DEFAULT, cable, cable != CABLE_UNKNOWN, 0, false, -1, CLEARED, [], [], [DEFAULT], 0, 0);
    if cable == CABLE_UNKNOWN then s
    else if cable == CABLE_FACTORY then Switch(Enter(s, ATTACHED), FactoryMode(factoryAdb))
    else To(Enter(s, ATTACHED), DefaultMode(boot, adb))
  }

  ghost function After(boot: Boot, s: View, inputs: seq<Input>): View {
    if inputs == [] then s
    else OnTurn(boot, After(boot, s, inputs[..|inputs| - 1]), inputs[|inputs| - 1])
  }
}
