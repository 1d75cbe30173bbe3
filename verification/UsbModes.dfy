/** The mode table of the USB daemon (usbd/usb_app.c, usbd/usb_defines.h): which hooks a mode has,
    by what it is requested, and what sessions of hook calls look like. */
module UsbModes {
  import opened Options

  const USB_MODE_MAX: nat := 26

  type Mode = m: nat | m < USB_MODE_MAX

  const MIN: Mode := 0
  const NGP: Mode := 1
  const CDROM: Mode := 2
  const MTP: Mode := 3
  const MSC: Mode := 4
  const MSC_ONLY: Mode := 5
  const HID: Mode := 6
  const NGP_ADB: Mode := 7
  const MTP_ADB: Mode := 8
  const MSC_ADB: Mode := 9
  const ADB: Mode := 10
  const NETWORK: Mode := 11
  const MODEM: Mode := 12
  const MODEM_ADB: Mode := 13
  const NETWORK_ADB: Mode := 14
  const CHARGE_ONLY: Mode := 15
  const CHARGE_ADB: Mode := 16
  const RNDIS: Mode := 17
  const RNDIS_ADB: Mode := 18
  const CDROM2: Mode := 19
  const BPTOOLS_ETH: Mode := 20
  const BPTOOLS_ETH_ADB: Mode := 21
  const RNDIS_BPTOOLS_ETH: Mode := 22
  const RNDIS_BPTOOLS_ETH_ADB: Mode := 23
  const TABLET_NETWORK_MTP: Mode := 24
  const TABLET_NETWORK_MTP_ADB: Mode := 25

  /** The name the driver knows a mode by. */
  function Name(m: Mode): string {
    match m
    case 0 => "unuse"
    case 1 => "acm_eth_mtp"
    case 2 => "cdrom"
    case 3 => "mtp"
    case 4 => "msc"
    case 5 => "msc_only"
    case 6 => "hid"
    case 7 => "acm_eth_mtp_adb"
    case 8 => "mtp_adb"
    case 9 => "msc_adb"
    case 10 => "android_adb_only"
    case 11 => "eth"
    case 12 => "acm"
    case 13 => "modem_adb"
    case 14 => "eth_adb"
    case 15 => "charge_only"
    case 16 => "charge_adb"
    case 17 => "rndis"
    case 18 => "rndis_adb"
    case 19 => "cdrom2"
    case 20 => "acm_acm1_acm2_acm3_eth"
    case 21 => "acm_acm1_acm2_acm3_eth_adb"
    case 22 => "rndis_acm_acm1_acm2_acm3_eth"
    case 23 => "rndis_acm_acm1_acm2_acm3_eth_adb"
    case 24 => "eth_mtp"
    case _ => "eth_mtp_adb"
  }

  /** The message by which an application asks for a mode. */
  function Request(m: Mode): Option<string> {
    match m
    case 0 => Some("usb_unload_driver")
    case 2 => Some("usb_mode_ngp")
    case 3 => Some("usb_mode_mtp")
    case 4 => Some("usb_mode_msc")
    case 5 => Some("usb_mode_msc_only")
    case 6 => Some("usb_mode_hid")
    case 7 => Some("usb_mode_ngp_adb")
    case 8 => Some("usb_mode_mtp_adb")
    case 9 => Some("usb_mode_msc_adb")
    case 10 => Some("usb_mode_adb")
    case 12 => Some("usb_mode_modem")
    case 13 => Some("usb_mode_modem_adb")
    case 15 => Some("usb_mode_charge_only")
    case 16 => Some("usb_mode_charge_adb")
    case 17 => Some("usb_mode_rndis")
    case 18 => Some("usb_mode_rndis_adb")
    case 20 => Some("usb_mode_acm_acm1_acm2_acm3_eth")
    case 21 => Some("usb_mode_acm_acm1_acm2_acm3_eth_adb")
    case 22 => Some("usb_mode_rndis_acm_acm1_acm2_acm3_eth")
    case 23 => Some("usb_mode_rndis_acm_acm1_acm2_acm3_eth_adb")
    case _ => None
  }

  /** The PC may ask for these modes (switch_req). */
  predicate Switchable(m: Mode) { m !in {MIN, CDROM, MSC_ONLY, NETWORK, NETWORK_ADB, CDROM2, TABLET_NETWORK_MTP, TABLET_NETWORK_MTP_ADB} }

  /** The application is told when these modes are up (mode_done). */
  predicate Announced(m: Mode) { m in {NGP, MTP, MSC, MSC_ONLY, NGP_ADB, MTP_ADB, MSC_ADB} }

  predicate Answered(m: Mode) { m > MIN && Request(m).Some? }   // resp_ok

  // ---- hooks ----

  datatype Hook = PreEnable | EnableDone | PreDisable | DisableDone

  /** One call of a hook of a mode. */
  datatype Call = Call(hook: Hook, mode: Mode)

  predicate HasHook(h: Hook, m: Mode) {
    match h
    case PreEnable => m in {NGP, CDROM, MSC, NGP_ADB, MTP_ADB, ADB, MODEM_ADB, CDROM2}
    case EnableDone =>
      m in {NGP, CDROM, MTP, MSC, MSC_ONLY, NGP_ADB, MTP_ADB, MSC_ADB, NETWORK, MODEM, MODEM_ADB, NETWORK_ADB, CDROM2}
    case PreDisable =>
      m in {NGP, CDROM, MSC, MSC_ONLY, NGP_ADB, MTP_ADB, MSC_ADB, ADB, NETWORK, MODEM, MODEM_ADB, NETWORK_ADB, CDROM2}
    case DisableDone => m in {CDROM, MSC, CDROM2}
  }

  /** The call as it shows in a trace: a hook that is not there leaves nothing. */
  function Seen(h: Hook, m: Mode): seq<Call> { if HasHook(h, m) then [Call(h, m)] else [] }

  /** Modes whose enable_done turns mass storage on. */
  predicate MscFamily(m: Mode) { m in {MSC, MSC_ONLY, MSC_ADB} }

  /** Modes whose pre_enable turns the CD-ROM on; in MSC this is what MSD_CDROM_ENABLED builds. */
  predicate CdromFamily(m: Mode) { m in {MSC, CDROM, CDROM2} }

  // ---- sessions ----

  /** A stay in a mode: pre_enable, some enable_done, and, once it is over, pre_disable and
      disable_done. */
  datatype Session = Session(mode: Mode, enables: nat)

  function Enables(m: Mode, n: nat): seq<Call> { if n == 0 then [] else Enables(m, n - 1) + Seen(EnableDone, m) }

  function Opened(s: Session): seq<Call> { Seen(PreEnable, s.mode) + Enables(s.mode, s.enables) }

  function Complete(s: Session): seq<Call> { Opened(s) + Seen(PreDisable, s.mode) + Seen(DisableDone, s.mode) }

  function AllComplete(ss: seq<Session>): seq<Call> {
    if ss == [] then [] else AllComplete(ss[..|ss| - 1]) + Complete(ss[|ss| - 1])
  }

  lemma AddSession(past: seq<Session>, s: Session)
    ensures AllComplete(past + [s]) == AllComplete(past) + Complete(s)
  {
    assert (past + [s])[..|past|] == past;
  }

  lemma Concat<X>(t: seq<X>, a: seq<X>, b: seq<X>, c: seq<X>)
    ensures t + (a + b + c) == t + a + b + c
  {
  }

  lemma NewSession(m: Mode)
    ensures Opened(Session(m, 0)) == Seen(PreEnable, m)
  {
  }

  lemma EnableAgain(m: Mode, n: nat)
    ensures Opened(Session(m, n + 1)) == Opened(Session(m, n)) + Seen(EnableDone, m)
  {
  }

  // ---- what the hooks write to the kernel ----

  function MassAfter(h: Hook, m: Mode, b: bool): bool {
    if !MscFamily(m) then b else if h == EnableDone then true else if h == PreDisable then false else b
  }

  function CdromAfter(h: Hook, m: Mode, b: bool): bool {
    if !CdromFamily(m) then b else if h == PreEnable then true else if h == DisableDone then false else b
  }

  function EjectAfter(h: Hook, m: Mode, b: bool): bool {
    if m != MSC then b else if h == PreEnable then false else if h == DisableDone then true else b
  }

  /** Mass storage enabled, CD-ROM enabled, ejection allowed. */
  datatype Flags = Flags(mass: bool, cdrom: bool, eject: bool)

  const CLEARED: Flags := Flags(false, false, true)

  function FlagsAfter(h: Hook, m: Mode, f: Flags): Flags {
    Flags(MassAfter(h, m, f.mass), CdromAfter(h, m, f.cdrom), EjectAfter(h, m, f.eject))
  }

  /** The flags that a trace leaves, from cleared ones. */
  function FlagsOf(trace: seq<Call>): Flags {
    if trace == [] then CLEARED
    else FlagsAfter(trace[|trace| - 1].hook, trace[|trace| - 1].mode, FlagsOf(trace[..|trace| - 1]))
  }

  /** The flags of a mode with n enable_done calls. */
  function ModeFlags(m: Mode, n: nat): Flags { Flags(MscFamily(m) && n > 0, CdromFamily(m), m != MSC) }

  /** A call that leaves nothing in the trace changes no flag either. */
  lemma {:induction false} SeenEffect(trace: seq<Call>, h: Hook, m: Mode)
    ensures FlagsOf(trace + Seen(h, m)) == FlagsAfter(h, m, FlagsOf(trace))
  {
    if HasHook(h, m) {
      assert (trace + [Call(h, m)])[..|trace|] == trace;
    } else {
      assert trace + Seen(h, m) == trace;
    }
  }

  lemma {:induction false} EnablesEffect(trace: seq<Call>, m: Mode, n: nat)
    ensures FlagsOf(trace + Enables(m, n)) == FlagsOf(trace).(mass := (MscFamily(m) && n > 0) || FlagsOf(trace).mass)
  {
    if n == 0 {
      assert trace + Enables(m, n) == trace;
    } else {
      EnablesEffect(trace, m, n - 1);
      SeenEffect(trace + Enables(m, n - 1), EnableDone, m);
      assert trace + Enables(m, n) == trace + Enables(m, n - 1) + Seen(EnableDone, m);
    }
  }

  lemma {:induction false} OpenedEffect(trace: seq<Call>, s: Session)
    requires FlagsOf(trace) == CLEARED
    ensures FlagsOf(trace + Opened(s)) == ModeFlags(s.mode, s.enables)
  {
    SeenEffect(trace, PreEnable, s.mode);
    EnablesEffect(trace + Seen(PreEnable, s.mode), s.mode, s.enables);
    assert trace + Opened(s) == trace + Seen(PreEnable, s.mode) + Enables(s.mode, s.enables);
  }

  /** Leaving a mode clears what the mode had set. */
  lemma LeavingClears(m: Mode, n: nat)
    ensures FlagsAfter(DisableDone, m, FlagsAfter(PreDisable, m, ModeFlags(m, n))) == CLEARED
  {
  }

  lemma {:induction false} LeaveEffect(t: seq<Call>, m: Mode, n: nat)
    requires FlagsOf(t) == ModeFlags(m, n)
    ensures FlagsOf(t + Seen(PreDisable, m) + Seen(DisableDone, m)) == CLEARED
  {
    SeenEffect(t, PreDisable, m);
    SeenEffect(t + Seen(PreDisable, m), DisableDone, m);
    LeavingClears(m, n);
  }

  lemma {:induction false} SessionEffect(trace: seq<Call>, s: Session)
    requires FlagsOf(trace) == CLEARED
    ensures FlagsOf(trace + Complete(s)) == CLEARED
  {
    OpenedEffect(trace, s);
    LeaveEffect(trace + Opened(s), s.mode, s.enables);
    Concat(trace, Opened(s), Seen(PreDisable, s.mode), Seen(DisableDone, s.mode));
  }

  lemma {:induction false} CompleteEffect(past: seq<Session>)
    ensures FlagsOf(AllComplete(past)) == CLEARED
  {
    if past != [] {
      CompleteEffect(past[..|past| - 1]);
      SessionEffect(AllComplete(past[..|past| - 1]), past[|past| - 1]);
    }
  }

  /** From cleared flags, complete sessions and an open one leave mass storage on exactly in an
      enabled mode of the MSC family, the CD-ROM exactly in the modes that use it, and ejection
      forbidden exactly in MSC. */
  lemma {:induction false} FlagsFollowMode(past: seq<Session>, s: Session)
    ensures FlagsOf(AllComplete(past) + Opened(s)) == ModeFlags(s.mode, s.enables)
  {
    CompleteEffect(past);
    OpenedEffect(AllComplete(past), s);
  }
}
