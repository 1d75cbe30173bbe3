/** What the events that reach the USB daemon of usbd/usb_app.c bring about, event by event: the
    mode a message, a switch request, a boot kind or a cable leads to, and what becomes of state, hooks
    and connection. Modes are numbers, as in usbd/usb_defines.h. */
module UsbEvents {
  import opened Options
  import opened UsbModes
  import opened UsbSpec

  // ---- the tables, by text ----

  /** The mode that an application's message asks for. */
  lemma Message0() ensures Requested("usb_unload_driver", 0) {}
  lemma Message2() ensures Requested("usb_mode_ngp", 2) {}
  lemma Message3() ensures Requested("usb_mode_mtp", 3) {}
  lemma Message4() ensures Requested("usb_mode_msc", 4) {}
  lemma Message5() ensures Requested("usb_mode_msc_only", 5) {}
  lemma Message6() ensures Requested("usb_mode_hid", 6) {}
  lemma Message7() ensures Requested("usb_mode_ngp_adb", 7) {}
  lemma Message8() ensures Requested("usb_mode_mtp_adb", 8) {}
  lemma Message9() ensures Requested("usb_mode_msc_adb", 9) {}
  lemma Message10() ensures Requested("usb_mode_adb", 10) {}
  lemma Message12() ensures Requested("usb_mode_modem", 12) {}
  lemma Message13() ensures Requested("usb_mode_modem_adb", 13) {}
  lemma Message15() ensures Requested("usb_mode_charge_only", 15) {}
  lemma Message16() ensures Requested("usb_mode_charge_adb", 16) {}
  lemma Message17() ensures Requested("usb_mode_rndis", 17) {}
  lemma Message18() ensures Requested("usb_mode_rndis_adb", 18) {}
  lemma Message20() ensures Requested("usb_mode_acm_acm1_acm2_acm3_eth", 20) {}
  lemma Message21() ensures Requested("usb_mode_acm_acm1_acm2_acm3_eth_adb", 21) {}
  lemma Message22() ensures Requested("usb_mode_rndis_acm_acm1_acm2_acm3_eth", 22) {}
  lemma Message23() ensures Requested("usb_mode_rndis_acm_acm1_acm2_acm3_eth_adb", 23) {}

  lemma Messages()
    ensures Requested("usb_unload_driver", 0)
    ensures Requested("usb_mode_ngp", 2)
    ensures Requested("usb_mode_mtp", 3)
    ensures Requested("usb_mode_msc", 4)
    ensures Requested("usb_mode_msc_only", 5)
    ensures Requested("usb_mode_hid", 6)
    ensures Requested("usb_mode_ngp_adb", 7)
    ensures Requested("usb_mode_mtp_adb", 8)
    ensures Requested("usb_mode_msc_adb", 9)
    ensures Requested("usb_mode_adb", 10)
    ensures Requested("usb_mode_modem", 12)
    ensures Requested("usb_mode_modem_adb", 13)
    ensures Requested("usb_mode_charge_only", 15)
    ensures Requested("usb_mode_charge_adb", 16)
    ensures Requested("usb_mode_rndis", 17)
    ensures Requested("usb_mode_rndis_adb", 18)
    ensures Requested("usb_mode_acm_acm1_acm2_acm3_eth", 20)
    ensures Requested("usb_mode_acm_acm1_acm2_acm3_eth_adb", 21)
    ensures Requested("usb_mode_rndis_acm_acm1_acm2_acm3_eth", 22)
    ensures Requested("usb_mode_rndis_acm_acm1_acm2_acm3_eth_adb", 23)
  {
    Message0(); Message2(); Message3(); Message4(); Message5();
    Message6(); Message7(); Message8(); Message9(); Message10();
    Message12(); Message13(); Message15(); Message16(); Message17();
    Message18(); Message20(); Message21(); Message22(); Message23();
  }

  /** The mode that the PC asks for by a name. */
  lemma Named1() ensures SwitchedTo("acm_eth_mtp", 1) {}
  lemma Named3() ensures SwitchedTo("mtp", 3) {}
  lemma Named4() ensures SwitchedTo("msc", 4) {}
  lemma Named6() ensures SwitchedTo("hid", 6) {}
  lemma Named7() ensures SwitchedTo("acm_eth_mtp_adb", 7) {}
  lemma Named8() ensures SwitchedTo("mtp_adb", 8) {}
  lemma Named9() ensures SwitchedTo("msc_adb", 9) {}
  lemma Named10() ensures SwitchedTo("android_adb_only", 10) {}
  lemma Named12() ensures SwitchedTo("acm", 12) {}
  lemma Named13() ensures SwitchedTo("modem_adb", 13) {}
  lemma Named15() ensures SwitchedTo("charge_only", 15) {}
  lemma Named16() ensures SwitchedTo("charge_adb", 16) {}
  lemma Named17() ensures SwitchedTo("rndis", 17) {}
  lemma Named18() ensures SwitchedTo("rndis_adb", 18) {}
  lemma Named20() ensures SwitchedTo("acm_acm1_acm2_acm3_eth", 20) {}
  lemma Named21() ensures SwitchedTo("acm_acm1_acm2_acm3_eth_adb", 21) {}
  lemma Named22() ensures SwitchedTo("rndis_acm_acm1_acm2_acm3_eth", 22) {}
  lemma Named23() ensures SwitchedTo("rndis_acm_acm1_acm2_acm3_eth_adb", 23) {}

  lemma Names()
    ensures SwitchedTo("acm_eth_mtp", 1)
    ensures SwitchedTo("mtp", 3)
    ensures SwitchedTo("msc", 4)
    ensures SwitchedTo("hid", 6)
    ensures SwitchedTo("acm_eth_mtp_adb", 7)
    ensures SwitchedTo("mtp_adb", 8)
    ensures SwitchedTo("msc_adb", 9)
    ensures SwitchedTo("android_adb_only", 10)
    ensures SwitchedTo("acm", 12)
    ensures SwitchedTo("modem_adb", 13)
    ensures SwitchedTo("charge_only", 15)
    ensures SwitchedTo("charge_adb", 16)
    ensures SwitchedTo("rndis", 17)
    ensures SwitchedTo("rndis_adb", 18)
    ensures SwitchedTo("acm_acm1_acm2_acm3_eth", 20)
    ensures SwitchedTo("acm_acm1_acm2_acm3_eth_adb", 21)
    ensures SwitchedTo("rndis_acm_acm1_acm2_acm3_eth", 22)
    ensures SwitchedTo("rndis_acm_acm1_acm2_acm3_eth_adb", 23)
  {
    Named1(); Named3(); Named4(); Named6(); Named7();
    Named8(); Named9(); Named10(); Named12(); Named13();
    Named15(); Named16(); Named17(); Named18(); Named20();
    Named21(); Named22(); Named23();
  }

  /** Modes the PC does not name: the unused one, the CD-ROMs, the single mass storage, and those of
      factory and tablet. */
  lemma NotNamed()
    ensures forall m: Mode :: Switchable(m) <==> m !in {0, 2, 5, 11, 14, 19, 24, 25}
  {
  }

  /** Which hooks a mode has. */
  lemma HooksOf(m: Mode)
    ensures HasHook(PreEnable, m) <==> m in {1, 2, 4, 7, 8, 10, 13, 19}
    ensures HasHook(EnableDone, m) <==> m in {1, 2, 3, 4, 5, 7, 8, 9, 11, 12, 13, 14, 19}
    ensures HasHook(PreDisable, m) <==> m in {1, 2, 4, 5, 7, 8, 9, 10, 11, 12, 13, 14, 19}
    ensures HasHook(DisableDone, m) <==> m in {2, 4, 19}
  {
  }

  /** Mass storage belongs to modes 4, 5 and 9, the CD-ROM to 2, 4 and 19, and ejection is forbidden
      in mode 4; the application is told of modes 1, 3, 4, 5, 7, 8 and 9. */
  lemma FamiliesOf(m: Mode)
    ensures MscFamily(m) <==> m in {4, 5, 9}
    ensures CdromFamily(m) <==> m in {2, 4, 19}
    ensures Announced(m) <==> m in {1, 3, 4, 5, 7, 8, 9}
    ensures ModeFlags(m, 1).eject <==> m != 4
  {
  }

  // ---- the application ----

  /** A turn in which only the application has something to say. */
  function Said(text: string, replyOk: bool, doneOk: bool): Input {
    Input(NoUEvent, NoDeviceEvent, None, Message(text, replyOk, doneOk))
  }

  /** A connected application gets the mode it asks for while a USB cable is in, and keeps its
      connection. */
  lemma RequestIsHonoured(s: View, text: string, m: nat)
    requires s.appFd >= 0 && s.cable == CABLE_USB && s.online && 0 < m < 26 && Requested(text, m)
    ensures var t := OnTurn(NORMAL, s, Said(text, true, true)); t.mode == m && t.appFd == s.appFd
    ensures s.mode != m ==> OnTurn(NORMAL, s, Said(text, true, true)).changes == s.changes + [Change(m, true)]
  {
    OneRequest(text, m);
  }

  /** Without a cable a request changes no mode, but the driver is unloaded on request at any time. */
  lemma RequestOffline(s: View, text: string, m: nat)
    requires s.appFd >= 0 && s.cable == CABLE_UNKNOWN && !s.online && m < 26 && Requested(text, m)
    ensures OnTurn(NORMAL, s, Said(text, true, true)).mode == if m == 0 then 0 else s.mode
  {
    OneRequest(text, m);
  }

  /** Under a factory cable, or in an alternate boot, nothing it says counts; nor does a message that
      is no request. */
  lemma RequestIgnored(boot: Boot, s: View, text: string, replyOk: bool, doneOk: bool)
    requires s.appFd >= 0 && (boot != NORMAL || s.cable == CABLE_FACTORY || Requested(text, 26))
    ensures OnTurn(boot, s, Said(text, replyOk, doneOk)) == s
  {
    if boot == NORMAL && s.cable != CABLE_FACTORY { OneRequest(text, 26); }
  }

  /** An application that cannot be answered is dropped, and its request not followed. */
  lemma RequestUnanswered(s: View, text: string, m: nat, doneOk: bool)
    requires s.appFd >= 0 && s.cable != CABLE_FACTORY && 0 < m < 26 && Requested(text, m)
    ensures var t := OnTurn(NORMAL, s, Said(text, false, doneOk)); t.mode == s.mode && t.appFd == -1
  {
    OneRequest(text, m);
    AskedIsAnswered(text, m);
  }

  /** Asked for the mode it is in, the daemon says so; if it cannot, the application is dropped. */
  lemma RequestAgain(s: View, text: string, doneOk: bool)
    requires s.appFd >= 0 && s.cable != CABLE_FACTORY && 0 < s.mode && Requested(text, s.mode)
    ensures OnTurn(NORMAL, s, Said(text, true, doneOk)) == s.(appFd := if s.mode in {1, 3, 4, 5, 7, 8, 9} && !doneOk then -1 else s.appFd)
  {
    OneRequest(text, s.mode);
  }

  lemma AskedIsAnswered(text: string, m: nat)
    requires 0 < m < 26 && Requested(text, m)
    ensures Answered(m)
  {
  }

  /** One application at a time is listened to, from the turn after it has connected, until it closes
      its socket or cannot be read. */
  lemma Connection(s: View, fd: nat, e: AppEvent)
    ensures s.appFd == -1 ==> OnTurn(NORMAL, s, Input(NoUEvent, NoDeviceEvent, Some(fd), e)) == s.(appFd := fd)
    ensures s.appFd >= 0 && (e.Closed? || e.ReadFailed?) ==>
              OnTurn(NORMAL, s, Input(NoUEvent, NoDeviceEvent, Some(fd), e)) == s.(appFd := -1)
    ensures s.appFd >= 0 && e.NoAppEvent? ==> OnTurn(NORMAL, s, Input(NoUEvent, NoDeviceEvent, Some(fd), e)) == s
  {
  }

  // ---- the cable ----

  function Plugging(cable: Cable, factoryAdb: bool, adb: Adb, ok: bool): Input {
    Input(Switched(cable, factoryAdb, adb, ok), NoDeviceEvent, None, NoAppEvent)
  }

  /** A cable that comes or goes: state, online flag and request count follow it. */
  lemma CableSets(boot: Boot, s: View, cable: Cable, factoryAdb: bool, adb: Adb, ok: bool)
    ensures var t := OnTurn(boot, s, Plugging(cable, factoryAdb, adb, ok));
            && t.cable == cable && t.online == (cable != CABLE_UNKNOWN)
            && t.states == s.states + [if cable == CABLE_UNKNOWN then DETACHED else ATTACHED]
            && t.desCount == (if cable == CABLE_UNKNOWN then 0 else s.desCount)
  {
  }

  /** A normal boot leaves the mode to the application, which is told of the cable and dropped if it
      cannot be. */
  lemma CableInNormalBoot(s: View, cable: Cable, factoryAdb: bool, adb: Adb, ok: bool)
    requires cable != CABLE_FACTORY
    ensures var t := OnTurn(NORMAL, s, Plugging(cable, factoryAdb, adb, ok));
            t.mode == s.mode && t.trace == s.trace && t.appFd == (if s.appFd >= 0 && !ok then -1 else s.appFd)
  {
  }

  /** A factory cable forces the network modes, 14 with adb and 11 without, in every boot. */
  lemma FactoryCable(boot: Boot, s: View, factoryAdb: bool, adb: Adb, ok: bool)
    ensures OnTurn(boot, s, Plugging(CABLE_FACTORY, factoryAdb, adb, ok)).mode == if factoryAdb then 14 else 11
  {
  }

  /** An alternate boot starts in its own mode whenever a USB cable comes, and forgets tethering. */
  lemma CableInAlternateBoot(boot: Boot, s: View, factoryAdb: bool, adb: Adb, ok: bool)
    requires boot != NORMAL
    ensures var t := OnTurn(boot, s, Plugging(CABLE_USB, factoryAdb, adb, ok));
            && !t.tethering
            && t.mode == (match boot
                          case DEBUG => (if adb == 0 then 4 else 9)
                          case BPTOOLS => (if adb == 0 then 20 else 21)
                          case _ => (if adb == 0 then 2 else 25))
    ensures OnTurn(boot, s, Plugging(CABLE_UNKNOWN, factoryAdb, adb, ok)).mode == s.mode
  {
  }

  // ---- the driver ----

  function Driver(tag: string, adb: Field, tether: Field, enum: Enum, factoryAdb: bool, now: Adb, ok: bool): Input {
    Input(NoUEvent, Device(tag, adb, tether, enum, factoryAdb, now, now, ok, ok), None, NoAppEvent)
  }

  /** The PC asks a CD-ROM for a mode it may name: an ordinary phone shows its portal, a tablet its
      network, over RNDIS while tethering. */
  lemma SwitchFromCdrom(boot: Boot, s: View, tag: string, factoryAdb: bool, now: Adb, ok: bool)
    requires s.cable == CABLE_USB && s.online && (s.mode == 2 || s.mode == 19) && now >= 0
    requires tag != "none" && exists m: nat :: m < 26 && SwitchedTo(tag, m)
    ensures OnTurn(boot, s, Driver(tag, Other, Other, NoEnum, factoryAdb, now, ok)).mode ==
            if boot != TABLET then (if now == 0 then 1 else 7)
            else if s.tethering then (if now == 0 then 17 else 18)
            else (if now == 0 then 24 else 25)
  {
    var m: nat :| m < 26 && SwitchedTo(tag, m);
    OneSwitch(tag, m);
  }

  /** In any other mode the request is passed to the application, and the mode stays. */
  lemma SwitchElsewhere(s: View, tag: string, m: nat, factoryAdb: bool, now: Adb, ok: bool)
    requires s.cable == CABLE_USB && s.online && s.mode != 2 && s.mode != 19 && now >= 0
    requires tag != "none" && m < 26 && SwitchedTo(tag, m)
    ensures var t := OnTurn(NORMAL, s, Driver(tag, Other, Other, NoEnum, factoryAdb, now, ok));
            t.mode == s.mode && t.appFd == (if s.appFd >= 0 && !ok then -1 else s.appFd)
  {
    OneSwitch(tag, m);
  }

  /** The second CD-ROM has a request of its own, from any mode. */
  lemma SwitchToSecondCdrom(boot: Boot, s: View, factoryAdb: bool, now: Adb, ok: bool)
    requires s.cable == CABLE_USB && s.online && now >= 0
    ensures OnTurn(boot, s, Driver("cdrom2", Other, Other, NoEnum, factoryAdb, now, ok)).mode == 19
  {
    NoModeNamedCdrom2();
  }

  lemma NoModeNamedCdrom2()
    ensures SwitchOf("cdrom2") == 26
  {
    Unnamed();
    OneSwitch("cdrom2", 26);
  }

  lemma Unnamed() ensures SwitchedTo("cdrom2", 26) {}

  /** adb and tethering fields under the alternate boots. */
  lemma AlternateFields(boot: Boot, s: View, adb: Field, tether: Field, factoryAdb: bool, now: Adb, ok: bool)
    requires boot != NORMAL && s.cable == CABLE_USB && s.online && now >= 0 && (adb != Other || tether != Other)
    ensures var t := OnTurn(boot, s, Driver("none", adb, tether, NoEnum, factoryAdb, now, ok));
            var on := if adb == Other then now == 1 else adb == Enable;
            && t.tethering == (if tether == Other then s.tethering else tether == Enable)
            && t.mode == (match boot
                          case DEBUG => (if adb == Enable || tether == Enable then 9 else 4)
                          case BPTOOLS => (if on then (if t.tethering then 23 else 21) else if t.tethering then 22 else 20)
                          case _ => (if on then (if t.tethering then 18 else 25) else 2))
  {
  }

  /** Under a factory cable the adb field alone counts. */
  lemma FactoryFields(boot: Boot, s: View, tag: string, adb: Field, tether: Field, enum: Enum, factoryAdb: bool, now: Adb, ok: bool)
    requires s.cable == CABLE_FACTORY
    ensures var t := OnTurn(boot, s, Driver(tag, adb, tether, enum, factoryAdb, now, ok));
            && t.mode == (if adb == Enable && factoryAdb then 14 else if adb == Disable then 11 else s.mode)
            && t.state == s.state && t.tethering == s.tethering
  {
  }

  /** The first descriptor request since a detach shows that enumeration is in progress; the end of
      enumeration runs the mode's enable_done. The application is told, and dropped if it cannot be. */
  lemma Enumeration(s: View, factoryAdb: bool, now: Adb, ok: bool)
    requires s.cable == CABLE_USB && s.online
    ensures var t := OnTurn(NORMAL, s, Driver("none", Other, Other, GetDesc, factoryAdb, now, ok));
            && t.mode == s.mode && t.trace == s.trace
            && (s.desCount == 0 ==> t.state == IN_PROGRESS && t.appFd == (if s.appFd >= 0 && !ok then -1 else s.appFd))
    ensures var t := OnTurn(NORMAL, s, Driver("none", Other, Other, Enumerated, factoryAdb, now, ok));
            && t.mode == s.mode && t.state == ENUMERATED
            && t.trace == s.trace + (if s.mode in {1, 2, 3, 4, 5, 7, 8, 9, 11, 12, 13, 14, 19} then [Call(EnableDone, s.mode)] else [])
            && t.appFd == (if s.mode in {1, 3, 4, 5, 7, 8, 9} && s.appFd >= 0 && !ok then -1 else s.appFd)
  {
  }

  /** Without the adb property a switch request is dropped. */
  lemma NoProperty(boot: Boot, s: View, tag: string, factoryAdb: bool, ok: bool)
    requires s.cable == CABLE_USB && s.online
    ensures OnTurn(boot, s, Driver(tag, Other, Other, NoEnum, factoryAdb, -1, ok)) == s
  {
  }

  // ---- turns and the start ----

  /** In one turn the cable comes first, then the driver, then the application. */
  lemma TurnInOrder(s: View, i: Input)
    ensures var cable := OnTurn(NORMAL, s, Input(i.uevent, NoDeviceEvent, None, NoAppEvent));
            var driver := OnTurn(NORMAL, cable, Input(NoUEvent, i.device, None, NoAppEvent));
            OnTurn(NORMAL, s, i) == OnTurn(NORMAL, driver, Input(NoUEvent, NoDeviceEvent, i.connect, i.app))
  {
  }

  /** Where the daemon starts. */
  lemma Starting(boot: Boot, cable: Cable, factoryAdb: bool, adb: Adb)
    ensures var s := Start(boot, cable, factoryAdb, adb);
            && s.cable == cable && s.online == (cable != CABLE_UNKNOWN) && s.appFd == -1 && !s.tethering && s.desCount == 0
            && s.state == (if cable == CABLE_UNKNOWN then DEFAULT else ATTACHED)
            && s.mode == (if cable == CABLE_UNKNOWN then 0
                          else if cable == CABLE_FACTORY then (if factoryAdb then 14 else 11)
                          else match boot
                               case NORMAL => 0
                               case DEBUG => (if adb == 0 then 4 else 9)
                               case BPTOOLS => (if adb == 0 then 20 else 21)
                               case TABLET => (if adb == 0 then 2 else 25))
  {
  }

  /** A change of mode runs the hooks of the old mode and then those of the new one. */
  lemma ChangeRunsHooks(s: View, m: Mode)
    ensures Switch(s, m).mode == m
    ensures Switch(s, m).trace ==
            s.trace + (if s.mode in {1, 2, 4, 5, 7, 8, 9, 10, 11, 12, 13, 14, 19} then [Call(PreDisable, s.mode)] else [])
                    + (if s.mode in {2, 4, 19} then [Call(DisableDone, s.mode)] else [])
                    + (if m in {1, 2, 4, 7, 8, 10, 13, 19} then [Call(PreEnable, m)] else [])
  {
  }
}
