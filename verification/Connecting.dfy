/** What a connecting pad is given, what is taken from it, and what an unusable one
    leaves behind (desktop/daemon/src/runtime.rs). */
module Connecting {
  import opened Options
  import opened Counters
  import opened TapRate
  import opened Daemon
  import opened Telemetry
  import opened Runtime
  import opened ForeignPads

  // ---- An incompatible pad ------------------------------------------------------------

  /** The events of one HelloAck, in the order the pad's answer raises them. */
  function Hello(env: Env, c: Ctl, owner: OwnerId, counters: CounterState, times: bool, info: DeviceInfo,
                 config: Option<DeviceConfig>, now: int): Out {
    var o := OnEvent(env, c, DeviceOwnership(owner), now).c;
    var n := OnEvent(env, o, DeviceCounters(counters), now).c;
    var t := OnEvent(env, n, PadPressTimes(times), now).c;
    OnEvent(env, t, DeviceConnected(info, config), now)
  }

  /** A pad that speaks another protocol leaves nothing of its counters, config or
      owner behind: what its answer wrote is put back, and nothing is sent or saved.
      What stays is whether it times its presses, which counts only while connected. */
  lemma IncompatiblePadLeavesNoTrace(env: Env, c: Ctl, owner: OwnerId, counters: CounterState, times: bool,
                                     info: DeviceInfo, config: Option<DeviceConfig>, now: int)
    requires info.protocolVersion != DEVICE_PROTOCOL_VERSION
    ensures var o := Hello(env, c, owner, counters, times, info, config, now);
            && o.actions == []
            && o.c.state == c.state.(deviceConnected := false, countersSource := FromPc, espCounters := None,
                                     incompatible := Some(info.protocolVersion))
            && o.c.pairing == c.pairing.(reportedOwner := None, preHelloCounters := None)
            && o.c.tap == c.tap.(padPressTimes := times, padEpoch := None)
            && o.c.data == c.data && o.c.clock == c.clock && o.c.show == c.show
  {
    hide NvsWiped, AdoptConfig, JudgeOwner, Register, Greet;
  }

  // ---- Its configuration -----------------------------------------------------------------

  /** The pad's settings, with what it does not keep left this PC's: the animations, and
      the endpoint when the pad has none. */
  predicate TakenOver(env: Env, theirs: DeviceConfig, ours: DeviceConfig, now: DeviceConfig) {
    && now.padSettings == theirs.padSettings && now.gameplayDisplayHz == theirs.gameplayDisplayHz
    && now.animations == ours.animations
    && now.tosuEndpoint == (if !env.blank(theirs.tosuEndpoint) then theirs.tosuEndpoint
                            else if !env.blank(ours.tosuEndpoint) then ours.tosuEndpoint else DEFAULT_ENDPOINT)
  }

  lemma AdoptedKeepsOurs(env: Env, theirs: DeviceConfig, ours: DeviceConfig)
    ensures TakenOver(env, theirs, ours, Adopted(env, theirs, ours))
  {}

  /** A pad that came back blank is told what we have and brings nothing: its report is
      remembered as one to restore, this PC's configuration stays and nothing is saved. Any
      other pad's configuration is taken over and saved, once. */
  lemma BlankPadIsRestoredExactly(env: Env, c: Ctl, info: DeviceInfo, config: Option<DeviceConfig>, now: int)
    requires info.protocolVersion == DEVICE_PROTOCOL_VERSION
    ensures var o := OnEvent(env, c, DeviceConnected(info, config), now);
            var s := o.c.state;
            && (s.nvsRestorePending <==> BackBlank(c, info))
            && (config.None? || BackBlank(c, info) ==>
                  s.config == c.state.config && forall a :: a in o.actions ==> !a.SaveDeviceConfig?)
            && (config.Some? && !BackBlank(c, info) ==>
                  && TakenOver(env, config.value, c.state.config, s.config)
                  && forall a :: a in o.actions && a.SaveDeviceConfig? <==> a == SaveDeviceConfig(s.config))
  {
    hide AdoptConfig, JudgeOwner, Register, Greet, Adopted;
    var st := StagesOf(env, c, info, config, now);
    BlankIs(c, info);
    AdoptStaysConnected(env, st.accepted, config);
    if config.Some? { AdoptedKeepsOurs(env, config.value, c.state.config); }
    StagesCarry(env, c, info, config, now);
    EarlierStagesDoNotGreet(env, st.accepted, info, config);
    EarlierStagesDoNotGreet(env, st.identified, info, config);
    EarlierStagesDoNotGreet(env, st.judged.c, info, config);
    GreetSavesNothing(st.registered.c, config.None? || st.wiped, now);
  }

  lemma GreetSavesNothing(c: Ctl, sendConfig: bool, now: int)
    ensures forall a :: a in Greet(c, sendConfig, now).actions ==> !a.SaveDeviceConfig?
    ensures Greet(c, sendConfig, now).c.state == c.state
  {
    forall a | a in Layouts(c.state.customLayouts) ensures a.SendLayout? { LayoutsAre(c.state.customLayouts, a); }
  }

  /** What a stage leaves as it was. */
  predicate Carries(c: Ctl, d: Ctl) {
    var a, b := c.state, d.state;
    && b.counters == a.counters && b.pcCounters == a.pcCounters && b.espCounters == a.espCounters
    && b.countersSource == a.countersSource && b.mode == a.mode && b.installId == a.installId
    && b.nvsRestorePending == a.nvsRestorePending && b.deviceInfo == a.deviceInfo
    && b.deviceConnected == a.deviceConnected && b.incompatible == a.incompatible
  }

  lemma AdoptCarries(env: Env, c: Ctl, config: Option<DeviceConfig>)
    ensures var d := AdoptConfig(env, c, config).c;
            && Carries(c, d) && d.pairing == c.pairing && d.state.pendingReplacement == c.state.pendingReplacement
  {
    hide Adopted;
  }

  lemma JudgeCarries(c: Ctl, info: DeviceInfo)
    ensures var d := JudgeOwner(c, info).c;
            && Carries(c, d) && d.state.config == c.state.config
            && d.state.pendingReplacement == c.state.pendingReplacement
            && d.pairing.known == c.pairing.known && d.pairing.hasInitialDbEntry == c.pairing.hasInitialDbEntry
  {
    hide OwnershipOf;
  }

  lemma RegisterCarries(env: Env, c: Ctl, info: DeviceInfo)
    ensures var d := Register(env, c, info).c;
            && Carries(c, d) && d.state.config == c.state.config
            && d.state.foreignPad == c.state.foreignPad && d.state.pendingTakeover == c.state.pendingTakeover
  {}

  /** What one stage leaves to the next. */
  lemma StagesCarry(env: Env, c: Ctl, info: DeviceInfo, config: Option<DeviceConfig>, now: int)
    requires info.protocolVersion == DEVICE_PROTOCOL_VERSION
    ensures var st := StagesOf(env, c, info, config, now);
            && Carries(st.accepted, st.adopted.c) && Carries(st.identified, st.judged.c)
            && Carries(st.judged.c, st.registered.c)
            && st.identified.pairing == c.pairing.(preHelloCounters := None)
            && st.identified.state.counters == c.state.counters && st.identified.state.installId == c.state.installId
            && st.judged.c.pairing.known == c.pairing.known
            && st.judged.c.pairing.hasInitialDbEntry == c.pairing.hasInitialDbEntry
    ensures var st := StagesOf(env, c, info, config, now);
            var a, j, r := st.adopted.c.state, st.judged.c.state, st.registered.c.state;
            && j.counters == r.counters == c.state.counters && j.mode == r.mode == c.state.mode
            && j.pcCounters == c.state.pcCounters && a.config == r.config
            && r.nvsRestorePending == NvsWiped(c, info)
            && r.deviceInfo == Some(info) && r.espCounters == Some(c.state.counters)
            && r.deviceConnected && r.countersSource == FromDevice && r.incompatible.None?
            && j.pendingReplacement == c.state.pendingReplacement
            && r.foreignPad == j.foreignPad && r.pendingTakeover == j.pendingTakeover
  {
    hide NvsWiped, Greet, AdoptConfig, JudgeOwner, Register;
    var st := StagesOf(env, c, info, config, now);
    AdoptCarries(env, st.accepted, config);
    JudgeCarries(st.identified, info);
    RegisterCarries(env, st.judged.c, info);
  }

  // ---- Whose it is -----------------------------------------------------------------------

  /** Whose a pad is, from the bytes it says its owner is: nobody's when they are all zero,
      someone else's when this install has an identity and they are other ones; the prompt
      then carries the presses it reported. A claim goes out for nobody's pad, and the
      silent takeover is asked for someone else's. */
  lemma OwnerDecides(env: Env, c: Ctl, info: DeviceInfo, config: Option<DeviceConfig>, now: int)
    requires info.protocolVersion == DEVICE_PROTOCOL_VERSION
    ensures var o := OnEvent(env, c, DeviceConnected(info, config), now);
            var owner := if c.pairing.reportedOwner.Some? then c.pairing.reportedOwner.value else [];
            var nobodys := forall b :: b in owner ==> b == 0;
            var foreign := c.state.installId.Some? && !nobodys && owner != c.state.installId.value;
            var n := c.state.counters;
            && (o.c.state.foreignPad <==> foreign)
            && o.c.state.pendingTakeover
               == (if foreign then Some(PendingTakeover(info.deviceId, n.key1, n.key2)) else None)
            && (ClaimOwnership in o.actions <==> c.state.installId.Some? && nobodys)
            && (TakeOverIfPadIsAhead in o.actions <==> foreign)
  {
    hide NvsWiped, AdoptConfig, JudgeOwner, Register, Greet;
    var st := StagesOf(env, c, info, config, now);
    StagesCarry(env, c, info, config, now);
    EarlierStagesDoNotGreet(env, st.accepted, info, config);
    EarlierStagesDoNotGreet(env, st.judged.c, info, config);
    JudgesOwner(st.identified, info);
    GreetClaimsNothing(st.registered.c, config.None? || st.wiped, now);
    RegisterOffersNothing(env, st.accepted, st.judged.c, info, config);
  }

  lemma JudgesOwner(c: Ctl, info: DeviceInfo)
    ensures var o := JudgeOwner(c, info);
            var owner := if c.pairing.reportedOwner.Some? then c.pairing.reportedOwner.value else [];
            var nobodys := forall b :: b in owner ==> b == 0;
            var foreign := c.state.installId.Some? && !nobodys && owner != c.state.installId.value;
            && (o.c.state.foreignPad <==> foreign)
            && o.c.state.pendingTakeover
               == (if foreign then Some(PendingTakeover(info.deviceId, c.state.counters.key1, c.state.counters.key2))
                   else None)
            && o.actions == if foreign then [TakeOverIfPadIsAhead]
                            else if c.state.installId.Some? && nobodys then [ClaimOwnership] else []
  {
    var owner := if c.pairing.reportedOwner.Some? then c.pairing.reportedOwner.value else [];
    if IsUnclaimed(owner) {
      forall b | b in owner ensures b == 0 { var i :| 0 <= i < |owner| && owner[i] == b; }
    } else {
      var i :| 0 <= i < |owner| && owner[i] != 0;
      assert owner[i] in owner;
    }
  }

  lemma GreetClaimsNothing(c: Ctl, sendConfig: bool, now: int)
    ensures forall a :: a in Greet(c, sendConfig, now).actions ==> !a.ClaimOwnership? && !a.TakeOverIfPadIsAhead?
    ensures Greet(c, sendConfig, now).c.state == c.state
  {
    forall a | a in Layouts(c.state.customLayouts) ensures a.SendLayout? { LayoutsAre(c.state.customLayouts, a); }
  }

  lemma RegisterOffersNothing(env: Env, c: Ctl, j: Ctl, info: DeviceInfo, config: Option<DeviceConfig>)
    ensures forall a :: a in Register(env, j, info).actions ==> !a.TakeOverIfPadIsAhead?
    ensures forall a :: a in AdoptConfig(env, c, config).actions ==> !a.TakeOverIfPadIsAhead? && !a.ClaimOwnership?
  {
    hide Adopted;
  }

  /** A whole HelloAck of a compatible pad: the counters are the pad's report, with this
      PC's map counts, and so is the copy of them; the pad is the connected one, and whether
      it times its presses is what it said. */
  lemma ReportIsTaken(env: Env, c: Ctl, owner: OwnerId, n: CounterState, times: bool, info: DeviceInfo,
                      config: Option<DeviceConfig>, now: int)
    requires info.protocolVersion == DEVICE_PROTOCOL_VERSION && n.deviceId != ""
    ensures var o := Hello(env, c, owner, n, times, info, config, now).c;
            var counters := n.(map1 := c.state.counters.map1, map2 := c.state.counters.map2);
            && o.state.counters == counters && o.state.espCounters == Some(counters)
            && o.state.countersSource == FromDevice && o.state.deviceInfo == Some(info)
            && o.state.deviceConnected && o.state.incompatible.None?
            && o.tap == c.tap.(padPressTimes := times, padEpoch := None)
            && (o.state.foreignPad <==> c.state.installId.Some? && owner != c.state.installId.value
                                        && exists b :: b in owner && b != 0)
  {
    hide NvsWiped, AdoptConfig, JudgeOwner, Register, Greet;
    var t := OnEvent(env, OnEvent(env, OnEvent(env, c, DeviceOwnership(owner), now).c, DeviceCounters(n), now).c,
                     PadPressTimes(times), now).c;
    StagesCarry(env, t, info, config, now);
    OwnerDecides(env, t, info, config, now);
    GreetSavesNothing(StagesOf(env, t, info, config, now).registered.c,
                      config.None? || StagesOf(env, t, info, config, now).wiped, now);
    ConnectedSameTap(env, t, info, config, now);
  }

  lemma ConnectedSameTap(env: Env, c: Ctl, info: DeviceInfo, config: Option<DeviceConfig>, now: int)
    ensures OnConnected(env, c, info, config, now).c.tap == c.tap
  {
    hide Greeting, NvsWiped, Adopted;
  }

  // ---- What goes out ------------------------------------------------------------------------

  /** What only the greeting emits. */
  predicate Greets(a: Action) { a.SendConfig? || a.SendLayout? || a.TriggerSync? || a.SendHostStatus? }

  lemma EarlierStagesDoNotGreet(env: Env, c: Ctl, info: DeviceInfo, config: Option<DeviceConfig>)
    ensures forall a :: a in AdoptConfig(env, c, config).actions ==> !Greets(a) && !a.ClaimOwnership?
    ensures forall a :: a in JudgeOwner(c, info).actions ==> !Greets(a) && !a.SaveDeviceConfig?
    ensures forall a :: a in Register(env, c, info).actions ==> !Greets(a) && !a.ClaimOwnership? && !a.SaveDeviceConfig?
  {
    hide Adopted, OwnershipOf;
  }

  lemma GreetingIs(c: Ctl, sendConfig: bool, a: Action)
    ensures a in Greeting(c, sendConfig) <==>
              || a == SendTimeSync || a == RequestDeviceStatus
              || (a == SendConfig(c.state.config) && sendConfig && !c.state.foreignPad)
              || a == HostStatus(c, c.state.tosuConnected, c.state.mode == Playing)
              || (a in Layouts(c.state.customLayouts) && !c.state.foreignPad)
              || (a == TriggerSync && SyncsOnConnect(c.state))
  {
    hide Layouts, SyncsOnConnect;
  }

  /** What a pad that is ours or nobody's is given on connect, neither more nor less:
      our configuration exactly when it brought none or came back blank, every custom
      layout and no other, the true host status, and a sync exactly when it is idle, the
      database is in order and no prompt is up. */
  lemma OwnPadIsGivenOurs(env: Env, c: Ctl, info: DeviceInfo, config: Option<DeviceConfig>, now: int, a: Action)
    requires info.protocolVersion == DEVICE_PROTOCOL_VERSION && !JudgedSomeone(c) && Greets(a)
    ensures var o := OnEvent(env, c, DeviceConnected(info, config), now);
            var s := o.c.state;
            && !s.foreignPad && s.deviceConnected && s.pendingTakeover.None?
            && (a in o.actions <==>
                  || (a == SendConfig(s.config) && (config.None? || BackBlank(c, info)))
                  || a == SendHostStatus(s.tosuConnected, s.mode == Playing, c.show.playId, s.osuActive)
                  || (a.SendLayout? && (a.screen, a.layout) in s.customLayouts)
                  || (a == TriggerSync && s.mode == Idle && s.storageError.None? && s.pendingReplacement.None?))
  {
    hide AdoptConfig, JudgeOwner, Register, Greeting, NvsWiped, Layouts, StagesOf;
    var st := StagesOf(env, c, info, config, now);
    StagesDoNotGreet(env, c, info, config, now);
    OursStages(env, c, info, config, now);
    BlankIs(c, info);
    GreetingIs(st.registered.c, config.None? || NvsWiped(c, info), a);
    LayoutsAre(st.registered.c.state.customLayouts, a);
    SameShow(env, c, info, config, now);
  }

  /** A known pad that reports a first generation without a press, while this PC holds
      presses of that very pad. */
  predicate BackBlank(c: Ctl, info: DeviceInfo) {
    var n := c.state.counters;
    && info.deviceId in c.pairing.known && n.generation in {0, 1} && n.key1 + n.key2 == 0
    && c.state.pcCounters.Some?
    && c.state.pcCounters.value.deviceId == info.deviceId
    && c.state.pcCounters.value.key1 + c.state.pcCounters.value.key2 > 0
  }

  lemma BlankIs(c: Ctl, info: DeviceInfo)
    ensures NvsWiped(c, info) <==> BackBlank(c, info)
  {}

  lemma LayoutsAre(layouts: seq<(Screen, Layout)>, a: Action)
    ensures a in Layouts(layouts) <==> a.SendLayout? && (a.screen, a.layout) in layouts
  {
    if a.SendLayout? && (a.screen, a.layout) in layouts {
      var i :| 0 <= i < |layouts| && layouts[i] == (a.screen, a.layout);
      assert Layouts(layouts)[i] == a;
    }
  }

  lemma SameShow(env: Env, c: Ctl, info: DeviceInfo, config: Option<DeviceConfig>, now: int)
    requires info.protocolVersion == DEVICE_PROTOCOL_VERSION
    ensures StagesOf(env, c, info, config, now).registered.c.show == c.show
  {
    hide NvsWiped, Greet, Adopted;
  }

  lemma StagesDoNotGreet(env: Env, c: Ctl, info: DeviceInfo, config: Option<DeviceConfig>, now: int)
    ensures var st := StagesOf(env, c, info, config, now);
            && (forall a :: a in st.adopted.actions ==> !Greets(a))
            && (forall a :: a in st.judged.actions ==> !Greets(a))
            && (forall a :: a in st.registered.actions ==> !Greets(a))
            && st.greeted == Greet(st.registered.c, config.None? || NvsWiped(c, info), now)
  {
    hide AdoptConfig, JudgeOwner, Register, Greet, NvsWiped;
    var st := StagesOf(env, c, info, config, now);
    EarlierStagesDoNotGreet(env, st.accepted, info, config);
    EarlierStagesDoNotGreet(env, st.identified, info, config);
    EarlierStagesDoNotGreet(env, st.judged.c, info, config);
  }

  lemma OursStages(env: Env, c: Ctl, info: DeviceInfo, config: Option<DeviceConfig>, now: int)
    requires !JudgedSomeone(c)
    ensures var s := StagesOf(env, c, info, config, now).registered.c.state;
            !s.foreignPad && s.pendingTakeover.None? && s.deviceConnected
  {
    hide Greet, NvsWiped, AdoptConfig, JudgeOwner, Register, JudgedSomeone;
    var st := StagesOf(env, c, info, config, now);
    AdoptLeaves(env, st.accepted, config);
    AdoptStaysConnected(env, st.accepted, config);
    SameJudgement(c, st.accepted);
    SameJudgement(st.accepted, st.identified);
    JudgedOurs(st.identified, info);
    RegisterLeaves(env, st.judged.c, info);
    RegisterStaysConnected(env, st.judged.c, info);
  }

  lemma SameJudgement(a: Ctl, b: Ctl)
    requires a.state.installId == b.state.installId && a.pairing.reportedOwner == b.pairing.reportedOwner
    ensures JudgedSomeone(a) == JudgedSomeone(b)
  {}

  lemma JudgedOurs(c: Ctl, info: DeviceInfo)
    requires !JudgedSomeone(c)
    ensures var s := JudgeOwner(c, info).c.state;
            !s.foreignPad && s.pendingTakeover.None? && s.deviceConnected == c.state.deviceConnected
  {
    hide OwnershipOf;
  }

  lemma RegisterStaysConnected(env: Env, c: Ctl, info: DeviceInfo)
    ensures Register(env, c, info).c.state.deviceConnected == c.state.deviceConnected
  {}

  lemma AdoptStaysConnected(env: Env, c: Ctl, config: Option<DeviceConfig>)
    ensures AdoptConfig(env, c, config).c.state.deviceConnected == c.state.deviceConnected
    ensures AdoptConfig(env, c, config).c.state.config
         == if config.Some? && !c.state.nvsRestorePending then Adopted(env, config.value, c.state.config)
            else c.state.config
    ensures forall a :: a in AdoptConfig(env, c, config).actions <==>
              && config.Some? && !c.state.nvsRestorePending
              && a == SaveDeviceConfig(Adopted(env, config.value, c.state.config))
  {
    hide Adopted;
  }

  /** After a connect the pad is known, or its replacement prompt is up: the prompt is
      raised exactly for a new, nearly blank pad beside known ones when this PC has
      presses it lacks, and names one of those. A new pad's counters go into the database
      exactly when that is idle. */
  lemma PadIsKnownOrAskedAbout(env: Env, c: Ctl, info: DeviceInfo, config: Option<DeviceConfig>, now: int)
    requires info.protocolVersion == DEVICE_PROTOCOL_VERSION
    ensures var o := OnEvent(env, c, DeviceConnected(info, config), now);
            var p, n, pc := c.pairing, c.state.counters, c.state.pcCounters;
            var asks := && info.deviceId !in p.known && (p.known != {} || p.hasInitialDbEntry)
                        && n.generation <= 1 && n.key1 < 1000 && n.key2 < 1000
                        && pc.Some? && (n.key1 < pc.value.key1 || n.key2 < pc.value.key2);
            && o.c.pairing.known == (if asks then p.known else p.known + {info.deviceId})
            && o.c.state.pendingReplacement
               == (if !asks then c.state.pendingReplacement
                   else Some(if p.known == {} then "previous" else env.firstKnown(p.known)))
            && (forall a :: a in o.actions && a.SaveInitialDeviceState? <==>
                  a == SaveInitialDeviceState(info, n) && !asks && info.deviceId !in p.known && c.state.mode == Idle)
            && (forall a :: a in o.actions && a.TouchDeviceLastSeen? <==>
                  a == TouchDeviceLastSeen(info.deviceId) && !asks && c.state.mode == Idle)
            && (!asks && c.state.mode != Idle ==> o.c.pairing.pendingLastSeen == Some(info.deviceId))
  {
    hide NvsWiped, AdoptConfig, JudgeOwner, Register, Greet;
    var st := StagesOf(env, c, info, config, now);
    StagesCarry(env, c, info, config, now);
    Registers(env, st.judged.c, info);
    OthersEnterNothing(env, st.accepted, info, config);
    OthersEnterNothing(env, st.identified, info, config);
    GreetEntersNothing(st.registered.c, config.None? || st.wiped, now);
  }

  /** A pad whose replacement prompt has been answered is not asked about again: when it goes
      and comes back, no prompt is raised that was not up. While the prompt stays up, its
      pad is not made known. */
  lemma AnsweredIsNotAskedAgain(env: Env, c: Ctl, shared: DaemonState, info: DeviceInfo, config: Option<DeviceConfig>,
                                answered: DaemonState, again: DaemonState, config': Option<DeviceConfig>,
                                now: int, later: int, last: int)
    requires info.protocolVersion == DEVICE_PROTOCOL_VERSION && answered.deviceInfo == Some(info)
    ensures var asked := Apply(env, c, shared, DeviceConnected(info, config), now).c;
            var left := Apply(env, asked, answered, DeviceDisconnected, later).c;
            var back := Apply(env, left, again, DeviceConnected(info, config'), last).c;
            && (answered.pendingReplacement.None? ==> back.state.pendingReplacement == again.pendingReplacement)
            && (answered.pendingReplacement.Some? ==> left.pairing.known == asked.pairing.known)
  {
    hide OnConnected;
    var before := Remember(c.(state := shared));
    PadIsKnownOrAskedAbout(env, before, info, config, now);
    var asked := Apply(env, c, shared, DeviceConnected(info, config), now).c;
    var left := Apply(env, asked, answered, DeviceDisconnected, later).c;
    assert left.pairing.known == Remember(asked.(state := answered)).pairing.known;
    PadIsKnownOrAskedAbout(env, Remember(left.(state := again)), info, config', last);
  }

  lemma Registers(env: Env, c: Ctl, info: DeviceInfo)
    ensures var o := Register(env, c, info);
            var p, n, pc := c.pairing, c.state.counters, c.state.pcCounters;
            var asks := && info.deviceId !in p.known && (p.known != {} || p.hasInitialDbEntry)
                        && n.generation <= 1 && n.key1 < 1000 && n.key2 < 1000
                        && pc.Some? && (n.key1 < pc.value.key1 || n.key2 < pc.value.key2);
            && o.c.pairing.known == (if asks then p.known else p.known + {info.deviceId})
            && o.c.state.pendingReplacement
               == (if !asks then c.state.pendingReplacement
                   else Some(if p.known == {} then "previous" else env.firstKnown(p.known)))
            && (forall a :: a in o.actions && a.SaveInitialDeviceState? <==>
                  a == SaveInitialDeviceState(info, n) && !asks && info.deviceId !in p.known && c.state.mode == Idle)
            && (forall a :: a in o.actions && a.TouchDeviceLastSeen? <==>
                  a == TouchDeviceLastSeen(info.deviceId) && !asks && c.state.mode == Idle)
            && (!asks && c.state.mode != Idle ==> o.c.pairing.pendingLastSeen == Some(info.deviceId))
            && (!asks ==> o.c.state == c.state)
  {}

  lemma OthersEnterNothing(env: Env, c: Ctl, info: DeviceInfo, config: Option<DeviceConfig>)
    ensures forall a :: a in AdoptConfig(env, c, config).actions || a in JudgeOwner(c, info).actions ==>
              !a.SaveInitialDeviceState? && !a.TouchDeviceLastSeen?
  {
    hide Adopted, OwnershipOf;
  }

  lemma GreetEntersNothing(c: Ctl, sendConfig: bool, now: int)
    ensures var o := Greet(c, sendConfig, now);
            && (forall a :: a in o.actions ==> !a.SaveInitialDeviceState? && !a.TouchDeviceLastSeen?)
            && o.c.state == c.state && o.c.pairing.known == c.pairing.known
            && o.c.pairing.pendingLastSeen == c.pairing.pendingLastSeen
  {
    forall a | a in Layouts(c.state.customLayouts) ensures a.SendLayout? { LayoutsAre(c.state.customLayouts, a); }
  }

  /** A connect starts over what is owed to the pad: nothing counts as sent, what is known
      stays, the periodic waits begin now, and the presses last synced are those reported. */
  lemma ConnectStartsOver(env: Env, c: Ctl, info: DeviceInfo, config: Option<DeviceConfig>, now: int)
    requires info.protocolVersion == DEVICE_PROTOCOL_VERSION
    ensures var o := OnEvent(env, c, DeviceConnected(info, config), now).c;
            && o.data == c.data.(sent := map[])
            && o.clock == c.clock.(lastPeriodicSync := now, lastPeriodicTimeSync := now)
            && o.pairing.lastSyncedCounters == Some(c.state.counters)
            && o.pairing.reportedOwner.None? && o.pairing.preHelloCounters.None?
  {
    hide NvsWiped, AdoptConfig, JudgeOwner, Register, Greeting;
    var st := StagesOf(env, c, info, config, now);
    StagesCarry(env, c, info, config, now);
    StagesKeepData(env, st.accepted, info, config);
    StagesKeepData(env, st.identified, info, config);
    StagesKeepData(env, st.judged.c, info, config);
  }

  lemma StagesKeepData(env: Env, c: Ctl, info: DeviceInfo, config: Option<DeviceConfig>)
    ensures var a, j, r := AdoptConfig(env, c, config).c, JudgeOwner(c, info).c, Register(env, c, info).c;
            && a.data == j.data == r.data == c.data && a.clock == j.clock == r.clock == c.clock
            && j.pairing.reportedOwner.None? && r.pairing.reportedOwner == c.pairing.reportedOwner
            && j.pairing.preHelloCounters == r.pairing.preHelloCounters == c.pairing.preHelloCounters
  {
    hide Adopted, OwnershipOf;
  }
}
