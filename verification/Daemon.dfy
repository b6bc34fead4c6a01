/** The daemon's shared state and the one question every pad-writing path asks of
    it (desktop/daemon/src/runtime.rs). */
module Daemon {
  import opened Options
  import opened Counters
  import opened TapRate

  datatype Mode = Idle | Playing | Cooldown | Sync

  /** A value shown on the pad. */
  datatype Value = Clear | Number(n: real) | Text(text: string)

  /** A value source on the pad: one byte. */
  type Source = s: nat | s < 256

  type Values = map<Source, Value>

  type Update = seq<(Source, Value)>

  datatype DeviceInfo = DeviceInfo(deviceId: string, protocolVersion: nat, heCalibration: bool)

  /** How the pad's Hall effect keys stand, and how far a calibration is. */
  datatype HeCalibration = HeCalibration(isLocked: bool, key1Calibrated: bool, key2Calibrated: bool) {
    predicate Uncalibrated() { isLocked || !key1Calibrated || !key2Calibrated }
  }

  datatype HeProgress = HeProgress(success: bool, detail: seq<nat>)

  type Latency = seq<nat>

  const DEVICE_PROTOCOL_VERSION := 1

  datatype Trigger = SS | S | A | B | C | D

  const NO_ANIMATION := 0

  /** The animation picked for each grade. */
  datatype ResultAnimations = ResultAnimations(ss: nat, s: nat, a: nat, b: nat, c: nat, d: nat) {
    function Get(t: Trigger): nat {
      match t
      case SS => ss
      case S => s
      case A => a
      case B => b
      case C => c
      case D => d
    }
  }

  datatype DeviceConfig = DeviceConfig(
    gameplayDisplayHz: nat, tosuEndpoint: string, animations: ResultAnimations, padSettings: seq<nat>)

  type Screen = nat
  type Layout = string

  /** The custom layouts, one a screen. */
  function InsertLayout(layouts: seq<(Screen, Layout)>, p: (Screen, Layout)): seq<(Screen, Layout)>
    decreases |layouts|
  {
    if layouts == [] then [p]
    else if layouts[0].0 == p.0 then [p] + layouts[1..]
    else [layouts[0]] + InsertLayout(layouts[1..], p)
  }

  function InsertLayouts(layouts: seq<(Screen, Layout)>, more: seq<(Screen, Layout)>): seq<(Screen, Layout)>
    decreases |more|
  {
    if more == [] then layouts
    else InsertLayout(InsertLayouts(layouts, more[..|more| - 1]), more[|more| - 1])
  }

  function RemoveLayout(layouts: seq<(Screen, Layout)>, screen: Screen): seq<(Screen, Layout)>
    decreases |layouts|
  {
    if layouts == [] then []
    else if layouts[0].0 == screen then layouts[1..]
    else [layouts[0]] + RemoveLayout(layouts[1..], screen)
  }

  /** The layout of a screen among them. */
  function LayoutOf(layouts: seq<(Screen, Layout)>, screen: Screen): Option<Layout>
    decreases |layouts|
  {
    if layouts == [] then None
    else if layouts[0].0 == screen then Some(layouts[0].1)
    else LayoutOf(layouts[1..], screen)
  }

  lemma {:induction false} InsertedLayout(layouts: seq<(Screen, Layout)>, p: (Screen, Layout), screen: Screen)
    ensures LayoutOf(InsertLayout(layouts, p), screen) == if screen == p.0 then Some(p.1) else LayoutOf(layouts, screen)
    decreases |layouts|
  {
    if layouts != [] && layouts[0].0 != p.0 {
      InsertedLayout(layouts[1..], p, screen);
      assert ([layouts[0]] + InsertLayout(layouts[1..], p))[1..] == InsertLayout(layouts[1..], p);
    } else if layouts != [] {
      assert ([p] + layouts[1..])[1..] == layouts[1..];
    }
  }

  predicate OnePerScreen(layouts: seq<(Screen, Layout)>) {
    forall i, j :: 0 <= i < j < |layouts| ==> layouts[i].0 != layouts[j].0
  }

  lemma {:induction false} NoneWithout(layouts: seq<(Screen, Layout)>, screen: Screen)
    requires forall i :: 0 <= i < |layouts| ==> layouts[i].0 != screen
    ensures LayoutOf(layouts, screen).None?
    decreases |layouts|
  {
    if layouts != [] { NoneWithout(layouts[1..], screen); }
  }

  /** One that is taken away is there no more, and no other goes. */
  lemma {:induction false} RemovedLayout(layouts: seq<(Screen, Layout)>, gone: Screen, screen: Screen)
    requires OnePerScreen(layouts)
    ensures LayoutOf(RemoveLayout(layouts, gone), screen) == if screen == gone then None else LayoutOf(layouts, screen)
    decreases |layouts|
  {
    if layouts != [] {
      if layouts[0].0 == gone {
        if screen == gone { NoneWithout(layouts[1..], screen); }
      } else {
        RemovedLayout(layouts[1..], gone, screen);
        assert ([layouts[0]] + RemoveLayout(layouts[1..], gone))[1..] == RemoveLayout(layouts[1..], gone);
      }
    }
  }

  datatype PendingTakeover = PendingTakeover(deviceId: string, deviceKey1: nat, deviceKey2: nat)

  /** "Pad belongs to another install", "A replacement pad is waiting on your answer". */
  datatype Refusal = AnotherInstall | ReplacementWaiting

  datatype CountersSource = FromPc | FromDevice

  /** The tap rate history, as far as the model looks into it. */
  datatype TapHistory = TapHistory(periodDays: nat, attempts: nat)

  datatype TapState = TapState(
    periodDays: nat, periodUnsaved: bool, history: Option<TapHistory>,
    current: Option<Attempt>, last: Option<Attempt>, unsavedAttempts: nat)

  const DEFAULT_ENDPOINT := "ws://127.0.0.1:24050/websocket/v2"

  type OwnerId = seq<nat>

  datatype DaemonState = DaemonState(
    mode: Mode,
    deviceConnected: bool,
    deviceInfo: Option<DeviceInfo>,
    counters: CounterState,
    countersSource: CountersSource,
    pcCounters: Option<CounterState>,
    espCounters: Option<CounterState>,
    config: DeviceConfig,
    lastSyncTime: Option<int>,
    lastSyncError: Option<string>,
    storageError: Option<string>,
    tosuConnected: bool,
    osuActive: bool,
    pendingReplacement: Option<string>,
    installId: Option<OwnerId>,
    pendingTakeover: Option<PendingTakeover>,
    foreignPad: bool,
    incompatible: Option<nat>,
    uiValues: Update,
    customLayouts: seq<(Screen, Layout)>,
    nvsRestorePending: bool,
    latency: Option<Latency>,
    heCalibration: Option<HeCalibration>,
    latestHeProgress: Option<HeProgress>,
    tap: TapState) {

    /** The connected pad said it can calibrate. */
    predicate CanCalibrate() { deviceInfo.Some? && deviceInfo.value.heCalibration }


    /** Why nothing may be pushed to or synced from the connected pad. */
    function PadGuard(): Option<Refusal> {
      if foreignPad || pendingTakeover.Some? then Some(AnotherInstall)
      else if pendingReplacement.Some? then Some(ReplacementWaiting)
      else None
    }

    predicate MayTouchPad() { PadGuard().None? }
  }

  datatype PendingCounterReset = PendingCounterReset(deviceId: Option<string>) {
    predicate AppliesTo(id: string) { deviceId.None? || deviceId.value == id }
  }

  datatype PendingOperations = PendingOperations(
    config: Option<DeviceConfig>,
    layouts: seq<(Screen, Option<Layout>)>,
    devicePush: Option<PendingCounterReset>,
    lastSeen: Option<string>)

  // ---- Who owns the pad -------------------------------------------------------

  datatype Ownership = NoIdentity | Unclaimed | Ours | Someone

  predicate IsUnclaimed(owner: OwnerId) { forall i :: 0 <= i < |owner| ==> owner[i] == 0 }

  function OwnershipOf(installId: Option<OwnerId>, owner: OwnerId): Ownership {
    if installId.None? then NoIdentity
    else if IsUnclaimed(owner) then Unclaimed
    else if owner == installId.value then Ours
    else Someone
  }
}
