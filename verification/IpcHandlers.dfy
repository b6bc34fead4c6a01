/** The requests of the daemon's IPC that write counters, configuration, layouts or
    ownership (desktop/daemon/src/ipc_handlers.rs): what they refuse, what they write
    and what they send. */
module IpcHandlers {
  import opened Options
  import opened Counters
  import opened Daemon
  import opened Desks
  import CounterSync

  datatype Request =
    | UpdateConfig(config: DeviceConfig)
    | SetLayout(screen: Screen, layout: Layout)
    | ResetLayout(screen: Screen)
    | ForceSync
    | ResetCounters(confirm: bool)
    | RestoreDeviceFromPc(confirm: bool)
    | ImportPcFromDevice(confirm: bool)
    | ImportBackup(backup: Backup, confirm: bool)
    | PlayAnimation(animation: nat, grade: string)
    | ResolveTakeover(takeOver: bool, keepDeviceCounters: bool)
    | ResolveReplacement(restore: bool)
    | TriggerEasterEgg

  datatype Response =
    | Refused(why: Refusal)
    | Rejected
    | Deferred
    | Failed
    | ConfigUpdated(config: DeviceConfig)
    | LayoutApplied
    | Synced(counters: CounterState)
    | CountersReset(counters: CounterState)
    | CountersRestored(counters: CounterState)
    | BackupImported(counters: CounterState, config: DeviceConfig)
    | AnimationPlayed
    | EasterEggTriggered

  /** A backup, as far as its import looks into it. */
  datatype Backup = Backup(counters: CounterState, config: DeviceConfig)

  /** How the parts a handler does not decide turn out: what the database takes, whether
      the pad takes the claim, a layout or an animation and confirms the layout; whether
      the request's content is valid, touches keys, or asks for what this pad's firmware
      cannot show; how a sync goes; and the time. */
  datatype Luck = Luck(
    rowTaken: bool, seenTaken: bool, configTaken: bool, layoutTaken: bool,
    claimed: bool, delivered: bool, confirmed: bool,
    valid: bool, touchesKeys: bool, unsupported: bool, going: CounterSync.Going, now: int)

  /** What a request comes to: the desk, what the handler sent, in order, and the answer. */
  datatype Done = Done(desk: Desk, sent: seq<ToPad>, response: Response)

  predicate InPlay(s: DaemonState) { s.mode == Playing || s.mode == Cooldown }

  /** A handler's own generation: above a row's and a pad's, as far as it goes. */
  function Above(a: Generation, b: Generation): Generation { NextGeneration(NewerGeneration(a, b)) }

  function WithCounters(s: DaemonState, c: CounterState): DaemonState {
    s.(counters := c, pcCounters := Some(c), espCounters := Some(c))
  }

  /** The handlers that ask the guard first. */
  predicate AsksGuard(r: Request) { !r.ResolveTakeover? && !r.ResolveReplacement? && !r.TriggerEasterEgg? }

  // ---- Configuration and layouts ---------------------------------------------------------

  function OnUpdateConfig(d: Desk, config: DeviceConfig, luck: Luck): Done {
    var queued := d.(queue := d.queue.(config := Some(config)));
    if !luck.valid then Done(d, [], Rejected)
    else if InPlay(d.state) && luck.touchesKeys then Done(queued, [], Deferred)
    else if InPlay(d.state) then
      Done(queued.(state := d.state.(config := config)), [ConfigTo(config)], ConfigUpdated(config))
    else if d.base.Some? && !luck.configTaken then Done(d, [], Failed)
    else
      Done(d.SaveConfig(config, luck.configTaken).(state := d.state.(config := config)), [ConfigTo(config)],
           ConfigUpdated(config))
  }

  /** A layout, or none for the pad's own, applied now in play and kept for later, or
      saved and applied to a connected pad. */
  function LayoutSet(d: Desk, screen: Screen, layout: Option<Layout>, luck: Luck): Done {
    var m := CounterSync.LayoutMessage((screen, layout));
    if InPlay(d.state) then
      Done(d.(queue := d.queue.(layouts := d.queue.layouts + [(screen, layout)])), [m], LayoutApplied)
    else
      var s := d.SaveLayout(screen, layout, luck.layoutTaken);
      if !d.state.deviceConnected then Done(s, [], LayoutApplied)
      else Done(s, [m], if !luck.delivered then Failed else if luck.confirmed then LayoutApplied else Rejected)
  }

  function OnSetLayout(d: Desk, screen: Screen, layout: Layout, luck: Luck): Done {
    if !luck.valid || (luck.unsupported && d.state.deviceConnected) then Done(d, [], Rejected)
    else
      LayoutSet(d.(state := d.state.(customLayouts := InsertLayout(d.state.customLayouts, (screen, layout)))),
            screen, Some(layout), luck)
  }

  function OnResetLayout(d: Desk, screen: Screen, luck: Luck): Done {
    LayoutSet(d.(state := d.state.(customLayouts := RemoveLayout(d.state.customLayouts, screen))), screen, None, luck)
  }

  // ---- Counters ---------------------------------------------------------------------------

  function OnForceSync(d: Desk, luck: Luck): Done {
    if InPlay(d.state) || d.base.None? then Done(d, [], Rejected)
    else
      var o := CounterSync.Sync(d, luck.going);
      Done(o.desk, o.sent, if o.result.Ok? then Synced(o.result.ok) else Failed)
  }

  function OnResetCounters(d: Desk, confirm: bool, luck: Luck): Done {
    if !confirm || InPlay(d.state) || d.base.None? then Done(d, [], Rejected)
    else
      var m := d.state.counters;
      var counters := m.(generation := NextGeneration(m.generation), key1 := 0, key2 := 0);
      var info := d.state.deviceInfo;
      var z := d.(state := d.state.(counters := counters));
      var w := if info.Some? then z.SaveRow(info.value.deviceId, counters, luck.now, luck.rowTaken) else z;
      var target := if info.Some? then Some(info.value.deviceId) else None;
      if d.state.deviceConnected then Done(w, [CountersTo(counters, true)], CountersReset(counters))
      else Done(w.(queue := w.queue.(devicePush := Some(PendingCounterReset(target)))), [], CountersReset(counters))
  }

  /** The pad or the PC is made to hold `target`. */
  function Imposed(d: Desk, id: string, target: CounterState, luck: Luck): Done {
    var s := d.SaveRow(id, target, luck.now, luck.rowTaken).Touch(id, luck.now, luck.seenTaken);
    Done(s.(state := WithCounters(s.state, target)), [CountersTo(target, true)], CountersRestored(target))
  }

  predicate Restorable(d: Desk, confirm: bool) {
    confirm && !InPlay(d.state) && d.base.Some? && d.state.deviceInfo.Some? && d.state.deviceConnected
  }

  function OnRestore(d: Desk, confirm: bool, luck: Luck): Done {
    if !Restorable(d, confirm) then Done(d, [], Rejected)
    else
      var id := d.state.deviceInfo.value.deviceId;
      if d.Row(id).None? then Done(d, [], Rejected)
      else
        var pc := d.Row(id).value;
        var generation := Above(pc.generation, d.state.counters.generation);
        Imposed(d, id, CounterState(id, generation, pc.key1, pc.key2, 0, 0), luck)
  }

  function RowGeneration(d: Desk, id: string): Generation {
    if d.Row(id).Some? then d.Row(id).value.generation else 0
  }

  function OnImport(d: Desk, confirm: bool, luck: Luck): Done {
    if !Restorable(d, confirm) then Done(d, [], Rejected)
    else
      var id := d.state.deviceInfo.value.deviceId;
      var m := d.state.counters;
      Imposed(d, id, CounterState(id, Above(RowGeneration(d, id), m.generation), m.key1, m.key2, 0, 0), luck)
  }

  /** A backup's counters, whatever pad they are of, in a generation above the backup's
      and the one shown; its configuration but for the endpoint, which is this PC's. */
  function OnImportBackup(d: Desk, b: Backup, confirm: bool, luck: Luck): Done {
    if !confirm || InPlay(d.state) || d.base.None? then Done(d, [], Rejected)
    else if !luck.valid then Done(d, [], Failed)
    else
      var config := b.config.(tosuEndpoint := d.state.config.tosuEndpoint);
      var c := CounterState(b.counters.deviceId, Above(d.state.counters.generation, b.counters.generation),
                            b.counters.key1, b.counters.key2, 0, 0);
      var s := d.SaveConfig(config, luck.configTaken).SaveRow(c.deviceId, c, luck.now, luck.rowTaken);
      Done(s.(state := d.state.(config := config, counters := c)), [ConfigTo(config), CountersTo(c, true)],
           BackupImported(c, config))
  }

  /** An animation as the user picks it, not while a map is played. */
  function OnPlayAnimation(d: Desk, animation: nat, grade: string, luck: Luck): Done {
    if !d.state.deviceConnected || luck.unsupported || d.state.mode == Playing then Done(d, [], Failed)
    else Done(d, [AnimationTo(animation, grade)], if luck.delivered then AnimationPlayed else Failed)
  }

  // ---- The prompts' answers ------------------------------------------------------------------

  /** The counters a takeover keeps: the pad's or this PC's row, in a generation
      above both. */
  function TakeoverTarget(d: Desk, id: string, keep: bool): CounterState {
    var m := d.state.counters;
    var generation := Above(RowGeneration(d, id), m.generation);
    if keep then CounterState(id, generation, m.key1, m.key2, 0, 0)
    else if d.Row(id).Some? then CounterState(id, generation, d.Row(id).value.key1, d.Row(id).value.key2, 0, 0)
    else CounterState(id, generation, 0, 0, 0, 0)
  }

  function LayoutsTo(layouts: seq<(Screen, Layout)>): seq<ToPad> {
    seq(|layouts|, i requires 0 <= i < |layouts| => LayoutTo(layouts[i].0, layouts[i].1))
  }

  /** The pad is ours: the claim, its counters, and what was held back. */
  function TakenOver(d: Desk, id: string, owner: OwnerId, target: CounterState, luck: Luck): Done {
    var s := d.SaveRow(id, target, luck.now, luck.rowTaken).Touch(id, luck.now, luck.seenTaken);
    Done(s.(state := WithCounters(s.state.(foreignPad := false), target)),
         [Claim(owner), CountersTo(target, true), ConfigTo(d.state.config)] + LayoutsTo(d.state.customLayouts),
         CountersRestored(target))
  }

  function OnTakeover(d: Desk, takeOver: bool, keep: bool, luck: Luck): Done {
    if InPlay(d.state) then Done(d, [], Deferred)
    else if d.state.pendingTakeover.None? then Done(d, [], Rejected)
    else
      var open := d.(state := d.state.(pendingTakeover := None));
      if d.state.deviceInfo.None? || !takeOver then Done(open, [], Rejected)
      else if d.base.None? || d.state.installId.None? then Done(d, [], Rejected)
      else if !luck.claimed then Done(d, [], Failed)
      else
        var id := d.state.deviceInfo.value.deviceId;
        TakenOver(open, id, d.state.installId.value, TakeoverTarget(open, id, keep), luck)
  }

  function OnReplacement(d: Desk, restore: bool, luck: Luck): Done {
    if InPlay(d.state) || d.base.None? then Done(d, [], Rejected)
    else
      var previous := d.state.pendingReplacement;
      var open := d.(state := d.state.(pendingReplacement := None));
      if d.state.deviceInfo.None? then Done(open, [], Rejected)
      else
        var id := d.state.deviceInfo.value.deviceId;
        var m := d.state.counters;
        if !restore then
          Done(open.SaveRow(id, m, luck.now, luck.rowTaken).Touch(id, luck.now, luck.seenTaken), [], CountersReset(m))
        else if previous.None? || d.Row(previous.value).None? then Done(open, [], Rejected)
        else
          var o := d.Row(previous.value).value;
          var c := CounterState(id, Above(o.generation, m.generation), o.key1, o.key2, 0, 0);
          var s := open.SaveRow(id, c, luck.now, luck.rowTaken).Touch(id, luck.now, luck.seenTaken);
          Done(s.(state := s.state.(counters := c)), [CountersTo(c, true)], CountersReset(c))
  }

  /** The source is sent past the guard, and past the diff cache. */
  const EASTER_EGG: Update := [(67, Number(67.0))]

  // ---- Every request ---------------------------------------------------------------------------

  function Asked(d: Desk, r: Request, luck: Luck): Done {
    match r
    case UpdateConfig(config) => OnUpdateConfig(d, config, luck)
    case SetLayout(screen, layout) => OnSetLayout(d, screen, layout, luck)
    case ResetLayout(screen) => OnResetLayout(d, screen, luck)
    case ForceSync => OnForceSync(d, luck)
    case ResetCounters(confirm) => OnResetCounters(d, confirm, luck)
    case RestoreDeviceFromPc(confirm) => OnRestore(d, confirm, luck)
    case ImportPcFromDevice(confirm) => OnImport(d, confirm, luck)
    case ImportBackup(backup, confirm) => OnImportBackup(d, backup, confirm, luck)
    case PlayAnimation(animation, grade) => OnPlayAnimation(d, animation, grade, luck)
    case ResolveTakeover(takeOver, keep) => OnTakeover(d, takeOver, keep, luck)
    case ResolveReplacement(restore) => OnReplacement(d, restore, luck)
    case TriggerEasterEgg => Done(d, [ValuesTo(EASTER_EGG)], EasterEggTriggered)
  }

  /** The guard is asked before the request's content is looked at. */
  function Handle(d: Desk, r: Request, luck: Luck): Done {
    if AsksGuard(r) && d.state.PadGuard().Some? then Done(d, [], Refused(d.state.PadGuard().value))
    else Asked(d, r, luck)
  }

  // ---- The guard ------------------------------------------------------------------------

  /** What a request does to a guarded pad, exactly: the answer to the ownership prompt
      sends when it takes the pad over, its claim first; the answer to the replacement
      prompt when it restores a row that is there; the one request that does not ask
      sends its one value; and nothing else sends anything or changes who is guarded. */
  lemma GuardedPadIsTouchedExactly(d: Desk, r: Request, luck: Luck)
    requires d.state.PadGuard().Some?
    ensures var done := Handle(d, r, luck);
            && (done.sent != [] <==> TakesOver(d, r, luck) || Restores(d, r) || r.TriggerEasterEgg?)
            && (TakesOver(d, r, luck) ==> done.sent[0] == Claim(d.state.installId.value) && !done.desk.state.foreignPad)
            && (Restores(d, r) ==> |done.sent| == 1 && done.sent[0].CountersTo? && done.sent[0].force)
            && (!TakesOver(d, r, luck) ==> done.desk.state.foreignPad == d.state.foreignPad)
            && (AsksGuard(r) ==> done == Done(d, [], Refused(d.state.PadGuard().value)))
  {
    hide OnUpdateConfig, OnSetLayout, OnResetLayout, OnForceSync, OnResetCounters, OnRestore, OnImport, OnImportBackup,
      OnPlayAnimation, OnTakeover, OnReplacement;
    if r.ResolveTakeover? { TakeoverSends(d, r.takeOver, r.keepDeviceCounters, luck); }
    if r.ResolveReplacement? { ReplacementSendsExactly(d, r.restore, luck); }
  }

  lemma TakeoverSends(d: Desk, takeOver: bool, keep: bool, luck: Luck)
    ensures var done := OnTakeover(d, takeOver, keep, luck);
            var r := ResolveTakeover(takeOver, keep);
            && (if TakesOver(d, r, luck)
                then done.sent != [] && done.sent[0] == Claim(d.state.installId.value) && !done.desk.state.foreignPad
                else done.sent == [] && done.desk.state.foreignPad == d.state.foreignPad)
  {
    hide TakeoverTarget, LayoutsTo;
    if TakesOver(d, ResolveTakeover(takeOver, keep), luck) {
      assert |OnTakeover(d, takeOver, keep, luck).sent| >= 3;
    }
  }

  /** The answer to a replacement prompt does not ask the guard: it sends counters
      exactly when it restores a previous pad's row outside play, and so also to a
      pad that belongs to another install, which stays one. */
  lemma ReplacementSendsExactly(d: Desk, restore: bool, luck: Luck)
    ensures var done := OnReplacement(d, restore, luck);
            && (done.sent != [] <==> Restores(d, ResolveReplacement(restore)))
            && (done.sent != [] ==> |done.sent| == 1 && done.sent[0].CountersTo? && done.sent[0].force)
            && done.desk.state.foreignPad == d.state.foreignPad
  {
    hide Desk.SaveRow, Desk.Touch, Above;
  }

  /** A takeover answered with yes, out of play, that can be written down and that the pad
      takes. */
  predicate TakesOver(d: Desk, r: Request, luck: Luck) {
    && r.ResolveTakeover? && r.takeOver && luck.claimed
    && !InPlay(d.state) && d.state.pendingTakeover.Some? && d.state.deviceInfo.Some?
    && d.base.Some? && d.state.installId.Some?
  }

  /** A replacement answered with "restore", out of play, with the previous pad's row
      there. */
  predicate Restores(d: Desk, r: Request) {
    && r.ResolveReplacement? && r.restore
    && !InPlay(d.state) && d.state.deviceInfo.Some?
    && d.state.pendingReplacement.Some? && d.Row(d.state.pendingReplacement.value).Some?
  }

  /** "Leave it alone" clears the prompt and nothing else: the pad stays guarded. */
  lemma LeftAloneStaysGuarded(d: Desk, keep: bool, luck: Luck)
    requires d.state.foreignPad
    ensures var done := Handle(d, ResolveTakeover(false, keep), luck);
            && done.sent == [] && done.desk.base == d.base && done.desk.queue == d.queue
            && done.desk.state == d.state.(pendingTakeover := done.desk.state.pendingTakeover)
            && done.desk.state.PadGuard() == Some(AnotherInstall)
  {}

  // ---- Generations -----------------------------------------------------------------------

  /** Restoring, importing and taking over put the counters in a generation above
      the row's and the pad's, exactly while there is one. */
  lemma AboveExactly(a: Generation, b: Generation)
    ensures (Above(a, b) > a && Above(a, b) > b) <==> (a < U32_MAX && b < U32_MAX)
  {}

  /** What a handler imposed is settled: this PC's row, if it was written, and its
      copies are the same counters, so the next sync has nothing to change. */
  lemma ImposedIsSettled(d: Desk, r: Request, luck: Luck)
    requires r.RestoreDeviceFromPc? || r.ImportPcFromDevice?
    ensures var done := Handle(d, r, luck);
            done.response.CountersRestored? ==>
              var c := done.response.counters;
              var id := d.state.deviceInfo.value.deviceId;
              && done.desk.state == WithCounters(d.state, c) && c.deviceId == id
              && done.sent == [CountersTo(c, true)]
              && (luck.rowTaken ==>
                    done.desk.Row(id) == Some(c) && CounterSync.First(done.desk.Row(id), id, c, false) == c)
              && (if r.RestoreDeviceFromPc? then d.Row(id).Some? && SameKeys(c, d.Row(id).value)
                  else SameKeys(c, d.state.counters))
  {}

  /** The answer "restore" to a replacement prompt gives the connected pad the previous
      pad's presses, above both generations: sent once, forced, shown, answered and written
      to the connected pad's row. The answer "new pad" sends nothing and writes down what the
      pad showed. */
  lemma ReplacementGivesBack(d: Desk, restore: bool, luck: Luck)
    requires d.state.deviceInfo.Some? && !InPlay(d.state) && d.base.Some?
    ensures var done := Handle(d, ResolveReplacement(restore), luck);
            var id, previous := d.state.deviceInfo.value.deviceId, d.state.pendingReplacement;
            var s := done.desk.state;
            && s.pendingReplacement.None? && done.desk.queue == d.queue
            && (restore && previous.Some? && d.Row(previous.value).Some? ==>
                  var row, c := d.Row(previous.value).value, s.counters;
                  && done.sent == [CountersTo(c, true)] && done.response == CountersReset(c)
                  && c.deviceId == id && c.key1 == row.key1 && c.key2 == row.key2
                  && (row.generation < U32_MAX && d.state.counters.generation < U32_MAX ==>
                        c.generation > row.generation && c.generation > d.state.counters.generation)
                  && (luck.rowTaken ==> done.desk.Row(id) == Some(c)))
            && (restore && (previous.None? || d.Row(previous.value).None?) ==>
                  && done.sent == [] && done.response.Rejected? && done.desk.base == d.base
                  && s == d.state.(pendingReplacement := None))
            && (!restore ==>
                  && done.sent == [] && done.response == CountersReset(d.state.counters)
                  && s == d.state.(pendingReplacement := None)
                  && (luck.rowTaken ==> done.desk.Row(id) == Some(d.state.counters)))
  {
    hide Desk.Touch, Desk.SaveRow, Above;
    var open := d.(state := d.state.(pendingReplacement := None));
    var c := Handle(d, ResolveReplacement(restore), luck).desk.state.counters;
    RowWritten(open, d.state.deviceInfo.value.deviceId, c, luck);
    if d.state.pendingReplacement.Some? && d.Row(d.state.pendingReplacement.value).Some? {
      AboveExactly(d.Row(d.state.pendingReplacement.value).value.generation, d.state.counters.generation);
    }
  }

  /** A row written, and its pad seen. */
  lemma RowWritten(d: Desk, id: string, c: CounterState, luck: Luck)
    ensures var after := d.SaveRow(id, c, luck.now, luck.rowTaken).Touch(id, luck.now, luck.seenTaken);
            && after.state == d.state && after.queue == d.queue && (after.base.Some? <==> d.base.Some?)
            && (d.base.Some? && luck.rowTaken ==> id in after.base.value.rows && after.base.value.rows[id] == c)
  {}

  /** An imported backup puts its counters on whatever pad is connected, forced, in the
      row of the pad the backup is of: the connected pad's own row is written exactly when
      it is that pad. */
  lemma ImportedBackupGoesAnywhere(d: Desk, b: Backup, luck: Luck, id: string)
    requires d.state.deviceInfo.Some? && d.state.deviceInfo.value.deviceId == id && luck.rowTaken
    ensures var done := Handle(d, ImportBackup(b, true), luck);
            done.response.BackupImported? ==>
              var c := done.response.counters;
              && done.sent == [ConfigTo(done.response.config), CountersTo(c, true)] && SameKeys(c, b.counters)
              && done.desk.Row(b.counters.deviceId) == Some(c)
              && (done.desk.Row(id) == Some(c) <==> b.counters.deviceId == id || d.Row(id) == Some(c))
              && (b.counters.generation < U32_MAX && d.state.counters.generation < U32_MAX ==>
                    c.generation > b.counters.generation && c.generation > d.state.counters.generation)
              && done.desk.state.counters == c && done.desk.state.config == done.response.config
              && done.response.config == b.config.(tosuEndpoint := d.state.config.tosuEndpoint)
              && (luck.configTaken ==> done.desk.base.Some? && done.desk.base.value.config == done.response.config)
  {}

  /** What a takeover answered with yes imposes, when the pad takes the claim: with "keep the
      pad's counters" those, otherwise this PC's row for it, or nothing, above both
      generations; sent right behind the claim, forced, before this PC's configuration and
      layouts; shown, answered and written down. */
  lemma TakeoverImposes(d: Desk, keep: bool, luck: Luck)
    requires TakesOver(d, ResolveTakeover(true, keep), luck)
    ensures var done := Handle(d, ResolveTakeover(true, keep), luck);
            var id := d.state.deviceInfo.value.deviceId;
            var pad, row, s := d.state.counters, d.Row(id), done.desk.state;
            var c := s.counters;
            && done.response == CountersRestored(c) && s.pcCounters == s.espCounters == Some(c)
            && c.deviceId == id
            && (keep ==> c.key1 == pad.key1 && c.key2 == pad.key2)
            && (!keep && row.Some? ==> c.key1 == row.value.key1 && c.key2 == row.value.key2)
            && (!keep && row.None? ==> c.key1 == 0 && c.key2 == 0)
            && (pad.generation < U32_MAX ==> c.generation > pad.generation)
            && (row.Some? && row.value.generation < U32_MAX && pad.generation < U32_MAX ==>
                  c.generation > row.value.generation)
            && (luck.rowTaken ==> done.desk.Row(id) == Some(c))
            && |done.sent| == 3 + |d.state.customLayouts|
            && done.sent[0] == Claim(d.state.installId.value) && done.sent[1] == CountersTo(c, true)
            && done.sent[2] == ConfigTo(d.state.config)
            && (forall i :: 0 <= i < |d.state.customLayouts| ==>
                  done.sent[3 + i] == LayoutTo(d.state.customLayouts[i].0, d.state.customLayouts[i].1))
            && !s.foreignPad && s.pendingTakeover.None?
  {
    hide Desk.Touch, Desk.SaveRow;
    var id := d.state.deviceInfo.value.deviceId;
    var open := d.(state := d.state.(pendingTakeover := None));
    RowWritten(open, id, TakeoverTarget(open, id, keep), luck);
  }

  /** A counter reset, with a pad connected: zeroes in the next generation, the same ones in
      the answer, on the screen, in the pad's row and, forced, on the pad; nothing is queued. */
  lemma ConnectedResetGoesOut(d: Desk, luck: Luck)
    requires d.state.PadGuard().None? && !InPlay(d.state) && d.base.Some?
    requires d.state.deviceConnected && d.state.deviceInfo.Some?
    ensures var done := Handle(d, ResetCounters(true), luck);
            var c := done.desk.state.counters;
            && c.key1 == 0 && c.key2 == 0 && c.deviceId == d.state.counters.deviceId
            && (d.state.counters.generation < U32_MAX ==> c.generation == d.state.counters.generation + 1)
            && done.response == CountersReset(c) && done.sent == [CountersTo(c, true)]
            && (luck.rowTaken ==>
                  && done.desk.Row(d.state.deviceInfo.value.deviceId) == Some(c)
                  && CounterSync.Seen(done.desk, d.state.deviceInfo.value.deviceId) == Some(luck.now))
            && done.desk.queue == d.queue && done.desk.state == d.state.(counters := c)
  {}

  // ---- Configuration and layouts -----------------------------------------------------------------

  /** A configuration that is in order and may be applied: outside play it is in the
      database, shown and sent; in play one that leaves the keys alone is shown, sent and
      queued, and one that does not is queued only. A disk that refuses it leaves all as it
      was. */
  lemma ConfigGoesWhere(d: Desk, config: DeviceConfig, luck: Luck)
    requires d.state.PadGuard().None? && luck.valid
    ensures var done := Handle(d, UpdateConfig(config), luck);
            && (!InPlay(d.state) && (d.base.None? || luck.configTaken) ==>
                  && done.sent == [ConfigTo(config)] && done.response == ConfigUpdated(config)
                  && done.desk.state == d.state.(config := config) && done.desk.queue == d.queue
                  && (d.base.Some? ==> done.desk.base == Some(d.base.value.(config := config))))
            && (!InPlay(d.state) && d.base.Some? && !luck.configTaken ==>
                  done == Done(d, [], Failed))
            && (InPlay(d.state) ==>
                  && done.desk.queue == d.queue.(config := Some(config)) && done.desk.base == d.base
                  && (luck.touchesKeys ==>
                        done.desk.state == d.state && done.sent == [] && done.response.Deferred?)
                  && (!luck.touchesKeys ==>
                        && done.desk.state == d.state.(config := config) && done.sent == [ConfigTo(config)]
                        && done.response == ConfigUpdated(config)))
  {}

  /** A configuration set in play, deferred or not, is in the database and on the pad after
      the next sync that gets through with it queued: sent, and, unless others change it
      meanwhile, written down and shown. */
  lemma QueuedConfigIsCarriedOut(d: Desk, config: DeviceConfig, luck: Luck, back: Desk, g: CounterSync.Going)
    requires d.state.PadGuard().None? && InPlay(d.state) && luck.valid
    requires |g.replies| == CounterSync.ATTEMPTS && CounterSync.Succeeds(g.replies)
    requires CounterSync.Reaches(back) && g.idle && g.taken(CounterSync.CONFIG_WRITE)
    requires CounterSync.BeforeDrain(back, g).queue.config
          == Handle(d, UpdateConfig(config), luck).desk.queue.config
    requires CounterSync.BeforeDrain(back, g).base.Some?
    ensures var after := CounterSync.Sync(back, g).desk;
            && ConfigTo(config) in CounterSync.Sync(back, g).sent
            && (CounterSync.LeavesConfig(g) ==>
                  after.base.Some? && after.base.value.config == config && after.state.config == config)
  {
    hide CounterSync.Sync, CounterSync.BeforeDrain, CounterSync.AfterDrain, CounterSync.CarriedOut;
    hide CounterSync.LeavesConfig, CounterSync.LayoutMessages;
    ConfigGoesWhere(d, config, luck);
    CounterSync.DrainedGoesOut(back, g);
    var q := CounterSync.BeforeDrain(back, g).queue;
    var sent := CounterSync.Sync(back, g).sent;
    var last := [TimeTo] + [ConfigTo(config)] + CounterSync.LayoutMessages(q.layouts);
    assert last[1] == ConfigTo(config) && sent[|sent| - |last|..] == last;
    assert sent[|sent| - |last| + 1] == ConfigTo(config);
    if CounterSync.LeavesConfig(g) { CounterSync.QueuedConfigIsSaved(back, g); }
  }

  /** A layout, or the pad's own again, set outside play on a pad that can show it: in the
      database and among the layouts at once, and sent to a connected pad. */
  lemma LayoutGoesWhere(d: Desk, r: Request, luck: Luck)
    requires d.state.PadGuard().None? && !InPlay(d.state) && luck.valid && !luck.unsupported
    requires (r.SetLayout? || r.ResetLayout?) && d.base.Some? && luck.layoutTaken
    ensures var done := Handle(d, r, luck);
            var now := if r.SetLayout? then Some(r.layout) else None;
            && done.desk.base.Some? && CounterSync.LayoutIn(done.desk, r.screen) == now
            && (forall other: Screen :: other != r.screen ==>
                  CounterSync.LayoutIn(done.desk, other) == CounterSync.LayoutIn(d, other))
            && done.desk.base.value.config == d.base.value.config && done.desk.base.value.rows == d.base.value.rows
            && done.desk.queue == d.queue
            && done.sent == (if !d.state.deviceConnected then []
                             else [if now.Some? then LayoutTo(r.screen, now.value) else LayoutResetTo(r.screen)])
            && (done.response.LayoutApplied? <==> !d.state.deviceConnected || (luck.delivered && luck.confirmed))
            && (done.response.Failed? <==> d.state.deviceConnected && !luck.delivered)
  {}

  /** And whether or not anything is played, what is shown of that screen afterwards is the
      new one, of any other what was. */
  lemma LayoutIsShown(d: Desk, r: Request, luck: Luck, screen: Screen)
    requires d.state.PadGuard().None? && luck.valid && !luck.unsupported && (r.SetLayout? || r.ResetLayout?)
    requires OnePerScreen(d.state.customLayouts)
    ensures var now := if r.SetLayout? then Some(r.layout) else None;
            LayoutOf(Handle(d, r, luck).desk.state.customLayouts, screen)
            == if screen == r.screen then now else LayoutOf(d.state.customLayouts, screen)
  {
    hide LayoutOf, InsertLayout, RemoveLayout;
    if r.SetLayout? {
      InsertedLayout(d.state.customLayouts, (r.screen, r.layout), screen);
    } else {
      RemovedLayout(d.state.customLayouts, r.screen, screen);
    }
  }

  /** When a request is turned down for good, and that it then changes and sends nothing. */
  lemma RejectedExactly(d: Desk, r: Request, luck: Luck)
    requires d.state.PadGuard().None? && !r.ResolveTakeover? && !r.ResolveReplacement?
    ensures var done := Handle(d, r, luck);
            var s := d.state;
            var played := s.mode == Playing || s.mode == Cooldown;
            var there := s.deviceInfo.Some? && s.deviceConnected;
            var rejected := match r
              case UpdateConfig(_) => !luck.valid
              case SetLayout(_, _) => !luck.valid || (luck.unsupported && s.deviceConnected)
              case ForceSync => played || d.base.None?
              case ResetCounters(confirm) => !confirm || played || d.base.None?
              case RestoreDeviceFromPc(confirm) =>
                !confirm || played || d.base.None? || !there || d.Row(s.deviceInfo.value.deviceId).None?
              case ImportPcFromDevice(confirm) => !confirm || played || d.base.None? || !there
              case ImportBackup(_, confirm) => !confirm || played || d.base.None?
              case _ => false;
            && (rejected ==> done == Done(d, [], Rejected))
            && (done.response.Rejected? && !rejected ==>
                  (r.SetLayout? || r.ResetLayout?) && s.deviceConnected && luck.delivered && !luck.confirmed)
  {
    hide CounterSync.Sync;
  }

  /** An animation goes out exactly to a connected pad that can show it, outside PLAYING. */
  lemma AnimationPlaysExactly(d: Desk, animation: nat, grade: string, luck: Luck)
    requires d.state.PadGuard().None?
    ensures var done := Handle(d, PlayAnimation(animation, grade), luck);
            var may := d.state.deviceConnected && !luck.unsupported && d.state.mode != Playing;
            && done.desk == d && done.sent == (if may then [AnimationTo(animation, grade)] else [])
            && (done.response.AnimationPlayed? <==> may && luck.delivered)
            && (done.response.Failed? <==> !may || !luck.delivered)
  {}

  // ---- A layout set while a map is on ----------------------------------------------------------

  /** A layout set or reset in play is on the pad and in memory at once, and queued behind
      what waits. A sync that gets through with it queued, whatever else is, sends it again
      after it has written it down, if the database is open and takes the write. */
  lemma QueuedLayoutIsCarriedOut(d: Desk, r: Request, luck: Luck, back: Desk, g: CounterSync.Going)
    requires InPlay(d.state) && (r.SetLayout? || r.ResetLayout?)
    requires |g.replies| == CounterSync.ATTEMPTS && CounterSync.Succeeds(g.replies)
    requires CounterSync.Reaches(back) && g.idle
    requires Handle(d, r, luck).desk.queue.layouts <= CounterSync.BeforeDrain(back, g).queue.layouts
    ensures var done := Handle(d, r, luck);
            var m := if r.SetLayout? then LayoutTo(r.screen, r.layout) else LayoutResetTo(r.screen);
            var q := CounterSync.BeforeDrain(back, g).queue;
            var n := |d.queue.layouts|;
            done.response.LayoutApplied? ==>
              && done.sent == [m] && done.desk.base == d.base && done.desk.queue.layouts[..n] == d.queue.layouts
              && n < |q.layouts| && m in CounterSync.Sync(back, g).sent
              && var before := CounterSync.SavedLayouts(
                                 CounterSync.Configured(CounterSync.AfterDrain(back, g), q, g), q.layouts[..n], g);
                 var written := CounterSync.WrittenLayout(before, q.layouts[n], n, g);
                 && CounterSync.SavedLayouts(CounterSync.Configured(CounterSync.AfterDrain(back, g), q, g),
                                             q.layouts[..n + 1], g)
                    == g.during(CounterSync.LAYOUT_WAITS + n)(written)
                 && (before.base.Some? && g.taken(CounterSync.LAYOUT_WRITES + n) ==>
                       && written.base.Some?
                       && (if r.SetLayout?
                           then r.screen in written.base.value.layouts
                                && written.base.value.layouts[r.screen] == r.layout
                           else r.screen !in written.base.value.layouts))
    ensures var done := Handle(d, r, luck);
            var q := CounterSync.BeforeDrain(back, g).queue;
            done.response.LayoutApplied? && q.layouts == done.desk.queue.layouts
            && (forall n :: n >= CounterSync.LAYOUT_WRITES ==> g.taken(n))
            && CounterSync.LeavesLayout(g, r.screen) && CounterSync.BeforeDrain(back, g).base.Some? ==>
              CounterSync.LayoutIn(CounterSync.Sync(back, g).desk, r.screen)
              == if r.SetLayout? then Some(r.layout) else None
  {
    var done := Handle(d, r, luck);
    if done.response.LayoutApplied? {
      hide CounterSync.Sync, CounterSync.BeforeDrain, CounterSync.AfterDrain, CounterSync.Configured;
      var q := CounterSync.BeforeDrain(back, g).queue.layouts;
      var n := |d.queue.layouts|;
      assert done.desk.queue.layouts[n] == q[n];
      assert q[..n + 1][..n] == q[..n] && q[..n + 1][n] == q[n];
      LayoutGoesOut(back, g, n);
      LayoutStays(back, r.screen, g);
    }
  }

  lemma LayoutStays(d: Desk, screen: Screen, g: CounterSync.Going)
    requires |g.replies| == CounterSync.ATTEMPTS && CounterSync.Reaches(d) && g.idle && CounterSync.Succeeds(g.replies)
    ensures var queued := CounterSync.LastQueued(CounterSync.BeforeDrain(d, g).queue.layouts, screen);
            && (forall n :: n >= CounterSync.LAYOUT_WRITES ==> g.taken(n))
            && CounterSync.LeavesLayout(g, screen) && CounterSync.BeforeDrain(d, g).base.Some? && queued.Some? ==>
              CounterSync.LayoutIn(CounterSync.Sync(d, g).desk, screen) == queued.value
  {
    hide CounterSync.Sync, CounterSync.BeforeDrain, CounterSync.LeavesLayout;
    if (forall n :: n >= CounterSync.LAYOUT_WRITES ==> g.taken(n)) && CounterSync.LeavesLayout(g, screen)
       && CounterSync.BeforeDrain(d, g).base.Some? {
      CounterSync.QueuedLayoutsAreSaved(d, g, screen);
    }
  }

  lemma LayoutGoesOut(d: Desk, g: CounterSync.Going, n: nat)
    requires |g.replies| == CounterSync.ATTEMPTS && CounterSync.Reaches(d) && g.idle && CounterSync.Succeeds(g.replies)
    requires n < |CounterSync.BeforeDrain(d, g).queue.layouts|
    ensures CounterSync.LayoutMessage(CounterSync.BeforeDrain(d, g).queue.layouts[n]) in CounterSync.Sync(d, g).sent
  {
    hide CounterSync.Sync, CounterSync.BeforeDrain, CounterSync.AfterDrain, CounterSync.CarriedOut;
    CounterSync.DrainedGoesOut(d, g);
    var q := CounterSync.BeforeDrain(d, g).queue;
    var sent := CounterSync.Sync(d, g).sent;
    var messages := CounterSync.LayoutMessages(q.layouts);
    var head := [TimeTo] + (if q.config.Some? then [ConfigTo(q.config.value)] else []);
    var at := |sent| - |head + messages|;
    assert sent[at..][|head| + n] == messages[n];
    assert sent[at + |head| + n] == messages[n];
  }

  // ---- The offline reset ---------------------------------------------------------------------

  /** A reset made while the pad is away waits for it: the next sync with that pad
      applies it, and until then it is what the counters show. */
  lemma OfflineResetWaits(d: Desk, luck: Luck)
    requires !d.state.deviceConnected && d.state.deviceInfo.Some?
    ensures var done := Handle(d, ResetCounters(true), luck);
            var id := d.state.deviceInfo.value.deviceId;
            done.response.CountersReset? ==>
              && done.sent == []
              && CounterSync.ResetFor(done.desk.queue, id) == Some(PendingCounterReset(Some(id)))
              && CounterSync.Zero(done.desk.state.counters)
              && (d.state.counters.generation < U32_MAX ==>
                    done.desk.state.counters.generation > d.state.counters.generation)
  {}

  /** From the reset to the pad: whatever a pad reports when it comes back, the sync
      that follows sends zeroed counters above that report, forced. */
  lemma OfflineResetReachesThePad(d: Desk, luck: Luck, row: Option<CounterState>, report: CounterState)
    requires !d.state.deviceConnected && d.state.deviceInfo.Some? && report.generation < U32_MAX
    ensures var done := Handle(d, ResetCounters(true), luck);
            var id := d.state.deviceInfo.value.deviceId;
            done.response.CountersReset? ==>
              var reset := CounterSync.ResetFor(done.desk.queue, id);
              var first := CounterSync.First(row, id, report, reset.Some?);
              CounterSync.Zero(first) && first.generation > report.generation && Accepts(report, first, reset.Some?)
  {
    OfflineResetWaits(d, luck);
    CounterSync.ResetOutranksExactly(row, d.state.deviceInfo.value.deviceId, report);
  }

  /** A pad comes back with the reset still queued, and its sync gets through without the
      pad moving past the generation it reported. */
  ghost predicate ComesBack(d: Desk, luck: Luck, back: Desk, g: CounterSync.Going) {
    var done := Handle(d, ResetCounters(true), luck);
    && !d.state.deviceConnected && d.state.deviceInfo.Some? && done.response.CountersReset?
    && back.state.deviceInfo == d.state.deviceInfo && back.state.counters.generation < U32_MAX
    && CounterSync.Reaches(back) && g.idle
    && |g.replies| == CounterSync.ATTEMPTS && CounterSync.Succeeds(g.replies)
    && g.during(CounterSync.IDLE_WAIT)(back).queue.devicePush == done.desk.queue.devicePush
    && forall i :: 0 <= i < |g.replies| && g.replies[i].Rejected? && g.replies[i].now.Some? ==>
         g.replies[i].now.value.generation <= back.state.counters.generation
  }

  /** The sticky reset, from the request to the pad: whatever presses the pad comes back
      with, and whatever everyone else does while the sync runs, every counter message is
      the same zeroed one, forced, above what the pad reported, and it is what this PC's
      three copies end as. */
  lemma OfflineResetIsDelivered(d: Desk, luck: Luck, back: Desk, g: CounterSync.Going)
    requires ComesBack(d, luck, back, g)
    ensures var o := CounterSync.Sync(back, g);
            var c := o.desk.state.counters;
            && o.result == Ok(c) && CounterSync.Zero(c) && c.generation > back.state.counters.generation
            && c.deviceId == d.state.deviceInfo.value.deviceId
            && o.desk.state.pcCounters == o.desk.state.espCounters == Some(c)
            && CountersTo(c, true) in o.sent && (forall m :: m in o.sent && m.CountersTo? ==> m == CountersTo(c, true))
  {
    var id := d.state.deviceInfo.value.deviceId;
    var w := g.during(CounterSync.IDLE_WAIT)(back);
    var first := CounterSync.First(w.Row(id), id, back.state.counters, true);
    OfflineResetWaits(d, luck);
    CounterSync.OfflineResetWins(w.Row(id), id, back.state.counters, g.replies);
    hide CounterSync.Sync, CounterSync.First, CounterSync.Settled;
    CounterSync.SuccessAgrees(back, g);
    CounterSync.CountsAre(back, g, first);
  }

  /** The pad is found gone, as far as the handlers see it. */
  function Gone(d: Desk): Desk { d.(state := d.state.(deviceConnected := false)) }

  /** A sync gets through, and when it takes what waited off the queue a reset is queued
      that is meant for its pad, whenever it was made and whatever else happened. */
  ghost predicate ResetQueued(d: Desk, g: CounterSync.Going) {
    && |g.replies| == CounterSync.ATTEMPTS && CounterSync.Reaches(d) && g.idle && CounterSync.Succeeds(g.replies)
    && CounterSync.BeforeDrain(d, g).queue.devicePush.Some?
    && CounterSync.BeforeDrain(d, g).queue.devicePush.value.AppliesTo(d.state.deviceInfo.value.deviceId)
  }

  /** A reset made while a sync runs is dropped by it exactly when it names the pad in the
      same way as the one the sync delivers: the queue holds no trace of it, and its row is
      overwritten with the first one's counters, if the database takes that write. */
  lemma SecondResetIsLostExactly(d: Desk, g: CounterSync.Going)
    requires ResetQueued(d, g)
    ensures var id := d.state.deviceInfo.value.deviceId;
            var delivered := CounterSync.ResetFor(g.during(CounterSync.IDLE_WAIT)(d).queue, id);
            var before := CounterSync.BeforeDrain(d, g);
            var after := CounterSync.AfterDrain(d, g);
            && (after.queue.devicePush.None? <==> before.queue.devicePush == delivered)
            && (after.queue.devicePush.Some? ==> CounterSync.ResetFor(after.queue, id) == before.queue.devicePush)
            && (g.taken(CounterSync.LAST_ROW) && before.base.Some? ==>
                  after.Row(id) == Some(CounterSync.Sync(d, g).desk.state.counters))
  {
    hide CounterSync.Sync, CounterSync.BeforeDrain, CounterSync.AfterDrain;
    CounterSync.SettledRowAndQueue(d, g);
  }

  /** Any reset made during an attempt or while the pad's clock is set, unless others take
      it back off the queue, is such a one: made while the pad was gone, it names the pad
      that the sync is with. */
  lemma ResetDuringIsQueued(d: Desk, g: CounterSync.Going, k: nat, id: string)
    requires |g.replies| == CounterSync.ATTEMPTS && CounterSync.Reaches(d) && g.idle && CounterSync.Succeeds(g.replies)
    requires id == d.state.deviceInfo.value.deviceId
    requires var w := g.during(CounterSync.IDLE_WAIT)(d);
             var first := CounterSync.First(w.Row(id), id, d.state.counters, CounterSync.ResetFor(w.queue, id).Some?);
             0 < k <= |CounterSync.Sent(first, g.replies)| || k == CounterSync.CLOCK_WAIT
    requires forall x: Desk :: g.during(k)(x).queue.devicePush == Some(PendingCounterReset(Some(id)))
    requires forall n: nat, x: Desk ::
               k < n <= CounterSync.CLOCK_WAIT && x.queue.devicePush == Some(PendingCounterReset(Some(id))) ==>
                 g.during(n)(x).queue.devicePush == x.queue.devicePush
    ensures ResetQueued(d, g)
    ensures var w := g.during(CounterSync.IDLE_WAIT)(d);
            CounterSync.AfterDrain(d, g).queue.devicePush.None?
            <==> CounterSync.ResetFor(w.queue, id) == Some(PendingCounterReset(Some(id)))
  {
    hide CounterSync.Sync, CounterSync.AfterDrain, CounterSync.First, CounterSync.Sent, CounterSync.Exchanged;
    var w := g.during(CounterSync.IDLE_WAIT)(d);
    var first := CounterSync.First(w.Row(id), id, d.state.counters, CounterSync.ResetFor(w.queue, id).Some?);
    CounterSync.SentBounds(first, g.replies);
    if k != CounterSync.CLOCK_WAIT {
      CounterSync.QueuedStays(w.SaveRow(id, first, g.now, g.taken(0)), id, first, g.replies, g, 0, k,
                              PendingCounterReset(Some(id)));
    }
    SecondResetIsLostExactly(d, g);
  }

  /** What that loses: at any later desk with the queue's reset and the pad's row as they
      were left, the next sync sends presses again, and the user's second reset never
      happens, exactly when the pad reports presses in a generation not below the row's.
      Had the second reset been kept, that sync would have sent zeroes whatever the pad
      reports. */
  lemma LostResetShowsExactly(d: Desk, g: CounterSync.Going, later: Desk, report: CounterState)
    requires ResetQueued(d, g) && g.taken(CounterSync.LAST_ROW) && CounterSync.BeforeDrain(d, g).base.Some?
    requires var first := CounterSync.First(g.during(CounterSync.IDLE_WAIT)(d).Row(d.state.deviceInfo.value.deviceId),
                                            d.state.deviceInfo.value.deviceId, d.state.counters, true);
             forall i :: 0 <= i < |g.replies| && g.replies[i].Rejected? && g.replies[i].now.Some? ==>
               g.replies[i].now.value.generation < first.generation
    requires CounterSync.ResetFor(g.during(CounterSync.IDLE_WAIT)(d).queue, d.state.deviceInfo.value.deviceId).Some?
    requires later.queue.devicePush == CounterSync.AfterDrain(d, g).queue.devicePush
    requires later.Row(d.state.deviceInfo.value.deviceId)
          == CounterSync.AfterDrain(d, g).Row(d.state.deviceInfo.value.deviceId)
    ensures var id := d.state.deviceInfo.value.deviceId;
            var reset := CounterSync.ResetFor(later.queue, id).Some?;
            var next := CounterSync.First(later.Row(id), id, report, reset);
            && (reset <==> CounterSync.BeforeDrain(d, g).queue.devicePush
                           != CounterSync.ResetFor(g.during(CounterSync.IDLE_WAIT)(d).queue, id))
            && (reset ==> CounterSync.Zero(next))
            && later.Row(id).Some?
            && (!reset ==>
                  (!CounterSync.Zero(next)
                   <==> report.generation >= later.Row(id).value.generation && !CounterSync.Zero(report)))
  {
    var id := d.state.deviceInfo.value.deviceId;
    var w := g.during(CounterSync.IDLE_WAIT)(d);
    var first := CounterSync.First(w.Row(id), id, d.state.counters, true);
    hide CounterSync.Sync, CounterSync.BeforeDrain, CounterSync.AfterDrain;
    SecondResetIsLostExactly(d, g);
    CounterSync.ResetOutranksExactly(w.Row(id), id, d.state.counters);
    CounterSync.ResetIsSticky(first, g.replies);
    CounterSync.SuccessAgrees(d, g);
    assert CounterSync.Zero(CounterSync.Sync(d, g).desk.state.counters);
  }

  /** Every attempt is accepted; while the clock is set the pad goes and the user resets
      again. */
  function Meanwhile(luck: Luck): CounterSync.Going {
    CounterSync.Going(0, true, [CounterSync.Accepted, CounterSync.Accepted, CounterSync.Accepted], n => true,
                      (n: nat) => (y: Desk) =>
                        if n == CounterSync.CLOCK_WAIT then OnResetCounters(Gone(y), true, luck).desk else y,
                      0)
  }

  lemma MeanwhileResets(d: Desk, luck: Luck)
    requires CounterSync.Reaches(d) && !InPlay(d.state)
    ensures var before := CounterSync.BeforeDrain(d, Meanwhile(luck));
            && before.base.Some?
            && before.queue.devicePush == Some(PendingCounterReset(Some(d.state.deviceInfo.value.deviceId)))
  {
    hide CounterSync.First, OnResetCounters;
    var g := Meanwhile(luck);
    var id := d.state.deviceInfo.value.deviceId;
    var first := CounterSync.First(d.Row(id), id, d.state.counters, CounterSync.ResetFor(d.queue, id).Some?);
    var x := d.SaveRow(id, first, 0, true);
    assert g.replies[0].Accepted?;
    assert CounterSync.Exchanged(x, id, first, g.replies, g, 0) == x;
    assert CounterSync.BeforeDrain(d, g) == OnResetCounters(Gone(x), true, luck).desk;
    ResetGoesThrough(Gone(x), luck);
  }

  lemma ResetGoesThrough(d: Desk, luck: Luck)
    requires d.base.Some? && !InPlay(d.state) && !d.state.deviceConnected && d.state.deviceInfo.Some?
    ensures var done := OnResetCounters(d, true, luck);
            && done.response.CountersReset? && done.desk.base.Some?
            && done.desk.queue.devicePush == Some(PendingCounterReset(Some(d.state.deviceInfo.value.deviceId)))
  {}

  /** And it happens: with a reset queued for the pad and one press made before it went,
      the press is back after the next sync. */
  lemma SecondResetIsLost(d: Desk, luck: Luck)
    requires CounterSync.Reaches(d) && !InPlay(d.state)
    requires d.queue.devicePush == Some(PendingCounterReset(Some(d.state.deviceInfo.value.deviceId)))
    ensures var id := d.state.deviceInfo.value.deviceId;
            var after := CounterSync.Sync(d, Meanwhile(luck)).desk;
            && after.queue.devicePush.None? && after.Row(id).Some?
            && var report := CounterState(id, after.Row(id).value.generation, 1, 0, 0, 0);
               var reset := CounterSync.ResetFor(after.queue, id).Some?;
               !CounterSync.Zero(CounterSync.First(after.Row(id), id, report, reset))
  {
    hide CounterSync.First, CounterSync.Sync, CounterSync.BeforeDrain, CounterSync.AfterDrain, OnResetCounters;
    var id := d.state.deviceInfo.value.deviceId;
    var g := Meanwhile(luck);
    MeanwhileResets(d, luck);
    assert g.replies[0].Accepted?;
    SecondResetIsLostExactly(d, g);
    assert forall n: nat, x: Desk :: n >= CounterSync.CONFIG_WAIT ==> g.during(n)(x) == x;
    CounterSync.QuietDrain(d, g, id);
    var after := CounterSync.Sync(d, g).desk;
    LostResetShowsExactly(d, g, after, CounterState(id, after.state.counters.generation, 1, 0, 0, 0));
  }

  // ---- Taking a pad over -------------------------------------------------------------------

  /** Nothing goes to the pad before its claim, and nothing at all when the claim does
      not stick: then the prompt is still there. */
  lemma ClaimComesFirst(d: Desk, takeOver: bool, keep: bool, luck: Luck)
    ensures var done := Handle(d, ResolveTakeover(takeOver, keep), luck);
            && (done.sent != [] ==>
                  d.state.installId.Some? && luck.claimed && done.sent[0] == Claim(d.state.installId.value))
            && (done.response.CountersRestored? <==> done.sent != [])
            && (done.response.Failed? ==> done.desk == d)
  {
    var done := Handle(d, ResolveTakeover(takeOver, keep), luck);
    if done.response.CountersRestored? { assert |done.sent| >= 3; }
  }

  /** This PC's counters for the pad on the prompt. */
  function PcFor(d: Desk, pending: PendingTakeover): Option<CounterState> {
    if d.Row(pending.deviceId).Some? then d.Row(pending.deviceId)
    else if d.state.pcCounters.Some? && d.state.pcCounters.value.deviceId == pending.deviceId then d.state.pcCounters
    else None
  }

  function OfferedCounters(pending: PendingTakeover): CounterState {
    CounterState(pending.deviceId, 0, pending.deviceKey1, pending.deviceKey2, 0, 0)
  }

  /** Taken over without asking when that loses no presses. */
  function TakeOverIfAhead(d: Desk, luck: Luck): Done {
    if d.state.pendingTakeover.None? then Done(d, [], Rejected)
    else
      var pending := d.state.pendingTakeover.value;
      if PcIsAhead(PcFor(d, pending), OfferedCounters(pending)) then Done(d, [], Rejected)
      else OnTakeover(d, true, true, luck)
  }

  /** No runtime event since the prompt went up: the pad it is about is the one
      connected, with the counters it reported then. */
  predicate StillAsOffered(d: Desk) {
    d.state.pendingTakeover.Some? ==>
      var p := d.state.pendingTakeover.value;
      && d.state.deviceInfo.Some? && d.state.deviceInfo.value.deviceId == p.deviceId
      && d.state.counters.key1 == p.deviceKey1 && d.state.counters.key2 == p.deviceKey2
  }

  /** A takeover made without asking loses nothing. When it resolves, the counters
      are the pad's own keys, at least this PC's on both, in a generation above the
      pad's and this PC's row's, and they went to the pad; otherwise no counter
      changes anywhere. */
  lemma SilentTakeoverLosesNothing(d: Desk, luck: Luck)
    requires StillAsOffered(d)
    ensures var done := TakeOverIfAhead(d, luck);
            var desk := done.desk;
            if done.response.CountersRestored? then
              var p := d.state.pendingTakeover.value;
              var c := desk.state.counters;
              && SameKeys(c, d.state.counters)
              && (PcFor(d, p).Some? ==> AtLeast(c, PcFor(d, p).value))
              && (d.state.counters.generation < U32_MAX ==> c.generation > d.state.counters.generation)
              && (RowGeneration(d, p.deviceId) < U32_MAX ==> c.generation > RowGeneration(d, p.deviceId))
              && desk.state.pcCounters == Some(c) && desk.state.espCounters == Some(c) && !desk.state.foreignPad
              && CountersTo(c, true) in done.sent
            else
              && done.sent == [] && desk.base == d.base && desk.state.counters == d.state.counters
              && desk.state.pcCounters == d.state.pcCounters && desk.state.foreignPad == d.state.foreignPad
  {
    var done := TakeOverIfAhead(d, luck);
    if done.response.CountersRestored? { assert done.sent[1] == CountersTo(done.desk.state.counters, true); }
  }

  /** With no row, what this PC holds in memory for the pad is compared by its keys
      but its generation is not looked at: the takeover outranks it exactly when it
      is not newer than the pad's. */
  lemma MemoryIsOutrankedExactly(d: Desk, luck: Luck)
    requires StillAsOffered(d) && TakeOverIfAhead(d, luck).response.CountersRestored?
    requires d.Row(d.state.pendingTakeover.value.deviceId).None?
    requires PcFor(d, d.state.pendingTakeover.value).Some? && d.state.counters.generation < U32_MAX
    ensures TakeOverIfAhead(d, luck).desk.state.counters.generation
              > PcFor(d, d.state.pendingTakeover.value).value.generation
            <==> PcFor(d, d.state.pendingTakeover.value).value.generation <= d.state.counters.generation
  {}

  // ---- The handlers themselves ---------------------------------------------------------------

  class Handlers {
    const shared: Shared

    constructor (shared: Shared)
      ensures this.shared == shared
    {
      this.shared := shared;
    }

    method UpdateConfig(config: DeviceConfig, luck: Luck) returns (sent: seq<ToPad>, r: Response)
      modifies shared
      ensures Done(shared.View(), sent, r) == OnUpdateConfig(old(shared.View()), config, luck)
    {
      if !luck.valid { return [], Rejected; }
      if InPlay(shared.state) {
        shared.queue := shared.queue.(config := Some(config));
        if luck.touchesKeys { return [], Deferred; }
        shared.state := shared.state.(config := config);
        return [ConfigTo(config)], ConfigUpdated(config);
      }
      if shared.base.Some? && !luck.configTaken { return [], Failed; }
      shared.SaveConfig(config, luck.configTaken);
      shared.state := shared.state.(config := config);
      return [ConfigTo(config)], ConfigUpdated(config);
    }

    method ApplyLayout(screen: Screen, layout: Option<Layout>, luck: Luck) returns (sent: seq<ToPad>, r: Response)
      modifies shared
      ensures Done(shared.View(), sent, r) == LayoutSet(old(shared.View()), screen, layout, luck)
    {
      sent := [CounterSync.LayoutMessage((screen, layout))];
      if InPlay(shared.state) {
        shared.queue := shared.queue.(layouts := shared.queue.layouts + [(screen, layout)]);
        return sent, LayoutApplied;
      }
      shared.SaveLayout(screen, layout, luck.layoutTaken);
      if !shared.state.deviceConnected { return [], LayoutApplied; }
      if !luck.delivered { return sent, Failed; }
      r := if luck.confirmed then LayoutApplied else Rejected;
    }

    method SetLayout(screen: Screen, layout: Layout, luck: Luck) returns (sent: seq<ToPad>, r: Response)
      modifies shared
      ensures Done(shared.View(), sent, r) == OnSetLayout(old(shared.View()), screen, layout, luck)
    {
      hide LayoutSet, InsertLayout;
      if !luck.valid { return [], Rejected; }
      if luck.unsupported && shared.state.deviceConnected { return [], Rejected; }
      shared.state := shared.state.(customLayouts := InsertLayout(shared.state.customLayouts, (screen, layout)));
      sent, r := ApplyLayout(screen, Some(layout), luck);
    }

    method ResetLayout(screen: Screen, luck: Luck) returns (sent: seq<ToPad>, r: Response)
      modifies shared
      ensures Done(shared.View(), sent, r) == OnResetLayout(old(shared.View()), screen, luck)
    {
      hide LayoutSet, RemoveLayout;
      shared.state := shared.state.(customLayouts := RemoveLayout(shared.state.customLayouts, screen));
      sent, r := ApplyLayout(screen, None, luck);
    }

    method ForceSync(luck: Luck) returns (sent: seq<ToPad>, r: Response)
      requires |luck.going.replies| == CounterSync.ATTEMPTS
      modifies shared
      ensures Done(shared.View(), sent, r) == OnForceSync(old(shared.View()), luck)
    {
      hide CounterSync.Sync;
      if InPlay(shared.state) || shared.base.None? { return [], Rejected; }
      var result;
      result, sent := CounterSync.PerformSync(shared, luck.going);
      r := if result.Ok? then Synced(result.ok) else Failed;
    }

    method ResetCounters(confirm: bool, luck: Luck) returns (sent: seq<ToPad>, r: Response)
      modifies shared
      ensures Done(shared.View(), sent, r) == OnResetCounters(old(shared.View()), confirm, luck)
    {
      if !confirm || InPlay(shared.state) || shared.base.None? { return [], Rejected; }
      var updated := shared.state.counters.(
        generation := NextGeneration(shared.state.counters.generation), key1 := 0, key2 := 0);
      shared.state := shared.state.(counters := updated);
      var target := None;
      if shared.state.deviceInfo.Some? {
        target := Some(shared.state.deviceInfo.value.deviceId);
        shared.SaveRow(shared.state.deviceInfo.value.deviceId, updated, luck.now, luck.rowTaken);
      }
      sent := [];
      if shared.state.deviceConnected {
        sent := [CountersTo(updated, true)];
      } else {
        shared.queue := shared.queue.(devicePush := Some(PendingCounterReset(target)));
      }
      r := CountersReset(updated);
    }

    method Impose(id: string, target: CounterState, luck: Luck) returns (sent: seq<ToPad>, r: Response)
      modifies shared
      ensures Done(shared.View(), sent, r) == Imposed(old(shared.View()), id, target, luck)
    {
      shared.SaveRow(id, target, luck.now, luck.rowTaken);
      shared.Touch(id, luck.now, luck.seenTaken);
      shared.state := WithCounters(shared.state, target);
      return [CountersTo(target, true)], CountersRestored(target);
    }

    method RestoreDeviceFromPc(confirm: bool, luck: Luck) returns (sent: seq<ToPad>, r: Response)
      modifies shared
      ensures Done(shared.View(), sent, r) == OnRestore(old(shared.View()), confirm, luck)
    {
      hide Imposed;
      if !Restorable(shared.View(), confirm) { return [], Rejected; }
      var id := shared.state.deviceInfo.value.deviceId;
      var row := shared.View().Row(id);
      if row.None? { return [], Rejected; }
      var generation := Above(row.value.generation, shared.state.counters.generation);
      sent, r := Impose(id, CounterState(id, generation, row.value.key1, row.value.key2, 0, 0), luck);
    }

    method ImportPcFromDevice(confirm: bool, luck: Luck) returns (sent: seq<ToPad>, r: Response)
      modifies shared
      ensures Done(shared.View(), sent, r) == OnImport(old(shared.View()), confirm, luck)
    {
      hide Imposed;
      if !Restorable(shared.View(), confirm) { return [], Rejected; }
      var id := shared.state.deviceInfo.value.deviceId;
      var m := shared.state.counters;
      var generation := Above(RowGeneration(shared.View(), id), m.generation);
      sent, r := Impose(id, CounterState(id, generation, m.key1, m.key2, 0, 0), luck);
    }

    method ImportBackup(b: Backup, confirm: bool, luck: Luck) returns (sent: seq<ToPad>, r: Response)
      modifies shared
      ensures Done(shared.View(), sent, r) == OnImportBackup(old(shared.View()), b, confirm, luck)
    {
      if !confirm || InPlay(shared.state) || shared.base.None? { return [], Rejected; }
      if !luck.valid { return [], Failed; }
      var config := b.config.(tosuEndpoint := shared.state.config.tosuEndpoint);
      var generation := Above(shared.state.counters.generation, b.counters.generation);
      var c := CounterState(b.counters.deviceId, generation, b.counters.key1, b.counters.key2, 0, 0);
      shared.SaveConfig(config, luck.configTaken);
      shared.SaveRow(c.deviceId, c, luck.now, luck.rowTaken);
      shared.state := shared.state.(config := config, counters := c);
      return [ConfigTo(config), CountersTo(c, true)], BackupImported(c, config);
    }

    method SendLayouts() returns (sent: seq<ToPad>)
      ensures sent == LayoutsTo(shared.state.customLayouts)
    {
      sent := [];
      var layouts := shared.state.customLayouts;
      for i := 0 to |layouts|
        invariant sent == LayoutsTo(layouts[..i])
      {
        var (screen, layout) := layouts[i];
        sent := sent + [LayoutTo(screen, layout)];
      }
      assert layouts[..|layouts|] == layouts;
    }

    method TakeOver(id: string, owner: OwnerId, target: CounterState, luck: Luck)
      returns (sent: seq<ToPad>, r: Response)
      modifies shared
      ensures Done(shared.View(), sent, r) == TakenOver(old(shared.View()), id, owner, target, luck)
    {
      shared.SaveRow(id, target, luck.now, luck.rowTaken);
      shared.Touch(id, luck.now, luck.seenTaken);
      var layouts := SendLayouts();
      sent := [Claim(owner), CountersTo(target, true), ConfigTo(shared.state.config)] + layouts;
      shared.state := WithCounters(shared.state.(foreignPad := false), target);
      r := CountersRestored(target);
    }

    method ResolveTakeover(takeOver: bool, keep: bool, luck: Luck) returns (sent: seq<ToPad>, r: Response)
      modifies shared
      ensures Done(shared.View(), sent, r) == OnTakeover(old(shared.View()), takeOver, keep, luck)
    {
      hide TakenOver, TakeoverTarget;
      if InPlay(shared.state) { return [], Deferred; }
      var pending := shared.state.pendingTakeover;
      if pending.None? { return [], Rejected; }
      shared.state := shared.state.(pendingTakeover := None);
      if shared.state.deviceInfo.None? || !takeOver { return [], Rejected; }
      if shared.base.None? || shared.state.installId.None? {
        shared.state := shared.state.(pendingTakeover := pending);
        return [], Rejected;
      }
      var id := shared.state.deviceInfo.value.deviceId;
      var target := TakeoverTarget(shared.View(), id, keep);
      if !luck.claimed {
        shared.state := shared.state.(pendingTakeover := pending);
        return [], Failed;
      }
      sent, r := TakeOver(id, shared.state.installId.value, target, luck);
    }

    method ResolveReplacement(restore: bool, luck: Luck) returns (sent: seq<ToPad>, r: Response)
      modifies shared
      ensures Done(shared.View(), sent, r) == OnReplacement(old(shared.View()), restore, luck)
    {
      if InPlay(shared.state) || shared.base.None? { return [], Rejected; }
      var previous := shared.state.pendingReplacement;
      shared.state := shared.state.(pendingReplacement := None);
      if shared.state.deviceInfo.None? { return [], Rejected; }
      var id, m := shared.state.deviceInfo.value.deviceId, shared.state.counters;
      if !restore {
        shared.SaveRow(id, m, luck.now, luck.rowTaken);
        shared.Touch(id, luck.now, luck.seenTaken);
        return [], CountersReset(m);
      }
      if previous.None? || shared.View().Row(previous.value).None? { return [], Rejected; }
      var row := shared.View().Row(previous.value).value;
      var restored := CounterState(id, Above(row.generation, m.generation), row.key1, row.key2, 0, 0);
      shared.SaveRow(id, restored, luck.now, luck.rowTaken);
      shared.Touch(id, luck.now, luck.seenTaken);
      shared.state := shared.state.(counters := restored);
      return [CountersTo(restored, true)], CountersReset(restored);
    }

    method TakeOverIfPadIsAhead(luck: Luck) returns (sent: seq<ToPad>, r: Response)
      modifies shared
      ensures Done(shared.View(), sent, r) == TakeOverIfAhead(old(shared.View()), luck)
    {
      hide OnTakeover;
      if shared.state.pendingTakeover.None? { return [], Rejected; }
      var pending := shared.state.pendingTakeover.value;
      if PcIsAhead(PcFor(shared.View(), pending), OfferedCounters(pending)) { return [], Rejected; }
      sent, r := ResolveTakeover(true, true, luck);
    }

    method HandleRequest(request: Request, luck: Luck) returns (sent: seq<ToPad>, r: Response)
      requires |luck.going.replies| == CounterSync.ATTEMPTS
      modifies shared
      ensures Done(shared.View(), sent, r) == Handle(old(shared.View()), request, luck)
    {
      hide OnUpdateConfig, OnSetLayout, OnResetLayout, OnForceSync, OnResetCounters, OnRestore, OnImport,
        OnImportBackup, OnTakeover, OnReplacement;
      if AsksGuard(request) && shared.state.PadGuard().Some? { return [], Refused(shared.state.PadGuard().value); }
      match request {
        case UpdateConfig(config) => sent, r := UpdateConfig(config, luck);
        case SetLayout(screen, layout) => sent, r := SetLayout(screen, layout, luck);
        case ResetLayout(screen) => sent, r := ResetLayout(screen, luck);
        case ForceSync => sent, r := ForceSync(luck);
        case ResetCounters(confirm) => sent, r := ResetCounters(confirm, luck);
        case RestoreDeviceFromPc(confirm) => sent, r := RestoreDeviceFromPc(confirm, luck);
        case ImportPcFromDevice(confirm) => sent, r := ImportPcFromDevice(confirm, luck);
        case ImportBackup(backup, confirm) => sent, r := ImportBackup(backup, confirm, luck);
        case PlayAnimation(animation, grade) =>
          var done := OnPlayAnimation(shared.View(), animation, grade, luck);
          sent, r := done.sent, done.response;
        case ResolveTakeover(takeOver, keep) => sent, r := ResolveTakeover(takeOver, keep, luck);
        case ResolveReplacement(restore) => sent, r := ResolveReplacement(restore, luck);
        case TriggerEasterEgg => sent, r := [ValuesTo(EASTER_EGG)], EasterEggTriggered;
      }
    }
  }
}
