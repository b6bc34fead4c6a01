/** What the tick does and when (desktop/daemon/src/runtime.rs): the ends of the cooldown
    and of the wait for a backup, polls, heartbeats, periodic syncs, the tap rate saves
    and the flush. */
module Ticks {
  import opened Options
  import opened Counters
  import opened TapRate
  import opened Daemon
  import opened Telemetry
  import opened Runtime

  /** So long has passed, on a clock that never runs backwards. */
  predicate Due(at: int, last: int, interval: int) { at - last >= interval }

  /** The tick ends the cooldown. */
  predicate CoolsDown(c: Ctl, at: int) {
    c.state.mode == Cooldown && c.clock.cooldownDeadline.Some? && at >= c.clock.cooldownDeadline.value
  }

  /** Where that leaves the mode: a pad that may not be touched is not synced with. */
  function ModeAfter(c: Ctl, at: int): Mode {
    if CoolsDown(c, at) then (if c.state.PadGuard().Some? then Idle else Sync) else c.state.mode
  }

  // ---- The parts -------------------------------------------------------------------------

  lemma CooldownPart(c: Ctl, at: int)
    ensures TickCooldown(c, at).c == c.(
              state := c.state.(mode := ModeAfter(c, at)),
              clock := c.clock.(cooldownDeadline := if CoolsDown(c, at) then None else c.clock.cooldownDeadline,
                                backupAfterSync := c.clock.backupAfterSync
                                                   || (CoolsDown(c, at) && ModeAfter(c, at) == Sync)))
  {}

  lemma CooldownEmits(c: Ctl, at: int, a: Action)
    ensures a in TickCooldown(c, at).actions <==>
              && CoolsDown(c, at)
              && (a == SetStorageWritesAllowed(true) || (a == TriggerSync && ModeAfter(c, at) == Sync))
  {}

  lemma StatusPart(c: Ctl, at: int)
    ensures TickStatus(c, at).c == c.(clock := c.clock.(
              lastStatusPoll := if Due(at, c.clock.lastStatusPoll, 1_000_000) then at else c.clock.lastStatusPoll,
              lastHostStatus := if c.state.deviceConnected && Due(at, c.clock.lastHostStatus, 1_000_000) then at
                                else c.clock.lastHostStatus))
  {}

  lemma StatusEmits(c: Ctl, at: int, a: Action)
    ensures a in TickStatus(c, at).actions <==>
              && c.state.deviceConnected
              && ((a == RequestDeviceStatus && Due(at, c.clock.lastStatusPoll, 1_000_000))
                  || (a == SendHostStatus(c.state.tosuConnected, c.state.mode == Playing, c.show.playId,
                                          c.state.osuActive)
                      && Due(at, c.clock.lastHostStatus, 1_000_000)))
  {}

  lemma DataPart(env: Env, c: Ctl, at: int)
    ensures var o := TickData(env, c, at);
            && o.c == c.(data := o.c.data, tap := o.c.tap, state := c.state.(tap := o.c.state.tap))
            && o.c.tap.unsaved == c.tap.unsaved && o.c.tap.lastRefresh == c.tap.lastRefresh
            && o.c.state.tap.periodUnsaved == c.state.tap.periodUnsaved
            && o.c.state.tap.periodDays == c.state.tap.periodDays
            && o.c.state.tap.unsavedAttempts == |c.tap.unsaved|
            && forall a :: a in o.actions ==> a.SendDataUpdate?
  {
    hide Ingested, Changes, Flushed;
  }

  predicate PeriodDue(c: Ctl, last: int, at: int, interval: int) {
    c.state.mode == Idle && c.state.deviceConnected && !c.state.foreignPad && Due(at, last, interval)
  }

  lemma PeriodicPart(c: Ctl, at: int)
    ensures TickPeriodic(c, at).c == c.(clock := c.clock.(
              lastPeriodicTimeSync := if PeriodDue(c, c.clock.lastPeriodicTimeSync, at, 600_000_000) then at
                                      else c.clock.lastPeriodicTimeSync,
              lastPeriodicSync := if PeriodDue(c, c.clock.lastPeriodicSync, at, 300_000_000) then at
                                  else c.clock.lastPeriodicSync))
  {}

  lemma PeriodicEmits(c: Ctl, at: int, a: Action)
    ensures a in TickPeriodic(c, at).actions <==>
              || ((a == SendTimeSync || a == RequestDeviceStatus)
                  && PeriodDue(c, c.clock.lastPeriodicTimeSync, at, 600_000_000))
              || (a == TriggerSync && PeriodDue(c, c.clock.lastPeriodicSync, at, 300_000_000)
                  && c.state.storageError.None? && c.state.PadGuard().None? && PressesMoved(c))
  {}

  /** The pad's presses are not those of the last sync, or there was none. */
  predicate PressesMoved(c: Ctl) {
    var last := c.pairing.lastSyncedCounters;
    last.Some? ==> last.value.key1 != c.state.counters.key1 || last.value.key2 != c.state.counters.key2
  }

  /** Something of the tap rate waits for the database, and that is there to take it. */
  predicate Saves(c: Ctl) {
    c.state.mode == Idle && c.state.storageError.None? && (c.tap.unsaved != [] || c.state.tap.periodUnsaved)
  }

  /** Nothing does, and the history is an hour old. */
  predicate Rereads(c: Ctl, at: int) {
    && c.state.mode == Idle && c.state.storageError.None? && c.tap.unsaved == [] && !c.state.tap.periodUnsaved
    && Due(at, c.tap.lastRefresh, 3_600_000_000)
  }

  lemma StatsPart(c: Ctl, at: int)
    ensures TickTapStats(c, at).c == c.(
              tap := c.tap.(unsaved := if Saves(c) then [] else c.tap.unsaved,
                            lastRefresh := if Saves(c) || Rereads(c, at) then at else c.tap.lastRefresh),
              state := if Saves(c) then c.state.(tap := c.state.tap.(periodUnsaved := false, unsavedAttempts := 0))
                       else c.state)
  {}

  lemma StatsEmits(c: Ctl, at: int, a: Action)
    ensures a in TickTapStats(c, at).actions <==>
              || (Rereads(c, at) && a == RefreshTapHistory)
              || (Saves(c) && a == SaveTapStats(c.tap.unsaved, if c.state.tap.periodUnsaved
                                                               then Some(c.state.tap.periodDays) else None))
  {}

  lemma BackupPart(c: Ctl, at: int)
    ensures var o := TickBackup(c, at);
            var deadline := c.clock.backupDeadline;
            && o.c == c.(clock := c.clock.(backupDeadline :=
                 if deadline.Some? && (c.state.mode != Idle || at >= deadline.value) then None else deadline))
            && o.actions == (if deadline.Some? && c.state.mode == Idle && at >= deadline.value then [WriteAutoBackup]
                             else [])
  {}

  /** The controller before the periodic syncs, and before the saves. */
  function Midway(env: Env, c: Ctl, at: int): Ctl { TickData(env, TickStatus(TickCooldown(c, at).c, at).c, at).c }

  function Later(env: Env, c: Ctl, at: int): Ctl { TickPeriodic(Midway(env, c, at), at).c }

  lemma MidwayIs(env: Env, c: Ctl, at: int)
    ensures var m, s := Midway(env, c, at), TickStatus(TickCooldown(c, at).c, at).c;
            && m.state == c.state.(mode := ModeAfter(c, at), tap := m.state.tap)
            && m.pairing == c.pairing && m.show == c.show
            && m.clock == c.clock.(cooldownDeadline := m.clock.cooldownDeadline,
                                   backupAfterSync := m.clock.backupAfterSync,
                                   lastStatusPoll := m.clock.lastStatusPoll, lastHostStatus := m.clock.lastHostStatus)
            && m.tap.unsaved == c.tap.unsaved && m.tap.lastRefresh == c.tap.lastRefresh
            && m.state.tap.periodUnsaved == c.state.tap.periodUnsaved
            && m.state.tap.periodDays == c.state.tap.periodDays && m.state.tap.unsavedAttempts == |c.tap.unsaved|
    ensures var m := Midway(env, c, at).clock;
            && m.cooldownDeadline == (if CoolsDown(c, at) then None else c.clock.cooldownDeadline)
            && m.backupAfterSync == (c.clock.backupAfterSync || (CoolsDown(c, at) && ModeAfter(c, at) == Sync))
            && m.lastStatusPoll == (if Due(at, c.clock.lastStatusPoll, 1_000_000) then at else c.clock.lastStatusPoll)
  {
    hide TickCooldown, TickStatus, TickData, Due, CoolsDown, ModeAfter;
    var cool := TickCooldown(c, at).c;
    CooldownPart(c, at);
    StatusPart(cool, at);
    DataPart(env, TickStatus(cool, at).c, at);
  }

  lemma LaterIs(env: Env, c: Ctl, at: int)
    ensures var m, l := Midway(env, c, at), Later(env, c, at);
            l == m.(clock := m.clock.(lastPeriodicSync := l.clock.lastPeriodicSync,
                                      lastPeriodicTimeSync := l.clock.lastPeriodicTimeSync))
  {
    hide TickPeriodic, Midway;
    PeriodicPart(Midway(env, c, at), at);
  }

  /** How the parts follow each other. */
  lemma Parts(env: Env, c: Ctl, at: int, a: Action)
    ensures var o := OnEvent(env, c, Tick(at), at);
            var cool := TickCooldown(c, at);
            var status := TickStatus(cool.c, at);
            var stats := TickTapStats(Later(env, c, at), at);
            && o.c == TickBackup(stats.c, at).c
            && (a in o.actions <==>
                  || a in cool.actions || a in status.actions || a in TickData(env, status.c, at).actions
                  || a in TickPeriodic(Midway(env, c, at), at).actions || a in stats.actions
                  || a in TickBackup(stats.c, at).actions)
  {
    hide TickCooldown, TickStatus, TickData, TickPeriodic, TickTapStats, TickBackup;
  }

  // ---- The tick --------------------------------------------------------------------------

  /** What a tick asks of the pad and of the syncs, and when it lets storage be written. A
      connected pad is asked for its status once a second; in IDLE a pad of ours gets the
      time, and is asked again, every ten minutes, and is synced with every five when its
      presses moved and neither the database nor a prompt stands in the way. The end of the
      cooldown leads into SYNC unless the pad may not be touched. */
  lemma TickAsks(env: Env, c: Ctl, at: int, a: Action)
    requires a == RequestDeviceStatus || a == SendTimeSync || a == TriggerSync || a.SetStorageWritesAllowed?
    ensures var mode := ModeAfter(c, at);
            var ours := mode == Idle && c.state.deviceConnected && !c.state.foreignPad;
            var poll := Due(at, c.clock.lastStatusPoll, 1_000_000);
            var time := ours && Due(at, c.clock.lastPeriodicTimeSync, 600_000_000);
            var sync := ours && Due(at, c.clock.lastPeriodicSync, 300_000_000);
            a in OnEvent(env, c, Tick(at), at).actions <==>
              match a
              case RequestDeviceStatus => (c.state.deviceConnected && poll) || time
              case SendTimeSync => time
              case TriggerSync =>
                || (CoolsDown(c, at) && mode == Sync)
                || (sync && c.state.storageError.None? && c.state.PadGuard().None? && PressesMoved(c))
              case _ => a == SetStorageWritesAllowed(true) && CoolsDown(c, at)
  {
    hide OnEvent, TickCooldown, TickStatus, TickData, TickPeriodic, TickTapStats, TickBackup, Midway, Later;
    hide PressesMoved, Due, CoolsDown, ModeAfter;
    var cool := TickCooldown(c, at).c;
    var status := TickStatus(cool, at).c;
    var l := Later(env, c, at);
    Parts(env, c, at, a);
    CooldownPart(c, at);
    CooldownEmits(c, at, a);
    StatusEmits(cool, at, a);
    DataPart(env, status, at);
    MidwayIs(env, c, at);
    PeriodicEmits(Midway(env, c, at), at, a);
    StatsEmits(l, at, a);
    BackupPart(TickTapStats(l, at).c, at);
    SameMoved(c, Midway(env, c, at));
  }

  lemma SameMoved(c: Ctl, d: Ctl)
    requires c.pairing == d.pairing && c.state.counters == d.state.counters
    ensures PressesMoved(c) == PressesMoved(d)
  {}

  /** When each of these comes due again, and where the tick leaves the mode. */
  lemma TickReckons(env: Env, c: Ctl, at: int)
    ensures var o := OnEvent(env, c, Tick(at), at).c;
            var ours := ModeAfter(c, at) == Idle && c.state.deviceConnected && !c.state.foreignPad;
            var k := c.clock;
            && o.state.mode == ModeAfter(c, at)
            && o.clock.lastStatusPoll == (if Due(at, k.lastStatusPoll, 1_000_000) then at else k.lastStatusPoll)
            && o.clock.lastPeriodicTimeSync
               == (if ours && Due(at, k.lastPeriodicTimeSync, 600_000_000) then at else k.lastPeriodicTimeSync)
            && o.clock.lastPeriodicSync
               == (if ours && Due(at, k.lastPeriodicSync, 300_000_000) then at else k.lastPeriodicSync)
            && o.clock.cooldownDeadline == (if CoolsDown(c, at) then None else k.cooldownDeadline)
            && o.clock.backupAfterSync == (k.backupAfterSync || (CoolsDown(c, at) && ModeAfter(c, at) == Sync))
  {
    hide OnEvent, TickCooldown, TickStatus, TickData, TickPeriodic, TickTapStats, TickBackup, Midway, Later, Due,
      CoolsDown, ModeAfter, Saves, Rereads;
    Parts(env, c, at, WriteAutoBackup);
    MidwayIs(env, c, at);
    LaterIs(env, c, at);
    LaterReckons(env, c, at);
    StatsPart(Later(env, c, at), at);
    BackupPart(TickTapStats(Later(env, c, at), at).c, at);
  }

  lemma LaterReckons(env: Env, c: Ctl, at: int)
    ensures var m, l := Midway(env, c, at), Later(env, c, at).clock;
            && l.lastPeriodicTimeSync == (if PeriodDue(m, m.clock.lastPeriodicTimeSync, at, 600_000_000) then at
                                          else m.clock.lastPeriodicTimeSync)
            && l.lastPeriodicSync == (if PeriodDue(m, m.clock.lastPeriodicSync, at, 300_000_000) then at
                                      else m.clock.lastPeriodicSync)
  {
    hide Midway, TickPeriodic, PeriodDue;
    PeriodicPart(Midway(env, c, at), at);
  }

  /** What a tick saves and reads of the tap rate history, and the backup: in IDLE with the
      database in order, whatever is unsaved goes at once, with a changed period; the history
      is read again when an hour has passed without either; a backup is written when its time
      has come, and given up outside IDLE. */
  lemma TickSaves(env: Env, c: Ctl, at: int)
    ensures var o := OnEvent(env, c, Tick(at), at).c;
            var idle := ModeAfter(c, at) == Idle;
            var may := idle && c.state.storageError.None?;
            var s := c.state.tap;
            var saves := may && (c.tap.unsaved != [] || s.periodUnsaved);
            var rereads := may && !saves && Due(at, c.tap.lastRefresh, 3_600_000_000);
            var deadline := c.clock.backupDeadline;
            && o.tap.lastRefresh == (if saves || rereads then at else c.tap.lastRefresh)
            && o.tap.unsaved == (if saves then [] else c.tap.unsaved)
            && o.state.tap.periodUnsaved == (s.periodUnsaved && !saves)
            && o.state.tap.unsavedAttempts == |o.tap.unsaved|
            && o.clock.backupDeadline == (if idle && deadline.Some? && at < deadline.value then deadline else None)
  {
    hide OnEvent, TickCooldown, TickStatus, TickData, TickPeriodic, TickTapStats, TickBackup, Midway, Later, Due,
      CoolsDown, ModeAfter;
    Parts(env, c, at, WriteAutoBackup);
    MidwayIs(env, c, at);
    LaterIs(env, c, at);
    StatsPart(Later(env, c, at), at);
    BackupPart(TickTapStats(Later(env, c, at), at).c, at);
  }

  /** And what it emits for it. */
  lemma TickEmitsSaves(env: Env, c: Ctl, at: int, a: Action)
    requires a.SaveTapStats? || a.RefreshTapHistory? || a.WriteAutoBackup?
    ensures var idle := ModeAfter(c, at) == Idle;
            var may := idle && c.state.storageError.None?;
            var s := c.state.tap;
            var saves := may && (c.tap.unsaved != [] || s.periodUnsaved);
            var rereads := may && !saves && Due(at, c.tap.lastRefresh, 3_600_000_000);
            var deadline := c.clock.backupDeadline;
            a in OnEvent(env, c, Tick(at), at).actions <==>
              match a
              case SaveTapStats(attempts, period) =>
                saves && attempts == c.tap.unsaved && period == (if s.periodUnsaved then Some(s.periodDays) else None)
              case RefreshTapHistory => rereads
              case _ => idle && deadline.Some? && at >= deadline.value
  {
    hide OnEvent, TickCooldown, TickStatus, TickData, TickPeriodic, TickTapStats, TickBackup, Midway, Later, Due,
      CoolsDown, ModeAfter;
    var cool := TickCooldown(c, at).c;
    var l := Later(env, c, at);
    Parts(env, c, at, a);
    CooldownEmits(c, at, a);
    StatusEmits(cool, at, a);
    DataPart(env, TickStatus(cool, at).c, at);
    MidwayIs(env, c, at);
    LaterIs(env, c, at);
    PeriodicEmits(Midway(env, c, at), at, a);
    StatsPart(l, at);
    StatsEmits(l, at, a);
    BackupPart(TickTapStats(l, at).c, at);
  }

  /** The attempt being played moves on with the tick, and is shown as it then is; a history
      that changed is shown too. */
  lemma TickAdvances(env: Env, c: Ctl, at: int)
    ensures var o := OnEvent(env, c, Tick(at), at).c;
            && o.tap.attempt == (if c.tap.attempt.None? then None
                                 else Some(c.tap.attempt.value.Fed([Advanced(at)])))
            && (c.tap.attempt.Some? ==> o.state.tap.current == o.tap.attempt)
            && o.tap.published == c.state.tap.history
            && o.data.latest
               == (var known := if c.tap.attempt.Some? then Merge(c.data.latest, env.live(o.tap.attempt))
                                else c.data.latest;
                   if c.tap.published == c.state.tap.history then known
                   else Merge(known, env.history(c.state.tap.history)))
  {
    hide OnEvent, TickCooldown, TickStatus, TickData, TickPeriodic, TickTapStats, TickBackup, Later;
    hide Due, Saves, Rereads;
    var cool := TickCooldown(c, at).c;
    Parts(env, c, at, WriteAutoBackup);
    CooldownPart(c, at);
    StatusPart(cool, at);
    Advances(env, TickStatus(cool, at).c, at);
    LaterIs(env, c, at);
    StatsPart(Later(env, c, at), at);
    BackupPart(TickTapStats(Later(env, c, at), at).c, at);
  }

  lemma Advances(env: Env, c: Ctl, at: int)
    ensures var o := TickData(env, c, at).c;
            && o.tap.attempt == (if c.tap.attempt.None? then None
                                 else Some(c.tap.attempt.value.Fed([Advanced(at)])))
            && (c.tap.attempt.Some? ==> o.state.tap.current == o.tap.attempt)
            && o.tap.published == c.state.tap.history
            && o.data.latest
               == (var known := if c.tap.attempt.Some? then Merge(c.data.latest, env.live(o.tap.attempt))
                                else c.data.latest;
                   if c.tap.published == c.state.tap.history then known
                   else Merge(known, env.history(c.state.tap.history)))
  {
    hide Changes, FlushDue, Merge, Diff;
  }

  /** A tick's flush: to a pad of ours, what it does not have of what is then known, by
      ascending source, once the interval of the mode has passed since the last: half a
      second outside play, that of the configured rate in play. */
  lemma TickFlushes(env: Env, c: Ctl, at: int, u: Update)
    ensures var o := OnEvent(env, c, Tick(at), at);
            var playing := ModeAfter(c, at) == Playing;
            var interval := if playing then FlushIntervalPlaying(c.state.config.gameplayDisplayHz) else 500_000;
            var due := c.data.lastFlush.None? || at - c.data.lastFlush.value >= interval;
            var sends := c.state.deviceConnected && !c.state.foreignPad && due;
            && (SendDataUpdate(u) in o.actions <==> sends && u != [] && IsDiff(u, o.c.data.latest, c.data.sent))
            && o.c.data.lastFlush == (if sends then Some(at) else c.data.lastFlush)
            && (!sends ==> o.c.data.sent == c.data.sent)
            && (sends ==> o.c.data.sent == Merged(c.data.sent, o.c.data.latest))
  {
    hide OnEvent, TickCooldown, TickStatus, TickData, TickPeriodic, TickTapStats, TickBackup, Later, Due, PressesMoved,
      IsDiff, Merged, FlushIntervalPlaying, Saves, Rereads;
    var cool := TickCooldown(c, at).c;
    var l := Later(env, c, at);
    Parts(env, c, at, SendDataUpdate(u));
    CooldownPart(c, at);
    CooldownEmits(c, at, SendDataUpdate(u));
    StatusPart(cool, at);
    StatusEmits(cool, at, SendDataUpdate(u));
    Flushes(env, TickStatus(cool, at).c, at, u);
    PeriodicEmits(Midway(env, c, at), at, SendDataUpdate(u));
    LaterIs(env, c, at);
    StatsPart(l, at);
    StatsEmits(l, at, SendDataUpdate(u));
    BackupPart(TickTapStats(l, at).c, at);
  }

  /** Exactly the pairs of `latest` that `sent` does not have, by ascending source. */
  ghost predicate IsDiff(u: Update, latest: Values, sent: Values) {
    Ascending(u)
    && forall k, v :: (k, v) in u <==> k in latest && latest[k] == v && !(k in sent && sent[k] == v)
  }

  function Merged(sent: Values, latest: Values): Values { sent + latest }

  lemma Flushes(env: Env, c: Ctl, at: int, u: Update)
    ensures var o := TickData(env, c, at);
            var interval := if c.state.mode == Playing then FlushIntervalPlaying(c.state.config.gameplayDisplayHz)
                            else 500_000;
            var due := c.data.lastFlush.None? || at - c.data.lastFlush.value >= interval;
            var sends := c.state.deviceConnected && !c.state.foreignPad && due;
            && (SendDataUpdate(u) in o.actions <==> sends && u != [] && IsDiff(u, o.c.data.latest, c.data.sent))
            && o.c.data.lastFlush == (if sends then Some(at) else c.data.lastFlush)
            && (!sends ==> o.c.data.sent == c.data.sent)
            && (sends ==> o.c.data.sent == Merged(c.data.sent, o.c.data.latest))
  {
    hide TickPlay, IsDiff, Merged, FlushIntervalPlaying, Changes, Flushed;
    var play := WithPlay(c, TickPlay(env, PlayOf(c), at));
    PlaySendsNothing(env, PlayOf(c), at);
    FlushIs(play.data, c.state.mode == Playing, c.state.config.gameplayDisplayHz, at, u);
  }

  /** A flush in itself. */
  lemma FlushIs(d: Data, playing: bool, hz: nat, at: int, u: Update)
    ensures var interval := if playing then FlushIntervalPlaying(hz) else 500_000;
            var due := d.lastFlush.None? || at - d.lastFlush.value >= interval;
            var changes, after := Changes(d, playing, hz, false, at), Flushed(d, playing, hz, false, at);
            && after.latest == d.latest && (!due ==> changes == [] && after == d)
            && (due ==> after.lastFlush == Some(at) && after.sent == Merged(d.sent, d.latest))
            && (due ==> (u == changes <==> IsDiff(u, d.latest, d.sent)))
  {
    hide FlushIntervalPlaying;
    ListingIs(Diff(d), 0);
    if IsDiff(u, d.latest, d.sent) { OneListing(u, Listing(Diff(d), 0)); }
    MergesTo(d.sent, Listing(Diff(d), 0), d);
  }

  /** Two updates in ascending order with the same pairs are the same. */
  lemma {:induction false} OneListing(a: Update, b: Update)
    requires Ascending(a) && Ascending(b) && forall k, v :: (k, v) in a <==> (k, v) in b
    ensures a == b
    decreases |a|
  {
    assert a != [] ==> (a[0].0, a[0].1) in a;
    assert b != [] ==> (b[0].0, b[0].1) in b;
    if a != [] && b != [] {
      assert a[0] == b[0];
      forall k, v ensures (k, v) in a[1..] <==> (k, v) in b[1..] {
        assert (k, v) in a <==> (k, v) == a[0] || (k, v) in a[1..];
        assert (k, v) in b <==> (k, v) == b[0] || (k, v) in b[1..];
      }
      OneListing(a[1..], b[1..]);
    }
  }

  lemma MergesTo(sent: Values, u: Update, d: Data)
    requires sent == d.sent && Ascending(u)
    requires forall k, v :: (k, v) in u <==> k in Diff(d) && Diff(d)[k] == v
    ensures Merge(sent, u) == Merged(d.sent, d.latest)
  {
    var m, n := Merge(sent, u), Merged(d.sent, d.latest);
    forall k: Source ensures (k in m <==> k in n) && (k in m ==> m[k] == n[k]) {
      MergeIs(sent, u, k);
      if k in Diff(d) { assert (k, Diff(d)[k]) in u; }
    }
  }

  lemma PlaySendsNothing(env: Env, p: Play, at: int)
    ensures var d := TickPlay(env, p, at).data; d.sent == p.data.sent && d.lastFlush == p.data.lastFlush
  {}
}
