/** What the IPC handlers and the syncs work on together: the shared state, the database
    and the queue of what waits for a sync, each under its own lock (desktop/daemon/src/
    sync.rs, ipc_handlers.rs and desktop/crates/opad-storage/src/lib.rs). */
module Desks {
  import opened Options
  import opened Counters
  import opened Daemon

  /** What goes to the pad past the runtime's own queue. */
  datatype ToPad =
    | CountersTo(counters: CounterState, force: bool)
    | StatusAsked
    | TimeTo
    | ConfigTo(config: DeviceConfig)
    | LayoutTo(screen: Screen, layout: Layout)
    | LayoutResetTo(screen: Screen)
    | Claim(owner: OwnerId)
    | AnimationTo(animation: nat, grade: string)
    | ValuesTo(values: Update)

  /** The tables read or written here. */
  datatype Database = Database(
    rows: map<string, CounterState>, seen: map<string, int>, config: DeviceConfig, layouts: map<Screen, Layout>)

  /** `base` is there while the database is open. A write can be refused: by the write
      guard when a map has started, or by the disk. */
  datatype Desk = Desk(state: DaemonState, base: Option<Database>, queue: PendingOperations) {
    function Row(id: string): Option<CounterState> {
      if base.Some? && id in base.value.rows then Some(base.value.rows[id]) else None
    }

    function With(b: Database, taken: bool): (d: Desk)
      ensures d.state == state && d.queue == queue && (d.base.Some? <==> base.Some?)
    {
      if taken && base.Some? then this.(base := Some(b)) else this
    }

    function SaveRow(id: string, c: CounterState, now: int, taken: bool): (d: Desk)
      ensures d.state == state && d.queue == queue && (d.base.Some? <==> base.Some?)
    {
      if base.None? then this
      else With(base.value.(rows := base.value.rows[id := c], seen := base.value.seen[id := now]), taken)
    }

    /** Only a pad that has a row. */
    function Touch(id: string, now: int, taken: bool): (d: Desk)
      ensures d.state == state && d.queue == queue && (d.base.Some? <==> base.Some?)
    {
      if Row(id).None? then this else With(base.value.(seen := base.value.seen[id := now]), taken)
    }

    function SaveConfig(config: DeviceConfig, taken: bool): (d: Desk)
      ensures d.state == state && d.queue == queue && (d.base.Some? <==> base.Some?)
    {
      if base.None? then this else With(base.value.(config := config), taken)
    }

    function SaveLayout(screen: Screen, layout: Option<Layout>, taken: bool): (d: Desk)
      ensures d.state == state && d.queue == queue && (d.base.Some? <==> base.Some?)
    {
      if base.None? then this
      else if layout.Some? then With(base.value.(layouts := base.value.layouts[screen := layout.value]), taken)
      else With(base.value.(layouts := base.value.layouts - {screen}), taken)
    }
  }

  /** The three as the objects they are. */
  class Shared {
    var state: DaemonState
    var base: Option<Database>
    var queue: PendingOperations

    function View(): Desk
      reads this
    {
      Desk(state, base, queue)
    }

    constructor (d: Desk)
      ensures View() == d
    {
      state, base, queue := d.state, d.base, d.queue;
    }

    /** Whatever other tasks do to them while this one waits. */
    method Others(f: Desk -> Desk)
      modifies this
      ensures View() == f(old(View()))
    {
      var d := f(View());
      state, base, queue := d.state, d.base, d.queue;
    }

    method SaveRow(id: string, c: CounterState, now: int, taken: bool)
      modifies this`base
      ensures View() == old(View()).SaveRow(id, c, now, taken)
    {
      if taken && base.Some? {
        var b := base.value;
        base := Some(b.(rows := b.rows[id := c], seen := b.seen[id := now]));
      }
    }

    method Touch(id: string, now: int, taken: bool)
      modifies this`base
      ensures View() == old(View()).Touch(id, now, taken)
    {
      if taken && base.Some? && id in base.value.rows {
        base := Some(base.value.(seen := base.value.seen[id := now]));
      }
    }

    method SaveConfig(config: DeviceConfig, taken: bool)
      modifies this`base
      ensures View() == old(View()).SaveConfig(config, taken)
    {
      if taken && base.Some? { base := Some(base.value.(config := config)); }
    }

    method SaveLayout(screen: Screen, layout: Option<Layout>, taken: bool)
      modifies this`base
      ensures View() == old(View()).SaveLayout(screen, layout, taken)
    {
      if taken && base.Some? {
        var b := base.value;
        base := Some(b.(layouts := if layout.Some? then b.layouts[screen := layout.value] else b.layouts - {screen}));
      }
    }
  }
}
