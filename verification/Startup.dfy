/** The daemon as it starts meets every invariant the runs are shown to keep. */
module Startup {
  import opened Options
  import opened Daemon
  import opened Runtime
  import ModeRuns
  import Backups
  import TapQueue
  import PressSources
  import HostStatuses
  import Replication
  import FlashPause
  import LogFollow
  import GuiFollow

  predicate FreshState(s: DaemonState) { s.mode == Idle && !s.deviceConnected && !s.foreignPad && !s.tosuConnected }

  lemma RunsStartCoherent(s: DaemonState, existing: set<string>, playId: nat, now: int)
    requires FreshState(s)
    ensures var c := StartOf(s, existing, playId, now);
            && ModeRuns.Inv(ModeRuns.World(c, true, {}, 0, 0, {}))
            && Backups.Balanced(Backups.Ledger(c, 0, 0, None))
            && TapQueue.Conserved(TapQueue.Record(c, [], [], []))
            && PressSources.OneSource(c.tap) && PressSources.EpochIs(c.tap.padEpoch, [])
            && HostStatuses.NeverMisled(HostStatuses.Heard(c, None, None))
            && Replication.Sound(Replication.World(c, [], [], map[], false, false, false, 0, {}))
    ensures FlashPause.InStep(FlashPause.START) && forall client :: LogFollow.Inv(LogFollow.FIRST, client)
    ensures var page := GuiFollow.FRESH;
            GuiFollow.Inv(page) && GuiFollow.OneStart(page) && GuiFollow.Single(page)
  {
    GuiFollow.FreshStarts();
  }
}
