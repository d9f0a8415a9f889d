/** The recovery code does to a run what the daemon's boot step says. */
module Boot {
  import opened Runs
  import opened StateMachine
  import opened RunProtocol
  import Daemon
  import Recovery

  /** One run as the recovery pass leaves it. */
  function Left(f: Run, id: RunId, states: map<RunId, RunState>, locks: set<RunId>,
                metadata: map<RunId, Recovery.Metadata>, w: Recovery.Answers): Run
    requires id in states
  {
    f.(state := Recovery.StatesAfter(states, metadata, id, w)[id],
       locked := id in Recovery.LocksAfter(states, locks, id, w))
  }

  /** Whatever the store and the process table answer, and with the failure it reports. */
  lemma RecoverRunIsABootStep(f: Run, id: RunId, states: map<RunId, RunState>, locks: set<RunId>,
                              metadata: map<RunId, Recovery.Metadata>, w: Recovery.Answers)
    requires id in states && states[id] == f.state && (f.locked <==> id in locks)
    ensures Daemon.Recovers(f, Left(f, id, states, locks, metadata, w),
                            Recovery.Judged(states, locks, metadata, id, w).failed)
  {
  }

  /**
   * A mid-flight run whose metadata names no process is taken for one that never had any: it is reported as
   * not launched and orphaned, and nothing is stopped, whatever is running.
   */
  lemma UnrecordedIsLeftAlone(id: RunId, states: map<RunId, RunState>, locks: set<RunId>,
                              metadata: map<RunId, Recovery.Metadata>, w: Recovery.Answers)
    requires id in states && Recovery.MidFlight(states[id]) && id in metadata && !metadata[id].HasProcess()
    ensures var v := Recovery.Judged(states, locks, metadata, id, w);
            && v.terminated.None?
            && (v.orphaned.Some? ==> v.orphaned.value.liveness.NotLaunched?)
            && (!v.failed ==> v.orphaned.Some? && Recovery.StatesAfter(states, metadata, id, w)[id] == ORPHANED)
  {
  }

  /** A listed directory without state is a failure of the pass, whatever is answered, and stays as it is. */
  lemma IncompleteFailsTheBoot(id: RunId, states: map<RunId, RunState>, locks: set<RunId>,
                               metadata: map<RunId, Recovery.Metadata>, w: Recovery.Answers)
    requires id !in states
    ensures Recovery.Judged(states, locks, metadata, id, w).failed
    ensures Recovery.StatesAfter(states, metadata, id, w) == states
  {
  }
}
