/** When a daemon can boot again: directories without state, and which runs a later incarnation can launch. */
module Reboots {
  import opened Options
  import opened Runs
  import opened StateMachine
  import opened RunProtocol
  import opened Daemon
  import opened Steps
  import opened Lifecycle
  import opened Creations
  import opened Scenarios
  import Denials

  // ---- directories without state ---------------------------------------------------------------

  /** Listed, without state, and no call left that would write it. */
  ghost predicate Abandoned(s: State, id: RunId) {
    id in s.incomplete && !BeingMade(s, id)
  }

  /** store.create ends here and leaves the directory without state; it may have just been made. */
  ghost predicate EndsMaking(s: State, s': State, id: RunId) {
    && id in s'.incomplete
    && ((id !in s.incomplete && !BeingMade(s', id)) || exists t :: StandsMaking(s, t, id) && t !in s'.procs)
  }

  lemma IncompleteChanges(s: State, a: Action, s': State, id: RunId)
    requires Inv(s) && Step(s, a, s') && (id in s.incomplete) != (id in s'.incomplete)
    ensures if a.MakeRun? then a.id == id && id !in s.incomplete && s.phase.Serving? && Serves(s, a, s')
            else a.MakeState? && StandsMaking(s, a.t, id) && id in s.incomplete
  {
    hide LeasesOk, RunsOk, CreatesOk, MakesOk, MemoryOk, CancelsOk, DrainOk, BootOk, Serves, Recovers;
    if s.phase.Serving? && !a.WorkerExit? && !a.Crash? {
      ServesAlone(s, a, s');
      hide ActsAlone;
      if a.MakeRun? {
        MakesWhatIsNew(s, a, s');
      } else {
        MakesWhatIsMaking(s, a, s');
      }
    }
  }

  /** No call starts making a directory that is there. */
  lemma NoNewMaking(s: State, a: Action, s': State, id: RunId, t: Tid)
    requires Inv(s) && Step(s, a, s') && id in s.incomplete && StandsMaking(s', t, id)
    ensures StandsMaking(s, t, id)
  {
    hide LeasesOk, RunsOk, CreatesOk, MakesOk, CancelsOk, DrainOk, BootOk, Serves, Recovers, ActsAlone;
    if s.phase.Serving? && !a.WorkerExit? && !a.Crash? {
      assert s.nextTid !in s.procs;
      hide MemoryOk;
      ServesAlone(s, a, s');
      if a.MakeRun? {
        MakesWhatIsNew(s, a, s');
        hide Mentioned;
      }
      AloneMakes(s, a, s', t);
    }
  }

  lemma AloneMakes(s: State, a: Action, s': State, t: Tid)
    requires s.nextTid !in s.procs && ActsAlone(s, a, s') && t in s'.procs && s'.procs[t].Making?
    ensures (t == s.nextTid && a.MakeRun?) || StandsMaking(s, t, s'.procs[t].run)
  {
  }

  lemma AbandonedStays(s: State, a: Action, s': State, id: RunId)
    requires Inv(s) && Step(s, a, s') && Abandoned(s, id)
    ensures Abandoned(s', id)
  {
    hide Inv, Step;
    if id !in s'.incomplete {
      IncompleteChanges(s, a, s', id);
    }
    if t :| StandsMaking(s', t, id) {
      NoNewMaking(s, a, s', id, t);
    }
  }

  lemma BecomesAbandoned(s: State, a: Action, s': State, id: RunId)
    requires Inv(s) && Step(s, a, s') && !Abandoned(s, id) && Abandoned(s', id)
    ensures EndsMaking(s, s', id)
  {
    hide Inv, Step;
    if id in s.incomplete {
      var t :| StandsMaking(s, t, id);
      MakerGone(s, a, s', t, id);
      assert StandsMaking(s, t, id) && t !in s'.procs;
    }
  }

  lemma MakerGone(s: State, a: Action, s': State, t: Tid, id: RunId)
    requires Inv(s) && Step(s, a, s') && StandsMaking(s, t, id) && Abandoned(s', id)
    ensures t !in s'.procs
  {
    hide Inv, Step, Abandoned;
    CrashIsNewEpoch(s, a, s');
    if StepsItself(a, t) {
      MakerSteps(s, a, s', t);
      StillMakes(s', t, id);
    } else {
      CreationsStay(s, a, s', t);
      StillMakes(s', t, id);
    }
  }

  lemma StillMakes(s: State, t: Tid, id: RunId)
    requires Abandoned(s, id)
    ensures !StandsMaking(s, t, id) && id in s.incomplete
  {
  }

  /** The call that makes a directory goes on, ends, or makes the run. */
  lemma MakerSteps(s: State, a: Action, s': State, t: Tid)
    requires Inv(s) && Step(s, a, s') && t in s.procs && s.procs[t].Making? && StepsItself(a, t)
    ensures t !in s'.procs || StandsMaking(s', t, s.procs[t].run) || s.procs[t].run !in s'.incomplete
  {
    hide Inv, Step;
    CreateStepServes(s, a, s');
    hide Serves;
    if a.MakeStep? {
      StepsWhatIsMaking(s, a, s');
    } else if a.MakeState? {
      MakesWhatIsMaking(s, a, s');
      hide NewRun;
    } else {
      CreatesWhatIsCreating(s, a, s');
      hide CreateAnswered;
    }
  }

  lemma EndedIsAbandoned(s: State, a: Action, s': State, id: RunId)
    requires Inv(s) && Step(s, a, s') && EndsMaking(s, s', id)
    ensures Abandoned(s', id)
  {
    hide Inv, Step;
    if t :| StandsMaking(s, t, id) && t !in s'.procs {
      MakesAreOk(s, t);
      if u :| StandsMaking(s', u, id) {
        NoNewMaking(s, a, s', id, u);
      }
    }
  }

  ghost predicate OnceEndedMaking(e: seq<State>, i: nat, id: RunId) {
    exists j :: EndedMakingAt(e, i, j, id)
  }

  ghost predicate EndedMakingAt(e: seq<State>, i: nat, j: int, id: RunId) {
    0 <= j < i < |e| && EndsMaking(e[j], e[j + 1], id)
  }

  lemma {:induction false} AbandonedFor(e: seq<State>, j: nat, i: nat, id: RunId)
    requires Execution(e) && j <= i < |e| && Abandoned(e[j], id)
    ensures Abandoned(e[i], id)
  {
    hide Inv, Step, Abandoned;
    if j < i {
      AbandonedFor(e, j, i - 1, id);
      var a := StepAt(e, i - 1);
      AbandonedStays(e[i - 1], a, e[i], id);
    }
  }

  lemma {:induction false} AbandonedSince(e: seq<State>, i: nat, id: RunId)
    requires Execution(e) && i < |e| && Abandoned(e[i], id)
    ensures OnceEndedMaking(e, i, id)
  {
    hide Inv, Step, Abandoned, EndsMaking;
    NothingAbandoned(e, id);
    if i > 0 && Abandoned(e[i - 1], id) {
      AbandonedSince(e, i - 1, id);
      var j :| EndedMakingAt(e, i - 1, j, id);
      assert EndedMakingAt(e, i, j, id);
    } else if i > 0 {
      var a := StepAt(e, i - 1);
      BecomesAbandoned(e[i - 1], a, e[i], id);
      assert EndedMakingAt(e, i, i - 1, id);
    }
  }

  lemma NothingAbandoned(e: seq<State>, id: RunId)
    requires Execution(e)
    ensures !Abandoned(e[0], id)
  {
  }

  /**
   * A listed directory has no state exactly if the call that makes it still stands, or ended before the
   * state was written: the daemon died, or one of its writes failed.
   */
  lemma IncompleteIff(e: seq<State>, i: nat, id: RunId)
    requires Execution(e) && i < |e|
    ensures id in e[i].incomplete <==> BeingMade(e[i], id) || OnceEndedMaking(e, i, id)
  {
    hide Inv, Step, EndsMaking;
    InvariantHolds(e, i);
    if Abandoned(e[i], id) {
      AbandonedSince(e, i, id);
    }
    if t :| StandsMaking(e[i], t, id) {
      MakesAreOk(e[i], t);
    }
    if j: int :| EndedMakingAt(e, i, j, id) {
      var a := StepAt(e, j);
      EndedIsAbandoned(e[j], a, e[j + 1], id);
      AbandonedFor(e, j + 1, i, id);
    }
  }

  // ---- serving again -----------------------------------------------------------------------------

  predicate BootingOver(s: State, id: RunId) {
    s.phase.Booting? && id in s.incomplete
  }

  lemma BootingStays(s: State, a: Action, s': State, id: RunId)
    requires Inv(s) && Step(s, a, s') && BootingOver(s, id)
    ensures BootingOver(s', id)
  {
    hide LeasesOk, RunsOk, CreatesOk, MakesOk, MemoryOk, CancelsOk, DrainOk, Serves, Recovers;
  }

  /** A boot that meets a directory without state refuses to serve, and so does every later one. */
  lemma {:induction false} NeverServesAgain(e: seq<State>, i: nat, j: nat, id: RunId)
    requires Execution(e) && i <= j < |e| && BootingOver(e[i], id)
    ensures BootingOver(e[j], id)
  {
    hide Inv, Step, BootingOver;
    if i < j {
      NeverServesAgain(e, i, j - 1, id);
      var a := StepAt(e, j - 1);
      BootingStays(e[j - 1], a, e[j], id);
    }
  }

  /** Some continuation of the execution serves. */
  ghost predicate CanServe(e: seq<State>) {
    exists e' :: ServesAfter(e, e')
  }

  ghost predicate ServesAfter(e: seq<State>, e': seq<State>) {
    |e'| > 0 && e <= e' && Execution(e') && Last(e').phase.Serving?
  }

  /** A daemon that is not serving can ever serve again if and only if every listed directory has its state. */
  lemma CanServeIff(e: seq<State>)
    requires |e| > 0 && Execution(e) && Last(e).phase.Booting?
    ensures CanServe(e) <==> Last(e).incomplete == {}
  {
    hide Execution, SettledIn;
    if Last(e).incomplete == {} {
      var e' := BootsAgain(e);
      assert ServesAfter(e, e');
    } else {
      var id :| id in Last(e).incomplete;
      if e' :| ServesAfter(e, e') {
        assert BootingOver(e'[|e| - 1], id);
        NeverServesAgain(e', |e| - 1, |e'| - 1, id);
      }
    }
  }

  // ---- launching later -----------------------------------------------------------------------------

  ghost predicate CanBeLaunched(e: seq<State>, id: RunId) {
    exists e' :: LaunchesAfter(e, e', id)
  }

  ghost predicate LaunchesAfter(e: seq<State>, e': seq<State>, id: RunId) {
    |e'| > 0 && e <= e' && Execution(e') && id in Last(e').runs && Last(e').runs[id].workers != []
  }

  lemma QueuedCanBeLaunched(e: seq<State>, id: RunId) returns (e': seq<State>)
    requires |e| > 0 && Execution(e) && Last(e).incomplete == {}
    requires id in Last(e).runs && Last(e).runs[id].state == QUEUED
    ensures |e'| > 0 && e <= e' && Execution(e') && id in Last(e').runs
    ensures |Last(e').runs[id].workers| == |Last(e).runs[id].workers| + 1
    ensures Last(e').runs[id].denied == Last(e).runs[id].denied && Last(e').runs[id].audited == Last(e).runs[id].audited
  {
    hide Execution;
    var e1 := BootsAgain(e);
    var f := Last(e).runs[id];
    assert Last(e1).runs[id] == Settled(f) && Settled(f) == f.(locked := false);
    hide SettledIn, Settled;
    var e2, t := CanStart(e1, id);
    e' := CanLaunch(e2, t, id);
  }

  /**
   * Over a store whose directories have their state, a run that was never started can be launched, by some
   * continuation with or without crashes, if and only if it is QUEUED on disk: until FAILED is, a denial
   * protects nothing, and from then on for ever.
   */
  lemma CanBeLaunchedIff(e: seq<State>, id: RunId)
    requires |e| > 0 && Execution(e) && Last(e).incomplete == {}
    requires id in Last(e).runs && Last(e).runs[id].claimedIn.None?
    ensures CanBeLaunched(e, id) <==> Last(e).runs[id].state == QUEUED
  {
    hide Execution, Inv;
    if Last(e).runs[id].state == QUEUED {
      var e' := QueuedCanBeLaunched(e, id);
      assert LaunchesAfter(e, e', id);
    } else {
      InvariantHolds(e, |e| - 1);
      RunsAreOk(Last(e), id);
      if e' :| LaunchesAfter(e, e', id) {
        assert Denials.FailedUnclaimed(e'[|e| - 1], id);
        Denials.FailedIsNeverStarted(e', |e| - 1, |e'| - 1, id);
      }
    }
  }
}
