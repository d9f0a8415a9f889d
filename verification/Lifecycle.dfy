/**
 * What the daemon guarantees, over every execution: any interleaving of starts,
 * finalisations, cancels and shutdowns, any answers of the store, any number of
 * crashes and recoveries.
 */
module Lifecycle {
  import opened Options
  import opened Runs
  import opened StateMachine
  import opened RunProtocol
  import opened Daemon
  import opened Steps
  import DaemonProofs

  ghost predicate Execution(e: seq<State>) {
    && |e| > 0 && Init(e[0])
    && forall i :: 0 <= i < |e| - 1 ==> Next(e[i], e[i + 1])
  }

  lemma {:induction false} InvariantHolds(e: seq<State>, i: nat)
    requires Execution(e) && i < |e|
    ensures Inv(e[i])
  {
    if i == 0 {
      DaemonProofs.InitInv(e[0]);
    } else {
      InvariantHolds(e, i - 1);
      assert Next(e[i - 1], e[i - 1 + 1]);
      var a: Action :| Step(e[i - 1], a, e[i]);
      DaemonProofs.StepKeepsInv(e[i - 1], a, e[i]);
    }
  }

  // ---- launching -----------------------------------------------------------------

  /** However often a run is started, in however many incarnations, one process at most is spawned for it. */
  lemma AtMostOneWorker(e: seq<State>, i: nat, id: RunId)
    requires Execution(e) && i < |e| && id in e[i].runs
    ensures |e[i].runs[id].workers| <= 1
  {
    InvariantHolds(e, i);
    assert FilesOk(e[i], id);
  }

  /** A run on disk as RUNNING or VALIDATING has its process on record, for the next boot to find. */
  lemma RunningRunsAreRecorded(e: seq<State>, i: nat, id: RunId)
    requires Execution(e) && i < |e| && id in e[i].runs
    requires e[i].runs[id].state == RUNNING || e[i].runs[id].state == VALIDATING
    ensures e[i].runs[id].pidRecorded && |e[i].runs[id].workers| == 1
  {
    InvariantHolds(e, i);
    assert FilesOk(e[i], id);
  }

  // ---- outcomes --------------------------------------------------------------------

  /**
   * A terminal run that was ever started has a result, and one that agrees with
   * its state, exactly when the write of that result was not lost.
   */
  lemma TerminalMeansResult(e: seq<State>, i: nat, id: RunId)
    requires Execution(e) && i < |e| && id in e[i].runs
    requires e[i].runs[id].claimedIn.Some? && IsTerminal(e[i].runs[id].state)
    ensures e[i].runs[id].result.Some? <==> !e[i].runs[id].lostResult
    ensures e[i].runs[id].result.Some? ==>
              && Agrees(e[i].runs[id].state, e[i].runs[id].result.value.status)
              && e[i].runs[id].result.value.runId == id
              && e[i].runs[id].result.value.taskId == e[i].runs[id].taskId
  {
    InvariantHolds(e, i);
    assert FilesOk(e[i], id);
  }

  /** No path of the daemon, in any incarnation, ever offers the store a second result. */
  lemma OneResultOnly(e: seq<State>, i: nat, id: RunId)
    requires Execution(e) && i < |e| && id in e[i].runs
    ensures !e[i].runs[id].duplicateHit && e[i].runs[id].resultWrites <= 1
  {
    InvariantHolds(e, i);
    assert FilesOk(e[i], id);
  }

  /** SUCCEEDED rests on what the launching incarnation itself saw. */
  lemma SuccessIsNeverInferred(e: seq<State>, i: nat, id: RunId)
    requires Execution(e) && i < |e| && id in e[i].runs && e[i].runs[id].state == SUCCEEDED
    ensures exists epoch: nat, outcome: Outcome, rest: Batch ::
              && e[i].runs[id].workers == [Worker(epoch, Some(outcome))]
              && e[i].runs[id].drained == Some(Drained(epoch, outcome, Some(rest)))
              && outcome.reason == Exited && outcome.exitCode == Some(0)
              && rest.rejected == 0 && rest.results == [AgentResult(e[i].runs[id].taskId, id, Succeeded)]
  {
    InvariantHolds(e, i);
    assert FilesOk(e[i], id);
    var d := e[i].runs[id].drained.value;
    assert d == Drained(d.epoch, d.outcome, Some(d.batch.value));
  }

  // ---- cancel and shutdown -----------------------------------------------------------

  /** Every live handle has a finalisation that is still waiting for exactly that worker. */
  lemma LiveRunsAreBeingFinalised(e: seq<State>, i: nat)
    requires Execution(e) && i < |e|
    ensures e[i].running.Keys <= e[i].finalizing.Keys
    ensures forall id | id in e[i].running :: e[i].finalizing[id] in e[i].procs
              && e[i].procs[e[i].finalizing[id]] == Lease(id, Final(AwaitExit(e[i].running[id])))
  {
    InvariantHolds(e, i);
  }

  /**
   * What cancelRun answers is terminal if and only if the finalisation it waited for did not have to give
   * up; and then it is the state the run ends in.
   */
  lemma CancelAnswersATerminalState(e: seq<State>, i: nat, id: RunId, answer: RunState)
    requires Execution(e) && i < |e| && (id, answer) in e[i].answers
    ensures id in e[i].runs && (IsTerminal(answer) <==> !e[i].runs[id].gaveUp)
    ensures IsTerminal(answer) ==> e[i].runs[id].state == answer
  {
    InvariantHolds(e, i);
    assert AnswerOk(e[i], (id, answer)) && FilesOk(e[i], id);
  }

  lemma ResolvedIsSettled(s: State, id: RunId)
    requires LeasesOk(s) && DrainOk(s) && s.drain.Resolved? && id in s.runs && FilesOk(s, id)
    requires s.runs[id].claimedIn == Some(s.epoch)
    ensures IsTerminal(s.runs[id].state) <==> !s.runs[id].gaveUp
  {
    if HasLease(s, id) {
      assert LeaseOk(s, s.runs[id].holder);
    }
  }

  /**
   * When `shutdown` has resolved, no start is in flight, and of the runs this
   * incarnation took out of QUEUED exactly those are terminal for which no
   * failure was left unhandled.
   */
  lemma ShutdownLeavesNothingOpen(e: seq<State>, i: nat)
    requires Execution(e) && i < |e| && e[i].drain.Resolved?
    ensures forall t | t in e[i].procs :: !IsStart(e[i].procs[t])
    ensures forall id | id in e[i].runs && e[i].runs[id].claimedIn == Some(e[i].epoch) ::
              IsTerminal(e[i].runs[id].state) <==> !e[i].runs[id].gaveUp
  {
    InvariantHolds(e, i);
    var s := e[i];
    hide LeasesOk, MemoryOk, CreatesOk, CancelsOk, BootOk, FilesOk, Execution, IsTerminal;
    forall id | id in s.runs && s.runs[id].claimedIn == Some(s.epoch)
      ensures IsTerminal(s.runs[id].state) <==> !s.runs[id].gaveUp
    {
      ResolvedIsSettled(s, id);
    }
  }

  lemma NoStepAfterForgetting(id: RunId, epoch: nat, f: Run, f': Run, pc': Pc)
    ensures !LocalStep(id, epoch, f, Final(FinalUnlock), f', pc')
  {
  }

  lemma ResolvedLocal(s: State, a: Action, s': State)
    requires DrainOk(s) && s.drain.Resolved? && Serves(s, a, s')
    ensures !a.Local?
  {
    hide Serves, LocalStep;
    if a.Local? {
      MovesWhatHolds(s, a, s');
      NoStepAfterForgetting(s.procs[a.t].run, s.epoch, s.runs[s.procs[a.t].run], a.f, a.pc);
    }
  }

  lemma ResolvedLaunchesNothing(s: State, a: Action, s': State)
    requires MakesOk(s) && DrainOk(s) && s.drain.Resolved? && s.phase.Serving? && Serves(s, a, s')
    ensures SameLaunches(s, s') && s'.drain.Resolved?
  {
    ResolvedLocal(s, a, s');
    ServesAlone(s, a, s');
    ResolvedStaysResolved(s, a, s');
    hide DrainOk, Serves, ActsAlone, MakesOk, SameLaunches, SameRunsButLocks, SameRunsBut;
    if a.CreateStep? {
      CreateStepLaunchesNothing(s, a, s');
    } else if a.MakeState? {
      MakingLaunchesNothing(s, a, s');
    } else {
      LocksLaunchNothing(s, s');
    }
  }

  lemma ResolvedStaysResolved(s: State, a: Action, s': State)
    requires s.drain.Resolved? && Serves(s, a, s') && ActsAlone(s, a, s')
    ensures s'.drain.Resolved?
  {
    hide LocalStep, ServesCreate, ServesStart, ServesFinal, ServesCancel;
  }

  lemma LocksLaunchNothing(s: State, s': State)
    requires SameRunsButLocks(s, s')
    ensures SameLaunches(s, s')
  {
  }

  lemma CreateStepLaunchesNothing(s: State, a: Action, s': State)
    requires Serves(s, a, s') && a.CreateStep?
    ensures SameLaunches(s, s')
  {
    hide Serves, CreateAnswered;
    CreatesWhatIsCreating(s, a, s');
    CreatingLaunchesNothing(s.procs[a.t].run, s.runs[s.procs[a.t].run], s.procs[a.t].k, a.f, a.next);
  }

  lemma MakingLaunchesNothing(s: State, a: Action, s': State)
    requires MakesOk(s) && Serves(s, a, s') && a.MakeState?
    ensures SameLaunches(s, s')
  {
    hide Serves;
    MakesWhatIsMaking(s, a, s');
  }

  lemma CreatingLaunchesNothing(id: RunId, f: Run, k: CreatePc, f': Run, next: Option<CreatePc>)
    requires CreateAnswered(id, f, k, f', next)
    ensures f'.workers == f.workers
  {
    match k
    case Audit =>
    case Mark =>
    case DenyRead =>
    case DenyWrite =>
    case DenyResultRead =>
    case DenyResultWrite =>
  }

  /** The same number of processes has been launched for every run, and none for a new one. */
  ghost predicate SameLaunches(s: State, s': State) {
    && s.runs.Keys <= s'.runs.Keys
    && forall id | id in s'.runs :: |s'.runs[id].workers| == if id in s.runs then |s.runs[id].workers| else 0
  }

  lemma ResolvedStays(s: State, a: Action, s': State)
    requires Inv(s) && s.drain.Resolved? && Step(s, a, s') && s'.epoch == s.epoch
    ensures SameLaunches(s, s') && s'.drain.Resolved?
  {
    hide RunOk, Good, LeasesOk, RunsOk, CreatesOk, MemoryOk, CancelsOk, Serves, Recovers;
    if s.phase.Serving? && !a.WorkerExit? && !a.Crash? {
      ResolvedLaunchesNothing(s, a, s');
    }
  }

  /** Until the process ends, nothing is launched any more. */
  lemma {:induction false} NothingLaunchesAfterShutdown(e: seq<State>, i: nat, j: nat)
    requires Execution(e) && i <= j < |e| && e[i].drain.Resolved?
    requires forall k :: i <= k <= j ==> e[k].epoch == e[i].epoch
    ensures e[j].drain.Resolved? && SameLaunches(e[i], e[j])
  {
    hide Inv, Step;
    if i < j {
      NothingLaunchesAfterShutdown(e, i, j - 1);
      InvariantHolds(e, j - 1);
      assert Next(e[j - 1], e[j - 1 + 1]);
      var a: Action :| Step(e[j - 1], a, e[j]);
      ResolvedStays(e[j - 1], a, e[j]);
    }
  }

  // ---- when the store does not fail ------------------------------------------------------

  /** Any step, but the lease holder's awaits are answered by a store that does what it is asked. */
  ghost predicate ReliableStep(s: State, a: Action, s': State) {
    && Step(s, a, s')
    && (a.Local? && a.t in s.procs && s.procs[a.t].Lease? && s.procs[a.t].run in s.runs ==>
          Reliable(s.runs[s.procs[a.t].run], s.procs[a.t].pc, a.f, a.pc))
  }

  /** An execution, crashes included, in which store writes land or the daemon dies. */
  ghost predicate ReliableExecution(e: seq<State>) {
    && Execution(e)
    && forall i :: 0 <= i < |e| - 1 ==> ReliableNext(e[i], e[i + 1])
  }

  ghost predicate ReliableNext(s: State, s': State) {
    exists a: Action :: ReliableStep(s, a, s')
  }

  predicate AllIntact(s: State) {
    forall id | id in s.runs :: Intact(s.runs[id])
  }

  predicate SameFlags(f: Run, f': Run) {
    f'.claimedIn == f.claimedIn && f'.gaveUp == f.gaveUp && f'.lostResult == f.lostResult
  }

  lemma LocalStaysIntact(s: State, a: Action, s': State)
    requires LeasesOk(s) && AllIntact(s) && ReliableStep(s, a, s') && a.Local? && s.phase.Serving?
    ensures AllIntact(s')
  {
    hide LocalStep, Good, Reliable, Intact, RunOk;
    assert LeaseOk(s, a.t);
    OnlyFailuresGiveUp(s.procs[a.t].run, s.epoch, s.runs[s.procs[a.t].run], s.procs[a.t].pc, a.f, a.pc);
  }

  lemma CreatingKeepsFlags(id: RunId, f: Run, k: CreatePc, f': Run, next: Option<CreatePc>)
    requires CreateAnswered(id, f, k, f', next)
    ensures SameFlags(f, f')
  {
    match k
    case Audit =>
    case Mark =>
    case DenyRead =>
    case DenyWrite =>
    case DenyResultRead =>
    case DenyResultWrite =>
  }

  lemma OtherStaysIntact(s: State, a: Action, s': State)
    requires AllIntact(s) && Serves(s, a, s') && s.phase.Serving? && !a.Local?
    ensures AllIntact(s')
  {
    hide Serves, ActsAlone;
    ServesAlone(s, a, s');
    if a.CreateStep? {
      CreatesWhatIsCreating(s, a, s');
      CreatingKeepsFlags(s.procs[a.t].run, s.runs[s.procs[a.t].run], s.procs[a.t].k, a.f, a.next);
      hide CreateAnswered;
    } else if a.MakeState? {
      MakesWhatIsMaking(s, a, s');
    }
  }

  lemma StepStaysIntact(s: State, a: Action, s': State)
    requires Inv(s) && AllIntact(s) && ReliableStep(s, a, s')
    ensures AllIntact(s')
  {
    hide RunsOk, CreatesOk, MemoryOk, CancelsOk, DrainOk, BootOk, LeasesOk, Serves;
    if s.phase.Serving? && !a.WorkerExit? && !a.Crash? {
      if a.Local? {
        LocalStaysIntact(s, a, s');
      } else {
        OtherStaysIntact(s, a, s');
      }
    }
  }

  lemma {:induction false} NothingIsLost(e: seq<State>, i: nat)
    requires ReliableExecution(e) && i < |e|
    ensures AllIntact(e[i])
  {
    if i == 0 {
      assert e[0].runs == map[];
    } else {
      hide Inv, AllIntact, ReliableStep, Execution;
      NothingIsLost(e, i - 1);
      InvariantHolds(e, i - 1);
      assert ReliableNext(e[i - 1], e[i - 1 + 1]);
      var a: Action :| ReliableStep(e[i - 1], a, e[i]);
      StepStaysIntact(e[i - 1], a, e[i]);
    }
  }

  /**
   * If store writes land or the daemon dies: whatever the interleaving and wherever it crashed, every
   * terminal run that was ever started has exactly one result, and it agrees with the state.
   */
  lemma TerminalRunsHaveTheirResult(e: seq<State>, i: nat, id: RunId)
    requires ReliableExecution(e) && i < |e| && id in e[i].runs
    requires e[i].runs[id].claimedIn.Some? && IsTerminal(e[i].runs[id].state)
    ensures e[i].runs[id].result.Some? && e[i].runs[id].resultWrites == 1
    ensures Agrees(e[i].runs[id].state, e[i].runs[id].result.value.status)
  {
    NothingIsLost(e, i);
    TerminalMeansResult(e, i, id);
    InvariantHolds(e, i);
    assert FilesOk(e[i], id);
  }

  /** Under the same assumption a resolved shutdown leaves every run it took out of QUEUED durably terminal. */
  lemma ShutdownFinishesEveryRun(e: seq<State>, i: nat, id: RunId)
    requires ReliableExecution(e) && i < |e| && e[i].drain.Resolved?
    requires id in e[i].runs && e[i].runs[id].claimedIn == Some(e[i].epoch)
    ensures IsTerminal(e[i].runs[id].state) && e[i].runs[id].result.Some?
  {
    hide Inv;
    NothingIsLost(e, i);
    ShutdownLeavesNothingOpen(e, i);
    TerminalRunsHaveTheirResult(e, i, id);
  }

  /** And every ok answer of cancelRun is a terminal state. */
  lemma CancelAnswersTerminal(e: seq<State>, i: nat, id: RunId, answer: RunState)
    requires ReliableExecution(e) && i < |e| && (id, answer) in e[i].answers
    ensures IsTerminal(answer)
  {
    NothingIsLost(e, i);
    InvariantHolds(e, i);
    assert AnswerOk(e[i], (id, answer));
  }

  // ---- recovery ------------------------------------------------------------------------

  /** The socket opens only over a store in which nothing claims to be in flight and nothing is locked. */
  lemma ServingStartsFromARecoveredStore(e: seq<State>, i: nat, id: RunId)
    requires Execution(e) && i + 1 < |e| && e[i].phase.Booting? && e[i + 1].phase.Serving?
    requires id in e[i + 1].runs
    ensures e[i + 1].runs[id].state == QUEUED || e[i + 1].runs[id].state == ORPHANED
            || IsTerminal(e[i + 1].runs[id].state)
    ensures !e[i + 1].runs[id].locked && e[i + 1].incomplete == {}
  {
    InvariantHolds(e, i);
    assert Next(e[i], e[i + 1]);
  }

  lemma RecoversOrphans(f: Run, f': Run, fault: bool)
    requires Recovers(f, f', fault)
    ensures f'.state == f.state || (f'.state == ORPHANED && !IsTerminal(f.state))
    ensures f'.result == f.result && f'.workers == f.workers
  {
  }

  lemma BootStepOnlyOrphans(s: State, a: Action, s': State, id: RunId)
    requires s.phase.Booting? && Step(s, a, s') && id in s.runs
    ensures id in s'.runs
    ensures s'.runs[id].state == s.runs[id].state || (s'.runs[id].state == ORPHANED && !IsTerminal(s.runs[id].state))
    ensures s'.runs[id].result == s.runs[id].result && |s'.runs[id].workers| == |s.runs[id].workers|
  {
    hide Serves, Recovers;
    if a.BootRun? {
      RecoversOrphans(s.runs[a.id], a.f, a.fault);
    }
  }

  /** Boot recovery changes a state to ORPHANED or not at all. */
  lemma RecoveryOnlyOrphans(e: seq<State>, i: nat, id: RunId)
    requires Execution(e) && i + 1 < |e| && e[i].phase.Booting? && id in e[i].runs
    ensures id in e[i + 1].runs
    ensures e[i + 1].runs[id].state == e[i].runs[id].state
            || (e[i + 1].runs[id].state == ORPHANED && !IsTerminal(e[i].runs[id].state))
    ensures e[i + 1].runs[id].result == e[i].runs[id].result && |e[i + 1].runs[id].workers| == |e[i].runs[id].workers|
  {
    hide Step;
    assert Next(e[i], e[i + 1]);
    var a: Action :| Step(e[i], a, e[i + 1]);
    BootStepOnlyOrphans(e[i], a, e[i + 1], id);
  }

  // ---- durability ------------------------------------------------------------------------

  lemma HoldersKeep(s: State, a: Action, s': State, id: RunId)
    requires LeasesOk(s) && Serves(s, a, s') && id in s.runs && a.Local?
    ensures id in s'.runs && Keeps(s.runs[id], s'.runs[id])
  {
    hide RunOk, Good, LocalStep, Serves, Keeps;
    MovesWhatHolds(s, a, s');
    assert LeaseOk(s, a.t);
    HolderKeeps(s.procs[a.t].run, s.epoch, s.runs[s.procs[a.t].run], s.procs[a.t].pc, a.f, a.pc);
    KeepsItself(s.runs[id]);
  }

  lemma LockKeeps(f: Run, f': Run)
    requires SameButLock(f, f')
    ensures Keeps(f, f')
  {
  }

  lemma CreatingKeeps(s: State, t: Tid, f: Run, next: Option<CreatePc>, id: RunId)
    requires RunsOk(s) && CreatesOk(s) && id in s.runs
    requires t in s.procs && s.procs[t].Creating? && s.procs[t].run in s.runs
    requires CreateAnswered(s.procs[t].run, s.runs[s.procs[t].run], s.procs[t].k, f, next)
    ensures id in Created(s, t, f, next).runs && Keeps(s.runs[id], Created(s, t, f, next).runs[id])
  {
    hide RunOk, CreateAnswered, AtCreate;
    assert FilesOk(s, s.procs[t].run);
    DaemonProofs.CreateStepOk(s.procs[t].run, s.epoch, s.runs[s.procs[t].run], s.procs[t].k, f, next);
  }

  lemma CreateStepKeeps(s: State, a: Action, s': State, id: RunId)
    requires RunsOk(s) && CreatesOk(s) && Serves(s, a, s') && id in s.runs && a.CreateStep?
    ensures id in s'.runs && Keeps(s.runs[id], s'.runs[id])
  {
    hide Keeps, RunsOk, CreatesOk, CreateAnswered, Created, Serves;
    CreatesWhatIsCreating(s, a, s');
    CreatingKeeps(s, a.t, a.f, a.next, id);
  }

  lemma HolderKeeps(id: RunId, epoch: nat, f: Run, pc: Pc, f': Run, pc': Pc)
    requires Good(id, epoch, f, pc) && LocalStep(id, epoch, f, pc, f', pc')
    ensures Keeps(f, f')
  {
    hide Good, LocalStep;
    LocalStepOk(id, epoch, f, pc, f', pc');
  }

  lemma StepKeeps(s: State, a: Action, s': State, id: RunId)
    requires Inv(s) && Step(s, a, s') && id in s.runs
    ensures id in s'.runs && Keeps(s.runs[id], s'.runs[id])
  {
    hide LeasesOk, RunsOk, CreatesOk, MemoryOk, CancelsOk, DrainOk, BootOk, Serves;
    if s.phase.Serving? && !a.WorkerExit? && !a.Crash? {
      if a.Local? {
        HoldersKeep(s, a, s', id);
      } else if a.CreateStep? {
        CreateStepKeeps(s, a, s', id);
      } else {
        OthersKeep(s, a, s', id);
        LockKeeps(s.runs[id], s'.runs[id]);
      }
    }
  }

  /** No crash, no restart and no later step takes back an outcome. */
  lemma {:induction false} OutcomesAreDurable(e: seq<State>, i: nat, j: nat, id: RunId)
    requires Execution(e) && i <= j < |e| && id in e[i].runs
    ensures id in e[j].runs
    ensures IsTerminal(e[i].runs[id].state) ==> e[j].runs[id].state == e[i].runs[id].state
    ensures e[i].runs[id].result.Some? ==> e[j].runs[id].result == e[i].runs[id].result
    ensures e[i].runs[id].claimedIn.Some? ==> e[j].runs[id].claimedIn == e[i].runs[id].claimedIn
    ensures e[i].runs[id].audited ==> e[j].runs[id].audited
    ensures |e[i].runs[id].workers| <= |e[j].runs[id].workers|
  {
    hide Inv, Step;
    if i < j {
      OutcomesAreDurable(e, i, j - 1, id);
      InvariantHolds(e, j - 1);
      assert Next(e[j - 1], e[j - 1 + 1]);
      var a: Action :| Step(e[j - 1], a, e[j]);
      StepKeeps(e[j - 1], a, e[j], id);
    }
  }

  // ---- the audit trail -------------------------------------------------------------------

  /** A run whose createTask answered ok is audited, and if it was denied it is FAILED and never launched. */
  lemma CreatedRunsAreAudited(e: seq<State>, i: nat, id: RunId)
    requires Execution(e) && i < |e| && id in e[i].runs && e[i].runs[id].created
    ensures e[i].runs[id].audited
    ensures e[i].runs[id].denied ==>
              e[i].runs[id].state == FAILED && e[i].runs[id].result.Some? && e[i].runs[id].workers == []
  {
    InvariantHolds(e, i);
    assert FilesOk(e[i], id);
  }
}
