/**
 * The orchestrator's own code for one leased run, step by step: starting it and finalising it.
 * Every statement that changes the run is a step of `RunProtocol`; `pc` says which.
 */
module Orchestrator {
  import opened Options
  import opened Runs
  import opened StateMachine
  import opened RunProtocol

  datatype TransitionAnswer = Refused | Wrote(io: Io)

  datatype ResultAnswer = Duplicate | ResultWrote(io: Io)

  /** How the store answers a read-and-check and the write behind it. */
  datatype StoreAnswer = StoreAnswer(readable: bool, io: Io)

  /** How it answers the result and the terminal state; each write is there afterwards or not. */
  datatype EndAnswers = EndAnswers(result: StoreAnswer, state: StoreAnswer) {
    predicate Land() {
      !result.io.Lost? && state.readable && !state.io.Lost?
    }
  }

  datatype FinalAnswers = FinalAnswers(stateReadable: bool, validating: StoreAnswer, end: EndAnswers) {
    /** Nothing fails on the way a clean, or unclean, exit takes. */
    predicate Land(clean: bool) {
      stateReadable && (clean ==> validating.readable && validating.io.Landed?) && end.Land()
    }
  }

  datatype StartAnswers = StartAnswers(
    taskReadable: bool, preparing: StoreAnswer, workspaceOk: bool, spawned: bool, handleOk: bool,
    metadata: Io, running: StoreAnswer, exit: Outcome, end: EndAnswers)
  {
    predicate Claims() {
      taskReadable && preparing.readable && !preparing.io.Lost?
    }

    predicate Launches() {
      Claims() && preparing.io.Landed? && workspaceOk && handleOk && metadata.Landed?
      && running.readable && running.io.Landed?
    }
  }

  function AnswerTo(f: Run, to: RunState, a: StoreAnswer): TransitionAnswer {
    if a.readable && CanTransition(f.state, to) then Wrote(a.io) else Refused
  }

  function AfterTransition(f: Run, to: RunState, a: TransitionAnswer): Run {
    if a.Refused? || a.io.Lost? then f else f.(state := to)
  }

  function AfterResult(f: Run, r: AgentResult, a: ResultAnswer): Run {
    match a
    case Duplicate => f.(duplicateHit := true)
    case ResultWrote(io) =>
      if io.Lost? then f.(lostResult := true) else f.(result := Some(r), resultWrites := f.resultWrites + 1)
  }

  predicate Unmoved(a: TransitionAnswer) {
    a.Refused? || a.io.Lost?
  }

  /** What a finalisation that meets no failure commits the run to. */
  function Decision(id: RunId, taskId: string, o: Outcome, batch: Option<Batch>): Verdict {
    match Rule(id, taskId, o)
    case Conclude(v) => v
    case Validate => Judge(id, taskId, batch)
  }

  class LeaseHolder {
    const id: RunId
    const epoch: nat
    /** The run directory, and its history. */
    var run: Run
    ghost var pc: Pc

    ghost predicate Valid()
      reads this
    {
      Good(id, epoch, run, pc)
    }

    // ---- the store ---------------------------------------------------------------------------

    /** The state on disk is read and checked against the table, then replaced. */
    method TransitionState(to: RunState, w: StoreAnswer) returns (a: TransitionAnswer)
      modifies `run
      ensures a == AnswerTo(old(run), to, w) && run == AfterTransition(old(run), to, a)
    {
      if !w.readable || !CanTransition(run.state, to) {
        return Refused;
      }
      if !w.io.Lost? {
        run := run.(state := to);
      }
      a := Wrote(w.io);
    }

    /** A result that can be read refuses a second one; otherwise it is written. */
    method WriteResult(r: AgentResult, w: StoreAnswer) returns (a: ResultAnswer)
      modifies `run
      ensures a == if w.readable && old(run).result.Some? then Duplicate else ResultWrote(w.io)
      ensures run == AfterResult(old(run), r, a)
    {
      if w.readable && run.result.Some? {
        run := run.(duplicateHit := true);
        return Duplicate;
      }
      run := if w.io.Lost? then run.(lostResult := true)
             else run.(result := Some(r), resultWrites := run.resultWrites + 1);
      a := ResultWrote(w.io);
    }

    // ---- ending a run ------------------------------------------------------------------------

    /** Result before terminal state. The answers of the store are not looked at. */
    method Terminate(v: Verdict, w: EndAnswers)
      requires Valid() && pc.Commit? && pc.c.ResultRead? && pc.verdict == v
      modifies this
      ensures Valid() && pc == After(old(pc).role)
      ensures if w.Land() then run.state == v.state && run.result == Some(v.result) else run.gaveUp || run.lostResult
      ensures run.taskId == old(run).taskId && run.claimedIn == old(run).claimedIn && run.drained == old(run).drained
    {
      hide Good, After, AnswerTo, AfterTransition, AfterResult;
      ghost var role, f0 := pc.role, run;
      NoResultYet(id, epoch, run, role, v);
      var a := WriteResult(v.result, w.result);
      ResultStep(id, epoch, f0, role, v, a);
      EndStep(id, epoch, run, role, v, w.state);
      var t := TransitionState(v.state, w.state);
      pc := After(role);
      if Unmoved(t) {
        run := run.(gaveUp := true);
      }
    }

    /** Drain the worker's output, record a result, reach a terminal state. */
    method Finalize(worker: nat, outcome: Outcome, batch: Option<Batch>, w: FinalAnswers)
      requires Valid() && pc == Final(DrainOutput(worker, outcome))
      modifies this
      ensures Valid() && pc == Final(Forget)
      ensures var v := Decision(id, old(run).taskId, outcome, batch);
              if w.Land(CleanExit(outcome)) then run.state == v.state && run.result == Some(v.result)
              else run.gaveUp || run.lostResult
    {
      hide Good, Rule, Judge, Decision, AfterExit, FailureOf;
      ghost var f0 := run;
      run := run.(drained := Some(Drained(epoch, outcome, batch)));
      DrainStep(id, epoch, f0, worker, outcome, batch, run);
      pc := Final(ReadCurrent(outcome, batch));

      if !w.stateReadable {
        ReadFails(id, epoch, run, outcome, batch);
        run, pc := run.(gaveUp := true), Final(Forget);
        return;
      }
      ReadStep(id, epoch, run, outcome, batch);
      pc := AfterExit(id, run, outcome, batch);
      ExitRuling(id, run, outcome, batch);
      if outcome.reason == CancelRequested {
        Terminate(FailureOf(id, run.taskId, CANCELLED, Cancelled), w.end);
      } else if outcome.reason == HardTimeout {
        Terminate(FailureOf(id, run.taskId, FAILED, TimedOut), w.end);
      } else if outcome.reason == OutputLimit {
        Terminate(FailureOf(id, run.taskId, FAILED, Failed), w.end);
      } else if outcome.reason == OutputError {
        Terminate(FailureOf(id, run.taskId, FAILED, Failed), w.end);
      } else if outcome.exitCode != Some(0) {
        Terminate(FailureOf(id, run.taskId, FAILED, Failed), w.end);
      } else {
        ValidateOutput(batch, w);
      }
    }

    /** A zero exit code only earns the right to be validated: success is read from the worker's one result. */
    method ValidateOutput(batch: Option<Batch>, w: FinalAnswers)
      requires Valid() && pc == Final(ValidateRead(batch))
      modifies this
      ensures Valid() && pc == Final(Forget)
      ensures var v := Judge(id, old(run).taskId, batch);
               if w.validating.readable && w.validating.io.Landed? && w.end.Land()
               then run.state == v.state && run.result == Some(v.result)
               else run.gaveUp || run.lostResult
    {
      hide Good, Judge, FailureOf, AnswerTo, AfterTransition;
      ValidateSteps(id, epoch, run, batch, w.validating);
      var validating := TransitionState(VALIDATING, w.validating);
      if validating != Wrote(Landed) {
        run, pc := run.(gaveUp := true), Final(Forget);
        return;
      }
      pc := Commit(Finaliser, ResultRead, Judge(id, run.taskId, batch));
      JudgeSays(id, run.taskId, batch);
      if batch.None? || batch.value.rejected > 0 {
        Terminate(FailureOf(id, run.taskId, FAILED, Failed), w.end);
        return;
      }
      var terminal := batch.value.results;
      if |terminal| == 0 {
        Terminate(FailureOf(id, run.taskId, FAILED, Failed), w.end);
        return;
      }
      if |terminal| > 1 {
        Terminate(FailureOf(id, run.taskId, FAILED, Failed), w.end);
        return;
      }
      var workerResult := terminal[0];
      if workerResult.taskId != run.taskId || workerResult.runId != id {
        Terminate(FailureOf(id, run.taskId, FAILED, Failed), w.end);
        return;
      }
      var state := if workerResult.status == Succeeded then SUCCEEDED else FAILED;
      Terminate(Verdict(state, workerResult), w.end);
    }

    // ---- starting a run ------------------------------------------------------------------------

    /** The worktree of a run that never got a process is released, then the run fails. */
    method FailBeforeLaunch(w: EndAnswers)
      requires Valid() && pc == LaunchFailure(id, run)
      modifies this
      ensures Valid() && pc == Start(StartUnlock) && run.claimedIn == old(run).claimedIn
      ensures if w.Land() then run.state == FAILED && run.result == Some(AgentResult(old(run).taskId, id, Failed))
              else run.gaveUp || run.lostResult
    {
      Terminate(FailureOf(id, run.taskId, FAILED, Failed), w);
    }

    /** A worker that could not be recorded is stopped, and waited for, before the run fails. */
    method AbandonLaunch(worker: nat, exit: Outcome, w: EndAnswers)
      requires Valid() && pc == Start(AbandonWait(worker))
      modifies this
      ensures Valid() && pc == Start(StartUnlock) && run.claimedIn == old(run).claimedIn
      ensures if w.Land() then run.state == FAILED && run.result == Some(AgentResult(old(run).taskId, id, Failed))
              else run.gaveUp || run.lostResult
    {
      hide Good, RunOk;
      AbandonedIsLaunched(id, epoch, run, worker);
      if run.workers[worker].outcome.None? {
        ExitKeepsGood(id, epoch, run, pc, worker, exit);
        run := Exit(run, worker, exit);
      }
      AbandonStep(id, epoch, run, worker);
      pc := LaunchFailure(id, run);
      Terminate(FailureOf(id, run.taskId, FAILED, Failed), w);
    }

    /**
     * Launch the worker. It runs exactly if nothing fails on the way; the run is untouched exactly if it
     * was not claimed; and a claimed run that is not running has failed, with its result on disk if the
     * store took it.
     */
    method StartLocked(w: StartAnswers) returns (started: bool, worker: nat)
      requires Valid() && pc == Start(ReadTask)
      modifies this
      ensures Valid() && pc == if started then Start(Register(worker)) else Start(StartUnlock)
      ensures started <==> w.Launches() && CanTransition(old(run).state, PREPARING)
      ensures started ==> run.state == RUNNING && run.pidRecorded && run.claimedIn == Some(epoch)
      ensures if w.Claims() && CanTransition(old(run).state, PREPARING)
              then old(run).claimedIn.None? && run.claimedIn == Some(epoch) else run == old(run)
      ensures w.Claims() && CanTransition(old(run).state, PREPARING) && !started ==>
                if w.preparing.io.Landed? && w.end.Land()
                then run.state == FAILED && run.result == Some(AgentResult(old(run).taskId, id, Failed))
                else run.gaveUp || run.lostResult
    {
      hide Good, LaunchFailure, WithWorker, CanTransition;
      started, worker := false, 0;
      ClaimStepsHold(id, epoch, run);
      if !w.taskReadable {
        pc := Start(StartUnlock);
        return;
      }
      ClaimHolds(id, epoch, run, w.preparing);
      var preparing := TransitionState(PREPARING, w.preparing);
      if preparing.Wrote? && !preparing.io.Lost? {
        run := run.(claimedIn := Some(epoch), gaveUp := preparing.io.Unsure?);
      }
      if preparing != Wrote(Landed) {
        pc := Start(StartUnlock);
        return;
      }
      pc := Start(Workspace);

      WorkspaceStep(id, epoch, run);
      if !w.workspaceOk {
        pc := LaunchFailure(id, run);
        FailBeforeLaunch(w.end);
        return;
      }
      pc := Start(Spawn);

      SpawnStep(id, epoch, run);
      worker := |run.workers|;
      if w.spawned || w.handleOk {
        run := WithWorker(run, epoch);
      }
      if !w.handleOk {
        pc := LaunchFailure(id, run);
        FailBeforeLaunch(w.end);
        return;
      }
      pc := Start(RecordPid(worker));
      started := RecordLaunch(worker, w);
    }

    /** The pid first, then RUNNING: a worker that cannot be recorded is stopped. */
    method RecordLaunch(worker: nat, w: StartAnswers) returns (started: bool)
      requires Valid() && pc == Start(RecordPid(worker))
      modifies this
      ensures Valid() && pc == if started then Start(Register(worker)) else Start(StartUnlock)
      ensures started <==> w.metadata.Landed? && w.running.readable && w.running.io.Landed?
      ensures started ==> run.state == RUNNING && run.pidRecorded
      ensures !started ==>
                if w.end.Land() then run.state == FAILED && run.result == Some(AgentResult(old(run).taskId, id, Failed))
                else run.gaveUp || run.lostResult
      ensures run.claimedIn == old(run).claimedIn
    {
      hide Good, AnswerTo, AfterTransition;
      RecordStep(id, epoch, run, worker);
      if !w.metadata.Lost? {
        run := run.(pidRecorded := true);
      }
      if !w.metadata.Landed? {
        pc := Start(AbandonWait(worker));
        AbandonLaunch(worker, w.exit, w.end);
        return false;
      }
      pc := Start(RunningRead(worker));

      RunningSteps(id, epoch, run, worker, w.running);
      var running := TransitionState(RUNNING, w.running);
      if running != Wrote(Landed) {
        pc := Start(AbandonWait(worker));
        AbandonLaunch(worker, w.exit, w.end);
        return false;
      }
      pc := Start(Register(worker));
      started := true;
    }
  }

  // ---- the code follows the protocol ------------------------------------------------------------

  lemma NoResultYet(id: RunId, epoch: nat, f: Run, role: Role, v: Verdict)
    requires Good(id, epoch, f, Commit(role, ResultRead, v))
    ensures f.result.None?
  {
  }

  /** Reading that there is no result and writing one are the two steps of the commit's first half. */
  lemma ResultStep(id: RunId, epoch: nat, f: Run, role: Role, v: Verdict, a: ResultAnswer)
    requires Good(id, epoch, f, Commit(role, ResultRead, v)) && a.ResultWrote?
    ensures var f' := AfterResult(f, v.result, a);
            && Good(id, epoch, f', Commit(role, EndRead, v))
            && (if a.io.Lost? then f'.lostResult else f'.result == Some(v.result))
            && f'.taskId == f.taskId && f'.claimedIn == f.claimedIn && f'.drained == f.drained
  {
    hide Good, Framed;
    LocalStepOk(id, epoch, f, Commit(role, ResultRead, v), f, Commit(role, ResultWrite, v));
    var f' := if a.io.Lost? then f.(lostResult := true)
              else f.(result := Some(v.result), resultWrites := f.resultWrites + 1);
    LocalStepOk(id, epoch, f, Commit(role, ResultWrite, v), f', Commit(role, EndRead, v));
  }

  lemma EndStep(id: RunId, epoch: nat, f: Run, role: Role, v: Verdict, w: StoreAnswer)
    requires Good(id, epoch, f, Commit(role, EndRead, v))
    ensures var t := AnswerTo(f, v.state, w);
            var f' := AfterTransition(f, v.state, t);
            && Unmoved(t) == (!w.readable || w.io.Lost?)
            && (if Unmoved(t) then Good(id, epoch, f'.(gaveUp := true), After(role))
                else Good(id, epoch, f', After(role)))
            && (!Unmoved(t) ==> f'.state == v.state)
            && f'.lostResult == f.lostResult && f'.result == f.result
            && f'.taskId == f.taskId && f'.claimedIn == f.claimedIn && f'.drained == f.drained
  {
    assert CanTransition(f.state, v.state);
    hide Good, Framed, CanTransition;
    var t := AnswerTo(f, v.state, w);
    var f' := AfterTransition(f, v.state, t);
    if t.Refused? {
      LocalStepOk(id, epoch, f, Commit(role, EndRead, v), f.(gaveUp := true), After(role));
    } else {
      LocalStepOk(id, epoch, f, Commit(role, EndRead, v), f, Commit(role, EndWrite, v));
      LocalStepOk(id, epoch, f, Commit(role, EndWrite, v), if t.io.Lost? then f'.(gaveUp := true) else f', After(role));
    }
  }

  lemma DrainStep(id: RunId, epoch: nat, f: Run, w: nat, o: Outcome, batch: Option<Batch>, f': Run)
    requires Good(id, epoch, f, Final(DrainOutput(w, o))) && f' == f.(drained := Some(Drained(epoch, o, batch)))
    ensures Good(id, epoch, f', Final(ReadCurrent(o, batch)))
  {
    hide Good, Framed;
    assert Drains(epoch, f, o, batch, f', Final(ReadCurrent(o, batch)));
    LocalStepOk(id, epoch, f, Final(DrainOutput(w, o)), f', Final(ReadCurrent(o, batch)));
  }

  lemma ReadFails(id: RunId, epoch: nat, f: Run, o: Outcome, batch: Option<Batch>)
    requires Good(id, epoch, f, Final(ReadCurrent(o, batch)))
    ensures Good(id, epoch, f.(gaveUp := true), Final(Forget))
  {
    hide Good, Framed;
    LocalStepOk(id, epoch, f, Final(ReadCurrent(o, batch)), f.(gaveUp := true), Final(Forget));
  }

  lemma ReadStep(id: RunId, epoch: nat, f: Run, o: Outcome, batch: Option<Batch>)
    requires Good(id, epoch, f, Final(ReadCurrent(o, batch)))
    ensures Good(id, epoch, f, AfterExit(id, f, o, batch))
  {
    hide Good, Framed, AfterExit;
    LocalStepOk(id, epoch, f, Final(ReadCurrent(o, batch)), f, AfterExit(id, f, o, batch));
  }

  /** The checks on a process outcome, in order, are the ruling. */
  lemma ExitRuling(id: RunId, f: Run, o: Outcome, batch: Option<Batch>)
    ensures var v := Decision(id, f.taskId, o, batch);
            && (o.reason == CancelRequested ==> v == FailureOf(id, f.taskId, CANCELLED, Cancelled))
            && (o.reason == HardTimeout ==> v == FailureOf(id, f.taskId, FAILED, TimedOut))
            && (o.reason == OutputLimit || o.reason == OutputError ==> v == FailureOf(id, f.taskId, FAILED, Failed))
            && (o.reason == Exited && o.exitCode != Some(0) ==> v == FailureOf(id, f.taskId, FAILED, Failed))
            && if o.reason == Exited && o.exitCode == Some(0)
               then v == Judge(id, f.taskId, batch) && AfterExit(id, f, o, batch) == Final(ValidateRead(batch))
               else AfterExit(id, f, o, batch) == Commit(Finaliser, ResultRead, v)
  {
  }

  lemma JudgeSays(id: RunId, taskId: string, batch: Option<Batch>)
    ensures var v, failure := Judge(id, taskId, batch), FailureOf(id, taskId, FAILED, Failed);
            if batch.None? || batch.value.rejected > 0 || |batch.value.results| != 1 then v == failure
            else
              var r := batch.value.results[0];
              v == if r.taskId != taskId || r.runId != id then failure
                   else Verdict(if r.status == Succeeded then SUCCEEDED else FAILED, r)
  {
  }

  lemma ValidateSteps(id: RunId, epoch: nat, f: Run, batch: Option<Batch>, w: StoreAnswer)
    requires Good(id, epoch, f, Final(ValidateRead(batch)))
    ensures var t := AnswerTo(f, VALIDATING, w);
            var f' := AfterTransition(f, VALIDATING, t);
            && (t == Wrote(Landed) <==> w.readable && w.io.Landed?)
            && (if t == Wrote(Landed) then Good(id, epoch, f',
                                       Commit(Finaliser, ResultRead, Judge(id, f.taskId, batch)))
                else Good(id, epoch, f'.(gaveUp := true), Final(Forget)))
            && f'.taskId == f.taskId
  {
    assert CanTransition(f.state, VALIDATING);
    hide Good, Framed, CanTransition, Judge;
    var t := AnswerTo(f, VALIDATING, w);
    if t.Refused? {
      LocalStepOk(id, epoch, f, Final(ValidateRead(batch)), f.(gaveUp := true), Final(Forget));
    } else {
      LocalStepOk(id, epoch, f, Final(ValidateRead(batch)), f, Final(ValidateWrite(batch)));
      ValidateWriteStep(id, epoch, f, batch, t.io);
    }
  }

  lemma ValidateWriteStep(id: RunId, epoch: nat, f: Run, batch: Option<Batch>, io: Io)
    requires Good(id, epoch, f, Final(ValidateWrite(batch)))
    ensures io.Landed? ==>
              Good(id, epoch, f.(state := VALIDATING), Commit(Finaliser, ResultRead, Judge(id, f.taskId, batch)))
    ensures io.Unsure? ==> Good(id, epoch, f.(state := VALIDATING, gaveUp := true), Final(Forget))
    ensures io.Lost? ==> Good(id, epoch, f.(gaveUp := true), Final(Forget))
  {
    hide Good, Framed, Judge;
    var write := Final(ValidateWrite(batch));
    match io
    case Landed =>
      LocalStepOk(id, epoch, f, write, f.(state := VALIDATING),
                  Commit(Finaliser, ResultRead, Judge(id, f.taskId, batch)));
    case Unsure => LocalStepOk(id, epoch, f, write, f.(state := VALIDATING, gaveUp := true), Final(Forget));
    case Lost => LocalStepOk(id, epoch, f, write, f.(gaveUp := true), Final(Forget));
  }

  lemma ClaimStepsHold(id: RunId, epoch: nat, f: Run)
    requires Good(id, epoch, f, Start(ReadTask))
    ensures Good(id, epoch, f, Start(PrepareRead)) && Good(id, epoch, f, Start(StartUnlock))
  {
    hide Good, Framed;
    LocalStepOk(id, epoch, f, Start(ReadTask), f, Start(PrepareRead));
    LocalStepOk(id, epoch, f, Start(ReadTask), f, Start(StartUnlock));
  }

  lemma ClaimHolds(id: RunId, epoch: nat, f: Run, w: StoreAnswer)
    requires Good(id, epoch, f, Start(PrepareRead))
    ensures var t := AnswerTo(f, PREPARING, w); t.Refused? || t.io.Lost? ==> Good(id, epoch, f, Start(StartUnlock))
    ensures var t := AnswerTo(f, PREPARING, w);
            t.Wrote? && !t.io.Lost? ==>
              var f' := f.(state := PREPARING, claimedIn := Some(epoch), gaveUp := t.io.Unsure?);
              f.claimedIn.None? && Good(id, epoch, f', if t.io.Landed? then Start(Workspace) else Start(StartUnlock))
  {
    var t := AnswerTo(f, PREPARING, w);
    hide Framed, CanTransition;
    if t.Refused? {
      hide Good;
      LocalStepOk(id, epoch, f, Start(PrepareRead), f, Start(StartUnlock));
    } else {
      LocalStepOk(id, epoch, f, Start(PrepareRead), f, Start(PrepareWrite));
      assert f.claimedIn.None?;
      hide Good;
      var f' := if t.io.Lost? then f else f.(state := PREPARING, claimedIn := Some(epoch), gaveUp := t.io.Unsure?);
      var next := if t.io.Landed? then Start(Workspace) else Start(StartUnlock);
      assert WritesPreparing(epoch, f, t.io, f', next);
      LocalStepOk(id, epoch, f, Start(PrepareWrite), f', next);
    }
  }

  lemma WorkspaceStep(id: RunId, epoch: nat, f: Run)
    requires Good(id, epoch, f, Start(Workspace))
    ensures Good(id, epoch, f, Start(Spawn)) && Good(id, epoch, f, LaunchFailure(id, f))
  {
    hide Good, Framed;
    LocalStepOk(id, epoch, f, Start(Workspace), f, Start(Spawn));
    LocalStepOk(id, epoch, f, Start(Workspace), f, LaunchFailure(id, f));
  }

  lemma SpawnStep(id: RunId, epoch: nat, f: Run)
    requires Good(id, epoch, f, Start(Spawn))
    ensures var f' := WithWorker(f, epoch);
            && Good(id, epoch, f', Start(RecordPid(|f.workers|))) && Good(id, epoch, f', LaunchFailure(id, f'))
            && f'.claimedIn == f.claimedIn && f'.taskId == f.taskId
    ensures Good(id, epoch, f, LaunchFailure(id, f))
  {
    hide Good, Framed;
    var f' := WithWorker(f, epoch);
    LocalStepOk(id, epoch, f, Start(Spawn), f', Start(RecordPid(|f.workers|)));
    LocalStepOk(id, epoch, f, Start(Spawn), f', LaunchFailure(id, f));
    LocalStepOk(id, epoch, f, Start(Spawn), f, LaunchFailure(id, f));
  }

  lemma RecordStep(id: RunId, epoch: nat, f: Run, w: nat)
    requires Good(id, epoch, f, Start(RecordPid(w)))
    ensures Good(id, epoch, f.(pidRecorded := true), Start(RunningRead(w)))
    ensures Good(id, epoch, f.(pidRecorded := true), Start(AbandonWait(w))) && Good(id, epoch, f, Start(AbandonWait(w)))
  {
    hide Good, Framed;
    LocalStepOk(id, epoch, f, Start(RecordPid(w)), f.(pidRecorded := true), Start(RunningRead(w)));
    LocalStepOk(id, epoch, f, Start(RecordPid(w)), f.(pidRecorded := true), Start(AbandonWait(w)));
    LocalStepOk(id, epoch, f, Start(RecordPid(w)), f, Start(AbandonWait(w)));
  }

  lemma RunningSteps(id: RunId, epoch: nat, f: Run, w: nat, a: StoreAnswer)
    requires Good(id, epoch, f, Start(RunningRead(w)))
    ensures var t := AnswerTo(f, RUNNING, a);
            var f' := AfterTransition(f, RUNNING, t);
            && (t == Wrote(Landed) <==> a.readable && a.io.Landed?)
            && Good(id, epoch, f', if t == Wrote(Landed) then Start(Register(w)) else Start(AbandonWait(w)))
            && f'.pidRecorded && f'.claimedIn == f.claimedIn == Some(epoch) && f'.taskId == f.taskId
            && (t == Wrote(Landed) ==> f'.state == RUNNING)
  {
    assert CanTransition(f.state, RUNNING);
    var t := AnswerTo(f, RUNNING, a);
    var f' := AfterTransition(f, RUNNING, t);
    assert f.pidRecorded && f.claimedIn == Some(epoch);
    hide Good, Framed, CanTransition;
    if t.Refused? {
      LocalStepOk(id, epoch, f, Start(RunningRead(w)), f, Start(AbandonWait(w)));
    } else {
      LocalStepOk(id, epoch, f, Start(RunningRead(w)), f, Start(RunningWrite(w)));
      LocalStepOk(id, epoch, f, Start(RunningWrite(w)), f',
                  if t.io.Landed? then Start(Register(w)) else Start(AbandonWait(w)));
    }
  }

  lemma AbandonedIsLaunched(id: RunId, epoch: nat, f: Run, w: nat)
    requires Good(id, epoch, f, Start(AbandonWait(w)))
    ensures w < |f.workers|
  {
  }

  lemma AbandonStep(id: RunId, epoch: nat, f: Run, w: nat)
    requires Good(id, epoch, f, Start(AbandonWait(w))) && w < |f.workers| && f.workers[w].outcome.Some?
    ensures Good(id, epoch, f, LaunchFailure(id, f))
  {
    hide Good, Framed;
    LocalStepOk(id, epoch, f, Start(AbandonWait(w)), f, LaunchFailure(id, f));
  }
}
