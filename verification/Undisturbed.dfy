/** What the daemon can achieve when nothing fails: a task is created, or denied, and a run succeeds. */
module Undisturbed {
  import opened Options
  import opened Runs
  import opened StateMachine
  import opened RunProtocol
  import opened Daemon
  import opened Lifecycle
  import opened Scenarios
  import opened Shortfalls
  import Denials

  // ---- creating a task ------------------------------------------------------------------------

  /** Nothing is left in memory, and this run is the store. */
  function Alone(id: RunId, f: Run): State {
    State(map[id := f], {}, 0, Serving, map[], 1, map[], map[], {}, NotRequested, {})
  }

  lemma EndCreation(e: seq<State>, id: RunId, f: Run, k: CreatePc, f': Run) returns (e': seq<State>)
    requires |e| > 0 && AllLand(e) && Last(e) == Single(map[id := f], {}, Creating(id, k))
    requires CreateAnswered(id, f, k, f', None) && Denials.Reliable(k, f', None)
    ensures |e'| > 0 && AllLand(e') && Last(e') == Alone(id, f')
  {
    hide AllLand, CreateAnswered, Denials.Reliable;
    var a, s := CreateStep(0, f', None), Alone(id, f');
    assert s == Created(Last(e), 0, f', None);
    assert Step(Last(e), a, s) by {
      hide ServesLocal, ServesStart, ServesFinal, ServesCancel, ServesShutdown;
    }
    hide Step;
    assert LandingStep(Last(e), a, s);
    hide LandingStep;
    e' := ExtendLanding(e, a, s);
  }

  /** A task that admission allows is created: its run is QUEUED and audited, and waits to be started. */
  lemma AllowedTaskIsQueued(id: RunId)
    ensures exists e: seq<State> ::
              && AllLand(e) && Last(e).phase.Serving? && Last(e).procs == map[] && id in Last(e).runs
              && var f := Last(e).runs[id];
                 f.state == QUEUED && f.audited && f.created && !f.denied && f.result.None? && !f.locked
  {
    var e := MadeRun(id, false);
    hide AllLand, Single, NewRun;
    var f := NewRun("task", false);
    assert !f.locked && !f.denied && f.state == QUEUED && f.result.None? by {
      NewIsUnlocked(false);
    }
    var g := f.(audited := true);
    e := ExtendCreation(e, id, f, Audit, g, Mark);
    e := EndCreation(e, id, g, Mark, g.(created := true));
  }

  lemma NewIsUnlocked(denied: bool)
    ensures var f := NewRun("task", denied);
            !f.locked && f.denied == denied && f.state == QUEUED && f.result.None? && f.taskId == "task"
  {
  }

  /** A task that is denied is created too, and is over: FAILED, audited, with a result that says it was blocked. */
  lemma DeniedTaskIsBlocked(id: RunId)
    ensures exists e: seq<State> ::
              && AllLand(e) && Last(e).phase.Serving? && Last(e).procs == map[] && id in Last(e).runs
              && var f := Last(e).runs[id];
                 && f.state == FAILED && f.audited && f.created && f.denied && !f.locked
                 && f.result == Some(AgentResult("task", id, Blocked))
  {
    var e := MadeRun(id, true);
    hide AllLand, Single, NewRun;
    var f := NewRun("task", true);
    NewIsUnlocked(true);
    var g := f.(audited := true);
    e := ExtendCreation(e, id, f, Audit, g, Mark);
    e := ExtendCreation(e, id, g, Mark, g, DenyRead);
    e := ExtendCreation(e, id, g, DenyRead, g, DenyWrite);
    var h := g.(state := FAILED);
    e := ExtendCreation(e, id, g, DenyWrite, h, DenyResultRead);
    e := ExtendCreation(e, id, h, DenyResultRead, h, DenyResultWrite);
    e := EndCreation(e, id, h, DenyResultWrite, WithDenial(id, h).(created := true));
  }

  // ---- a run that succeeds -----------------------------------------------------------------------

  const Clean: Outcome := Outcome(Exited, Some(0))

  function Success(id: RunId): AgentResult {
    AgentResult("task", id, Succeeded)
  }

  /** What its worker wrote: one result, for this run. */
  function Output(id: RunId): Option<Batch> {
    Some(Batch(0, [Success(id)]))
  }

  /** Its worker has exited cleanly and its finalisation begins. */
  lemma ExitedRun(id: RunId) returns (e: seq<State>, n: Tid)
    ensures |e| > 0 && Execution(e) && HoldsRun(Last(e), n, id, Final(DrainOutput(0, Clean)))
    ensures var f := Last(e).runs[id]; f.state == RUNNING && f.taskId == "task" && f.result.None?
  {
    e, n := RunningRun(id);
    hide Execution;
    var s := Last(e);
    var s1 := Disk(s, id, Exit(s.runs[id], 0, Clean));
    var s2 := Put(s1, n, Lease(id, Final(DrainOutput(0, Clean)))).(running := s1.running - {id});
    ExitsInSteps(s, id, n, s1, s2);
    hide Step;
    e := Extend(e, WorkerExit(id, 0, Clean), s1);
    e := Extend(e, FinalBegin(n), s2);
  }

  lemma ExitsInSteps(s: State, id: RunId, n: Tid, s1: State, s2: State)
    requires UnderWay(s, n, id) && s1 == Disk(s, id, Exit(s.runs[id], 0, Clean))
    requires s2 == Put(s1, n, Lease(id, Final(DrainOutput(0, Clean)))).(running := s1.running - {id})
    ensures Step(s, WorkerExit(id, 0, Clean), s1) && Step(s1, FinalBegin(n), s2)
  {
    hide ServesLocal, ServesCreate, ServesStart, ServesCancel, ServesShutdown;
  }

  lemma SucceedsInSteps(id: RunId, epoch: nat, f: Run)
    requires f.state == RUNNING && f.taskId == "task"
    ensures var g := f.(drained := Some(Drained(epoch, Clean, Output(id))));
            && LocalStep(id, epoch, f, Final(DrainOutput(0, Clean)), g, Final(ReadCurrent(Clean, Output(id))))
            && LocalStep(id, epoch, g, Final(ReadCurrent(Clean, Output(id))), g, Final(ValidateRead(Output(id))))
            && LocalStep(id, epoch, g, Final(ValidateRead(Output(id))), g, Final(ValidateWrite(Output(id))))
  {
    var g := f.(drained := Some(Drained(epoch, Clean, Output(id))));
    assert Drains(epoch, f, Clean, Output(id), g, Final(ReadCurrent(Clean, Output(id))));
  }

  lemma CommitsInSteps(id: RunId, epoch: nat, g: Run)
    requires g.taskId == "task"
    ensures var v, h := Verdict(SUCCEEDED, Success(id)), g.(state := VALIDATING);
            var k := WithResult(h, v, false);
            && LocalStep(id, epoch, g, Final(ValidateWrite(Output(id))), h, Commit(Finaliser, ResultRead, v))
            && LocalStep(id, epoch, h, Commit(Finaliser, ResultRead, v), h, Commit(Finaliser, ResultWrite, v))
            && LocalStep(id, epoch, h, Commit(Finaliser, ResultWrite, v), k, Commit(Finaliser, EndRead, v))
            && LocalStep(id, epoch, k, Commit(Finaliser, EndRead, v), k, Commit(Finaliser, EndWrite, v))
            && LocalStep(id, epoch, k, Commit(Finaliser, EndWrite, v), k.(state := SUCCEEDED), Final(Forget))
  {
    var v := Verdict(SUCCEEDED, Success(id));
    assert Judge(id, "task", Output(id)) == v;
  }

  lemma ValidatedRun(id: RunId) returns (e: seq<State>, n: Tid)
    ensures |e| > 0 && Execution(e) && HoldsRun(Last(e), n, id, Final(ValidateWrite(Output(id))))
    ensures Last(e).runs[id].taskId == "task"
  {
    e, n := ExitedRun(id);
    hide Execution;
    var f, epoch := Last(e).runs[id], Last(e).epoch;
    var g := f.(drained := Some(Drained(epoch, Clean, Output(id))));
    SucceedsInSteps(id, epoch, f);
    hide LocalStep, HoldsRun, Output;
    e := MoveOn(e, n, id, Final(DrainOutput(0, Clean)), g, Final(ReadCurrent(Clean, Output(id))));
    e := MoveOn(e, n, id, Final(ReadCurrent(Clean, Output(id))), g, Final(ValidateRead(Output(id))));
    e := MoveOn(e, n, id, Final(ValidateRead(Output(id))), g, Final(ValidateWrite(Output(id))));
  }

  lemma CommittedRun(id: RunId) returns (e: seq<State>, n: Tid)
    ensures |e| > 0 && Execution(e) && HoldsRun(Last(e), n, id, Final(Forget))
    ensures Last(e).runs[id].state == SUCCEEDED && Last(e).runs[id].result == Some(Success(id))
  {
    e, n := ValidatedRun(id);
    hide Execution;
    var g, epoch, v := Last(e).runs[id], Last(e).epoch, Verdict(SUCCEEDED, Success(id));
    var h := g.(state := VALIDATING);
    var k := WithResult(h, v, false);
    CommitsInSteps(id, epoch, g);
    hide LocalStep, HoldsRun, Output;
    e := MoveOn(e, n, id, Final(ValidateWrite(Output(id))), h, Commit(Finaliser, ResultRead, v));
    e := MoveOn(e, n, id, Commit(Finaliser, ResultRead, v), h, Commit(Finaliser, ResultWrite, v));
    e := MoveOn(e, n, id, Commit(Finaliser, ResultWrite, v), k, Commit(Finaliser, EndRead, v));
    e := MoveOn(e, n, id, Commit(Finaliser, EndRead, v), k, Commit(Finaliser, EndWrite, v));
    e := MoveOn(e, n, id, Commit(Finaliser, EndWrite, v), k.(state := SUCCEEDED), Final(Forget));
  }

  /** A run can be created, launched, finalised and released: SUCCEEDED, with the result its worker wrote. */
  lemma ARunCanSucceed(id: RunId)
    ensures exists e: seq<State> ::
              && |e| > 0 && Execution(e) && id in Last(e).runs
              && var f := Last(e).runs[id];
                 f.state == SUCCEEDED && f.result == Some(Success(id)) && !f.locked
  {
    var e, n := CommittedRun(id);
    hide Execution;
    var s := Last(e);
    var s1 := Put(s, n, Lease(id, Final(FinalUnlock))).(finalizing := s.finalizing - {id});
    var s2 := Gone(Disk(s1, id, s1.runs[id].(locked := !true)), n);
    ForgetsInSteps(s, id, n, s1, s2);
    hide Step;
    e := Extend(e, ForgetFinal(n), s1);
    e := Extend(e, ReleaseFinal(n, true), s2);
  }
}
