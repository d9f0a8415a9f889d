/** Executions that fall short of what the documentation promises, each by one failure. */
module Shortfalls {
  import opened Options
  import opened Runs
  import opened StateMachine
  import opened RunProtocol
  import opened Daemon
  import opened Lifecycle
  import opened Scenarios
  import opened Steps
  import Audits
  import Denials
  import Launches
  import Reboots

  // ---- creating a run ------------------------------------------------------------------------

  /** Store writes land or the daemon dies, those of a denial included. */
  ghost predicate AllLand(e: seq<State>) {
    |e| > 0 && ReliableExecution(e) && Denials.ReliableDenials(e)
  }

  ghost predicate LandingStep(s: State, a: Action, s': State) {
    ReliableStep(s, a, s') && Denials.DenialStep(s, a, s')
  }

  lemma ExtendLanding(e: seq<State>, a: Action, s: State) returns (e': seq<State>)
    requires |e| > 0 && AllLand(e) && LandingStep(Last(e), a, s)
    ensures |e'| > 0 && AllLand(e') && Last(e') == s
  {
    hide LandingStep, Step, Init;
    e' := e + [s];
    StepsNext(Last(e), a, s);
    forall i | 0 <= i < |e'| - 1
      ensures Next(e'[i], e'[i + 1]) && ReliableNext(e'[i], e'[i + 1]) && Denials.DenialNext(e'[i], e'[i + 1])
    {
      if i < |e| - 1 {
        assert Next(e[i], e[i + 1]) && ReliableNext(e[i], e[i + 1]) && Denials.DenialNext(e[i], e[i + 1]);
      }
    }
  }

  lemma StepsNext(s: State, a: Action, s': State)
    requires LandingStep(s, a, s')
    ensures Next(s, s') && ReliableNext(s, s') && Denials.DenialNext(s, s')
  {
    hide Step;
  }

  lemma LandsUnlessItWrites(s: State, a: Action, s': State)
    requires Step(s, a, s') && !a.Local? && !a.CreateStep?
    ensures LandingStep(s, a, s')
  {
    hide Step;
  }

  /** The serving daemon of the first incarnation with one coroutine. */
  function Single(runs: map<RunId, Run>, incomplete: set<RunId>, p: Proc): State {
    State(runs, incomplete, 0, Serving, map[0 := p], 1, map[], map[], {}, NotRequested, {})
  }

  function Empty(phase: Phase): State {
    State(map[], {}, 0, phase, map[], 0, map[], map[], {}, NotRequested, {})
  }

  lemma StartServing() returns (e: seq<State>)
    ensures |e| > 0 && AllLand(e) && Last(e) == Empty(Serving)
  {
    e := [Empty(Booting({}, false))];
    assert Step(Last(e), Serve, Empty(Serving)) by {
      hide Serves;
    }
    LandsUnlessItWrites(Last(e), Serve, Empty(Serving));
    hide LandingStep, Step;
    e := ExtendLanding(e, Serve, Empty(Serving));
  }

  lemma Making1(id: RunId, denied: bool) returns (e: seq<State>)
    ensures |e| > 0 && AllLand(e) && Last(e) == Single(map[], {id}, Making(id, "task", denied, WriteTask))
  {
    e := StartServing();
    hide AllLand;
    var a, s := MakeRun(id, "task", denied, true), Single(map[], {id}, Making(id, "task", denied, WriteTask));
    assert Step(Last(e), a, s) by {
      hide ServesLocal, ServesStart, ServesFinal, ServesCancel, ServesShutdown;
    }
    LandsUnlessItWrites(Last(e), a, s);
    hide LandingStep, Step;
    e := ExtendLanding(e, a, s);
  }

  lemma MakesOn(e: seq<State>, a: Action, p: Proc, runs: map<RunId, Run>, incomplete: set<RunId>)
    returns (e': seq<State>)
    requires |e| > 0 && AllLand(e) && (a.MakeStep? || a.MakeState?)
    requires ServesCreate(Last(e), a, Single(runs, incomplete, p)) && Last(e).phase.Serving?
    ensures |e'| > 0 && AllLand(e') && Last(e') == Single(runs, incomplete, p)
  {
    hide AllLand, ServesCreate;
    var s := Single(runs, incomplete, p);
    assert Step(Last(e), a, s) by {
      hide ServesLocal, ServesStart, ServesFinal, ServesCancel, ServesShutdown;
    }
    LandsUnlessItWrites(Last(e), a, s);
    hide LandingStep, Step;
    e' := ExtendLanding(e, a, s);
  }

  /** A run whose creating call stands before the audit record. */
  lemma MadeRun(id: RunId, denied: bool) returns (e: seq<State>)
    ensures |e| > 0 && AllLand(e) && Last(e) == Single(map[id := NewRun("task", denied)], {}, Creating(id, Audit))
  {
    e := Making1(id, denied);
    hide AllLand, NewRun;
    e := MakesOn(e, MakeStep(0, true), Making(id, "task", denied, WriteMetadata), map[], {id});
    e := MakesOn(e, MakeStep(0, true), Making(id, "task", denied, WriteState), map[], {id});
    e := MakesOn(e, MakeState(0, Landed), Creating(id, Audit), map[id := NewRun("task", denied)], {});
  }

  lemma MadeIsQueued(denied: bool)
    ensures var f := NewRun("task", denied);
            && f.state == QUEUED && f.result.None? && f.denied == denied && f.claimedIn.None?
            && f.taskId == "task" && f.workers == [] && !f.audited && !f.lostResult
  {
  }

  // ---- a denied run without result -----------------------------------------------------------

  lemma ExtendCreation(e: seq<State>, id: RunId, f: Run, k: CreatePc, f': Run, k': CreatePc) returns (e': seq<State>)
    requires |e| > 0 && AllLand(e) && Last(e) == Single(map[id := f], {}, Creating(id, k))
    requires CreateAnswered(id, f, k, f', Some(k')) && Denials.Reliable(k, f', Some(k'))
    ensures |e'| > 0 && AllLand(e') && Last(e') == Single(map[id := f'], {}, Creating(id, k'))
  {
    hide AllLand, CreateAnswered, Denials.Reliable;
    var a, s := CreateStep(0, f', Some(k')), Single(map[id := f'], {}, Creating(id, k'));
    assert s == Created(Last(e), 0, f', Some(k'));
    assert Step(Last(e), a, s) by {
      hide ServesLocal, ServesStart, ServesFinal, ServesCancel, ServesShutdown;
    }
    hide Step;
    assert LandingStep(Last(e), a, s);
    hide LandingStep;
    e' := ExtendLanding(e, a, s);
  }

  lemma CreatedDenied(id: RunId) returns (e: seq<State>, f: Run)
    ensures |e| > 0 && AllLand(e) && Last(e) == Single(map[id := f], {}, Creating(id, DenyResultRead))
    ensures f.state == FAILED && f.result.None? && f.denied
  {
    e := MadeRun(id, true);
    hide AllLand, Single, NewRun;
    f := NewRun("task", true);
    MadeIsQueued(true);
    var g := f.(audited := true);
    e := ExtendCreation(e, id, f, Audit, g, Mark);
    e := ExtendCreation(e, id, g, Mark, g, DenyRead);
    e := ExtendCreation(e, id, g, DenyRead, g, DenyWrite);
    f := g.(state := FAILED);
    e := ExtendCreation(e, id, g, DenyWrite, f, DenyResultRead);
  }

  lemma CrashLands(e: seq<State>) returns (e': seq<State>)
    requires |e| > 0 && AllLand(e)
    ensures |e'| > 0 && AllLand(e') && Last(e').phase.Booting?
    ensures Last(e').runs == Last(e).runs && Last(e').incomplete == Last(e).incomplete
  {
    hide AllLand;
    var s := Last(e);
    var s' := State(s.runs, s.incomplete, s.epoch + 1, Booting(s.runs.Keys + s.incomplete, false),
                    map[], 0, map[], map[], {}, NotRequested, s.answers);
    assert Step(s, Crash, s') by {
      hide Serves, Recovers;
    }
    LandsUnlessItWrites(s, Crash, s');
    hide LandingStep, Step;
    e' := ExtendLanding(e, Crash, s');
  }

  /** The denial path writes FAILED first: a crash in between leaves a terminal run without result. */
  lemma DeniedThenCrashed(id: RunId)
    ensures exists e: seq<State> ::
              && AllLand(e) && id in Last(e).runs
              && Last(e).runs[id].state == FAILED && Last(e).runs[id].result.None?
  {
    var e, f := CreatedDenied(id);
    hide AllLand;
    e := CrashLands(e);
  }

  // ---- a directory without state -----------------------------------------------------------------

  /** A crash while a run is being made leaves a store over which no daemon ever serves again. */
  lemma InterruptedMakingEndsService(id: RunId)
    ensures exists e: seq<State> :: AllLand(e) && id in Last(e).incomplete && !Reboots.CanServe(e)
  {
    var e := Making1(id, false);
    hide AllLand;
    e := CrashLands(e);
    LandingIsExecution(e);
    hide Execution, Reboots.CanServe;
    Reboots.CanServeIff(e);
  }

  lemma LandingIsExecution(e: seq<State>)
    requires AllLand(e)
    ensures Execution(e)
  {
    hide Init, Next;
  }

  // ---- a denied run that is launched ---------------------------------------------------------------

  predicate LaunchedUnaudited(s: State, id: RunId) {
    id in s.runs && s.runs[id].denied && !s.runs[id].audited && |s.runs[id].workers| == 1
  }

  /**
   * The audit record does not precede every worker: a daemon that dies inside createTask leaves a QUEUED
   * run that a later incarnation may launch, even one that admission had denied.
   */
  lemma AnInterruptedCreationMayBeLaunched(id: RunId)
    ensures exists e: seq<State> :: |e| > 0 && Execution(e) && LaunchedUnaudited(Last(e), id)
  {
    var e := MadeRun(id, true);
    MadeIsQueued(true);
    LandingIsExecution(e);
    hide AllLand, Execution, NewRun;
    e := Reboots.QueuedCanBeLaunched(e, id);
    assert LaunchedUnaudited(Last(e), id);
  }

  // ---- a started run ----------------------------------------------------------------------------

  /** A queued run that a later incarnation is starting, alone. */
  lemma StartingRun(id: RunId) returns (e: seq<State>, t: Tid)
    ensures |e| > 0 && Execution(e) && HoldsRun(Last(e), t, id, Start(ReadTask)) && OnlyStart(Last(e), t)
    ensures var f := Last(e).runs[id];
            && f.state == QUEUED && f.result.None? && f.taskId == "task"
            && f.workers == [] && !f.pidRecorded && !f.lostResult
  {
    e := MadeRun(id, false);
    MadeIsQueued(false);
    LandingIsExecution(e);
    hide AllLand, Execution;
    var f := NewRun("task", false);
    e := BootsAgain(e);
    assert Last(e).runs[id] == Settled(f) && Settled(f) == f;
    hide SettledIn, Settled, NewRun;
    e, t := CanStart(e, id);
  }

  /** The verdict of a start that fails. */
  function Failure(id: RunId): Verdict {
    FailureOf(id, "task", FAILED, Failed)
  }

  /** A start whose launch fails, before the write of its result. */
  lemma RefusedRun(id: RunId) returns (e: seq<State>, t: Tid)
    ensures |e| > 0 && Execution(e) && OnlyStart(Last(e), t)
    ensures HoldsRun(Last(e), t, id, Commit(Starter, ResultWrite, Failure(id)))
    ensures var f := Last(e).runs[id];
            f.claimedIn == Some(Last(e).epoch) && f.state == PREPARING && f.result.None?
  {
    e, t := StartingRun(id);
    hide Execution;
    e := CanSpawn(e, t, id);
    var f, v := Last(e).runs[id], Failure(id);
    RefusedInSteps(id, Last(e).epoch, f);
    hide LocalStep, HoldsRun, OnlyStart;
    e := MovesOn(e, t, id, Start(Spawn), f, Commit(Starter, ResultRead, v));
    e := MovesOn(e, t, id, Commit(Starter, ResultRead, v), f, Commit(Starter, ResultWrite, v));
  }

  lemma RefusedInSteps(id: RunId, epoch: nat, f: Run)
    requires f.taskId == "task"
    ensures LocalStep(id, epoch, f, Start(Spawn), f, Commit(Starter, ResultRead, Failure(id)))
    ensures LocalStep(id, epoch, f, Commit(Starter, ResultRead, Failure(id)),
                      f, Commit(Starter, ResultWrite, Failure(id)))
  {
    assert LaunchFailure(id, f) == Commit(Starter, ResultRead, Failure(id));
    hide CanTransition;
  }

  lemma EndsInSteps(id: RunId, epoch: nat, f: Run, lost: bool)
    requires f.state == PREPARING
    ensures var v, g := Failure(id), WithResult(f, Failure(id), lost);
            && LocalStep(id, epoch, f, Commit(Starter, ResultWrite, v), g, Commit(Starter, EndRead, v))
            && LocalStep(id, epoch, g, Commit(Starter, EndRead, v), g, Commit(Starter, EndWrite, v))
  {
  }

  /** The terminal write lands, or is lost. */
  lemma EndsInStep(id: RunId, epoch: nat, g: Run)
    ensures var v := Failure(id);
            && LocalStep(id, epoch, g, Commit(Starter, EndWrite, v), g.(state := FAILED), Start(StartUnlock))
            && LocalStep(id, epoch, g, Commit(Starter, EndWrite, v), g.(gaveUp := true), Start(StartUnlock))
  {
  }

  function WithResult(f: Run, v: Verdict, lost: bool): Run {
    if lost then f.(lostResult := true) else f.(result := Some(v.result), resultWrites := f.resultWrites + 1)
  }

  /** As far as the write of the terminal state; the write of the result may be lost. */
  lemma FailingRun(id: RunId, lost: bool) returns (e: seq<State>, t: Tid)
    ensures |e| > 0 && Execution(e) && OnlyStart(Last(e), t)
    ensures HoldsRun(Last(e), t, id, Commit(Starter, EndWrite, Failure(id)))
    ensures var f := Last(e).runs[id];
            f.claimedIn == Some(Last(e).epoch) && f.state == PREPARING && f.result.None? == lost
  {
    e, t := RefusedRun(id);
    hide Execution;
    var f, v := Last(e).runs[id], Failure(id);
    var g := WithResult(f, v, lost);
    EndsInSteps(id, Last(e).epoch, f, lost);
    hide LocalStep, HoldsRun, OnlyStart;
    e := MovesOn(e, t, id, Commit(Starter, ResultWrite, v), g, Commit(Starter, EndRead, v));
    e := MovesOn(e, t, id, Commit(Starter, EndRead, v), g, Commit(Starter, EndWrite, v));
  }

  /** The answer of writeResult is not looked at: if the write is lost, the terminal state still follows. */
  lemma ResultLostThenTerminal(id: RunId)
    ensures exists e: seq<State> ::
              && |e| > 0 && Execution(e) && id in Last(e).runs
              && Last(e).runs[id].claimedIn.Some? && Last(e).runs[id].state == FAILED && Last(e).runs[id].result.None?
  {
    var e, t := FailingRun(id, true);
    EndsInStep(id, Last(e).epoch, Last(e).runs[id]);
    hide Execution, LocalStep;
    var f := Last(e).runs[id];
    e := MoveOn(e, t, id, Commit(Starter, EndWrite, Failure(id)), f.(state := FAILED), Start(StartUnlock));
  }

  /** A start that has given up, and is gone. */
  lemma GivenUpAndReleased(id: RunId) returns (e: seq<State>)
    ensures |e| > 0 && Execution(e) && Quiet(Last(e)) && Last(e).drain.NotRequested? && id in Last(e).runs
    ensures Last(e).runs[id].claimedIn == Some(Last(e).epoch) && Last(e).runs[id].state == PREPARING
  {
    var t;
    e, t := FailingRun(id, false);
    EndsInStep(id, Last(e).epoch, Last(e).runs[id]);
    hide Execution, LocalStep;
    var f := Last(e).runs[id];
    e := MovesOn(e, t, id, Commit(Starter, EndWrite, Failure(id)), f.(gaveUp := true), Start(StartUnlock));
    e := ReleasesStart(e, t, id);
  }

  /** Nothing is in memory but what a request for shutdown has left. */
  predicate Quiet(s: State) {
    s.phase.Serving? && s.procs == map[] && s.starting == {} && s.running == map[] && s.finalizing == map[]
  }

  lemma ReleasesStart(e: seq<State>, t: Tid, id: RunId) returns (e': seq<State>)
    requires |e| > 0 && Execution(e) && OnlyStart(Last(e), t) && HoldsRun(Last(e), t, id, Start(StartUnlock))
    ensures |e'| > 0 && Execution(e') && Quiet(Last(e')) && Last(e').drain.NotRequested?
    ensures Last(e').epoch == Last(e).epoch
    ensures id in Last(e').runs && Last(e').runs[id] == Last(e).runs[id].(locked := false)
  {
    hide Execution;
    var s := Last(e);
    var s1 := Gone(Disk(s, id, s.runs[id].(locked := !true)), t);
    var s2 := s1.(starting := s1.starting - {t});
    assert Step(s, ReleaseStart(t, true), s1) && Step(s1, SettleStart(t), s2) by {
      hide ServesLocal, ServesCreate, ServesFinal, ServesCancel, ServesShutdown;
    }
    hide Step;
    e' := Extend(e, ReleaseStart(t, true), s1);
    e' := Extend(e', SettleStart(t), s2);
  }

  /** With nothing in memory, a shutdown resolves at once. */
  lemma ShutsDown(e: seq<State>) returns (e': seq<State>)
    requires |e| > 0 && Execution(e) && Quiet(Last(e)) && Last(e).drain.NotRequested?
    ensures |e'| > 0 && Execution(e') && Last(e') == Last(e).(drain := Resolved)
  {
    hide Execution;
    var s := Last(e);
    var s1, s2, s3 := s.(drain := AwaitStarts({})), s.(drain := AwaitFinals({})), s.(drain := Resolved);
    DrainsAtOnce(s, s1, s2, s3);
    hide Step;
    e' := Extend(e, Shutdown, s1);
    e' := Extend(e', StartsDrained, s2);
    e' := Extend(e', FinalsDrained, s3);
  }

  lemma DrainsAtOnce(s: State, s1: State, s2: State, s3: State)
    requires Quiet(s) && s.drain.NotRequested? && s1 == s.(drain := AwaitStarts({}))
    requires s2 == s.(drain := AwaitFinals({})) && s3 == s.(drain := Resolved)
    ensures Step(s, Shutdown, s1) && Step(s1, StartsDrained, s2) && Step(s2, FinalsDrained, s3)
  {
    hide ServesLocal, ServesCreate, ServesStart, ServesFinal, ServesCancel;
    assert s1.finalizing.Values == {};
  }

  /** A terminal write that is lost leaves its run open, and a shutdown still resolves. */
  lemma GivenUpThenShutDown(id: RunId)
    ensures exists e: seq<State> ::
              && |e| > 0 && Execution(e) && Last(e).drain.Resolved? && id in Last(e).runs
              && Last(e).runs[id].claimedIn == Some(Last(e).epoch) && !IsTerminal(Last(e).runs[id].state)
  {
    var e := GivenUpAndReleased(id);
    hide Execution;
    e := ShutsDown(e);
  }

  // ---- a process that is not on record ---------------------------------------------------------------

  /**
   * A daemon that dies between the spawn and the record leaves a process that recovery cannot find: a later
   * incarnation serves, the run is ORPHANED, and the process has not been stopped.
   */
  lemma UnrecordedWorkerSurvives(id: RunId)
    ensures exists e: seq<State> ::
              && |e| > 0 && Execution(e) && Last(e).phase.Serving? && Launches.Unrecorded(Last(e), id)
              && Last(e).runs[id].state == ORPHANED && Last(e).runs[id].workers[0].outcome.None?
  {
    var e, t := StartingRun(id);
    hide Execution;
    e := CanLaunch(e, t, id);
    var f := Last(e).runs[id];
    OnlyStartIsComplete(Last(e), t);
    e := BootsAgain(e);
    assert Last(e).runs[id] == Settled(f);
    hide SettledIn;
  }

  lemma OnlyStartIsComplete(s: State, t: Tid)
    requires OnlyStart(s, t)
    ensures s.incomplete == {}
  {
  }

  // ---- a cancel that is answered with a state that is not terminal -------------------------------------

  /** A run on its way: its finalisation waits for its only process. */
  predicate UnderWay(s: State, n: Tid, id: RunId) {
    && HoldsRun(s, n, id, Final(AwaitExit(0))) && n < s.nextTid
    && id in s.running && id in s.finalizing && s.finalizing[id] == n && s.nextTid !in s.procs
    && var f := s.runs[id];
    && f.state == RUNNING && f.workers == [Worker(s.epoch, None)] && f.taskId == "task" && f.result.None?
  }

  lemma RunningInSteps(id: RunId, epoch: nat, f: Run)
    requires f.state == PREPARING
    ensures var g := f.(pidRecorded := true);
            && LocalStep(id, epoch, f, Start(RecordPid(0)), g, Start(RunningRead(0)))
            && LocalStep(id, epoch, g, Start(RunningRead(0)), g, Start(RunningWrite(0)))
            && LocalStep(id, epoch, g, Start(RunningWrite(0)), g.(state := RUNNING), Start(Register(0)))
  {
  }

  lemma RunningRun(id: RunId) returns (e: seq<State>, n: Tid)
    ensures |e| > 0 && Execution(e) && UnderWay(Last(e), n, id)
  {
    var t;
    e, t := StartingRun(id);
    hide Execution;
    e := CanLaunch(e, t, id);
    var f := Last(e).runs[id];
    assert f.workers == [Worker(Last(e).epoch, None)];
    var g := f.(pidRecorded := true);
    RunningInSteps(id, Last(e).epoch, f);
    e := RegistersAfter(e, t, id, g);
    n := Last(e).finalizing[id];
  }

  lemma RegistersAfter(e: seq<State>, t: Tid, id: RunId, g: Run) returns (e': seq<State>)
    requires |e| > 0 && Execution(e) && HoldsRun(Last(e), t, id, Start(RecordPid(0))) && OnlyStart(Last(e), t)
    requires g == Last(e).runs[id].(pidRecorded := true) && g.workers == [Worker(Last(e).epoch, None)]
    requires g.taskId == "task" && g.result.None? && t < Last(e).nextTid
    requires var f, epoch := Last(e).runs[id], Last(e).epoch;
             && LocalStep(id, epoch, f, Start(RecordPid(0)), g, Start(RunningRead(0)))
             && LocalStep(id, epoch, g, Start(RunningRead(0)), g, Start(RunningWrite(0)))
             && LocalStep(id, epoch, g, Start(RunningWrite(0)), g.(state := RUNNING), Start(Register(0)))
    ensures |e'| > 0 && Execution(e') && id in Last(e').finalizing && UnderWay(Last(e'), Last(e').finalizing[id], id)
  {
    hide Execution, LocalStep;
    e' := MovesOn(e, t, id, Start(RecordPid(0)), g, Start(RunningRead(0)));
    e' := MovesOn(e', t, id, Start(RunningRead(0)), g, Start(RunningWrite(0)));
    e' := MovesOn(e', t, id, Start(RunningWrite(0)), g.(state := RUNNING), Start(Register(0)));
    var s := Last(e');
    assert Step(s, RegisterHandle(t), Registered(s, t)) by {
      hide ServesLocal, ServesCreate, ServesFinal, ServesCancel, ServesShutdown, Registered;
    }
    hide Step;
    e' := Extend(e', RegisterHandle(t), Registered(s, t));
  }

  /** A cancel beside the finalisation it waits for. */
  predicate Beside(s: State, n: Tid, c: Tid, id: RunId, q: CancelPc) {
    c in s.procs && c != n && s.procs[c] == Cancelling(id, Some(n), q)
  }

  const Stopped: Outcome := Outcome(CancelRequested, None)

  /** Cancelled, and its process has exited. */
  lemma CancelledRun(id: RunId) returns (e: seq<State>, n: Tid, c: Tid)
    ensures |e| > 0 && Execution(e) && Beside(Last(e), n, c, id, CancelFinal)
    ensures HoldsRun(Last(e), n, id, Final(DrainOutput(0, Stopped)))
    ensures var f := Last(e).runs[id]; f.state == RUNNING && f.taskId == "task" && f.result.None?
  {
    e, n := RunningRun(id);
    hide Execution;
    var s := Last(e);
    c := s.nextTid;
    var s1 := With(s, Cancelling(id, Some(n), CancelExit));
    var s2 := Disk(s1, id, Exit(s1.runs[id], 0, Stopped));
    var s3 := Put(s2, c, Cancelling(id, Some(n), CancelFinal));
    var s4 := Put(s3, n, Lease(id, Final(DrainOutput(0, Stopped)))).(running := s3.running - {id});
    CancelsInSteps(s, id, n, s1, s2, s3);
    BeginsInStep(s3, id, n, s4);
    hide Step;
    e := Extend(e, CancelRun(id), s1);
    e := Extend(e, WorkerExit(id, 0, Stopped), s2);
    e := Extend(e, CancelSawExit(c), s3);
    e := Extend(e, FinalBegin(n), s4);
  }

  lemma CancelsInSteps(s: State, id: RunId, n: Tid, s1: State, s2: State, s3: State)
    requires UnderWay(s, n, id) && s1 == With(s, Cancelling(id, Some(n), CancelExit))
    requires s2 == Disk(s1, id, Exit(s1.runs[id], 0, Stopped))
    requires s3 == Put(s2, s.nextTid, Cancelling(id, Some(n), CancelFinal))
    ensures Step(s, CancelRun(id), s1) && Step(s1, WorkerExit(id, 0, Stopped), s2)
    ensures Step(s2, CancelSawExit(s.nextTid), s3)
  {
    hide ServesLocal, ServesCreate, ServesStart, ServesFinal, ServesShutdown;
    assert s2.runs[id].workers[0].outcome.Some?;
  }

  lemma BeginsInStep(s: State, id: RunId, n: Tid, s': State)
    requires HoldsRun(s, n, id, Final(AwaitExit(0)))
    requires s.runs[id].workers == [Worker(s.epoch, Some(Stopped))]
    requires s' == Put(s, n, Lease(id, Final(DrainOutput(0, Stopped)))).(running := s.running - {id})
    ensures Step(s, FinalBegin(n), s')
  {
    hide ServesLocal, ServesCreate, ServesStart, ServesCancel, ServesShutdown;
  }

  function Cancellation(id: RunId): Verdict {
    FailureOf(id, "task", CANCELLED, Cancelled)
  }

  /** The answers that lead from the exit to a terminal write that is lost. */
  lemma GivesUpInSteps(id: RunId, epoch: nat, f: Run)
    requires f.state == RUNNING && f.taskId == "task"
    ensures var v, g := Cancellation(id), f.(drained := Some(Drained(epoch, Stopped, None)));
            var h := WithResult(g, v, false);
            && LocalStep(id, epoch, f, Final(DrainOutput(0, Stopped)), g, Final(ReadCurrent(Stopped, None)))
            && LocalStep(id, epoch, g, Final(ReadCurrent(Stopped, None)), g, Commit(Finaliser, ResultRead, v))
            && LocalStep(id, epoch, g, Commit(Finaliser, ResultRead, v), g, Commit(Finaliser, ResultWrite, v))
            && LocalStep(id, epoch, g, Commit(Finaliser, ResultWrite, v), h, Commit(Finaliser, EndRead, v))
            && LocalStep(id, epoch, h, Commit(Finaliser, EndRead, v), h, Commit(Finaliser, EndWrite, v))
            && LocalStep(id, epoch, h, Commit(Finaliser, EndWrite, v), h.(gaveUp := true), Final(Forget))
  {
    var g := f.(drained := Some(Drained(epoch, Stopped, None)));
    assert Drains(epoch, f, Stopped, None, g, Final(ReadCurrent(Stopped, None)));
    assert AfterExit(id, g, Stopped, None) == Commit(Finaliser, ResultRead, Cancellation(id));
  }

  lemma MovesBeside(e: seq<State>, n: Tid, c: Tid, id: RunId, pc: Pc, f': Run, pc': Pc) returns (e': seq<State>)
    requires |e| > 0 && Execution(e) && HoldsRun(Last(e), n, id, pc) && Beside(Last(e), n, c, id, CancelFinal)
    requires LocalStep(id, Last(e).epoch, Last(e).runs[id], pc, f', pc')
    ensures |e'| > 0 && Execution(e') && HoldsRun(Last(e'), n, id, pc') && Beside(Last(e'), n, c, id, CancelFinal)
    ensures Last(e').runs[id] == f' && Last(e').epoch == Last(e).epoch
  {
    hide Execution, LocalStep;
    e' := MoveOn(e, n, id, pc, f', pc');
  }

  /** The finalisation has given up, and its cancel still waits for it. */
  lemma GivenUpBesideCancel(id: RunId) returns (e: seq<State>, n: Tid, c: Tid)
    ensures |e| > 0 && Execution(e) && Beside(Last(e), n, c, id, CancelFinal) && HoldsRun(Last(e), n, id, Final(Forget))
    ensures Last(e).runs[id].state == RUNNING
  {
    e, n, c := CancelledRun(id);
    hide Execution;
    var f, v, epoch := Last(e).runs[id], Cancellation(id), Last(e).epoch;
    var g := f.(drained := Some(Drained(epoch, Stopped, None)));
    var h := WithResult(g, v, false);
    GivesUpInSteps(id, epoch, f);
    hide LocalStep, HoldsRun, Beside;
    e := MovesBeside(e, n, c, id, Final(DrainOutput(0, Stopped)), g, Final(ReadCurrent(Stopped, None)));
    e := MovesBeside(e, n, c, id, Final(ReadCurrent(Stopped, None)), g, Commit(Finaliser, ResultRead, v));
    e := MovesBeside(e, n, c, id, Commit(Finaliser, ResultRead, v), g, Commit(Finaliser, ResultWrite, v));
    e := MovesBeside(e, n, c, id, Commit(Finaliser, ResultWrite, v), h, Commit(Finaliser, EndRead, v));
    e := MovesBeside(e, n, c, id, Commit(Finaliser, EndRead, v), h, Commit(Finaliser, EndWrite, v));
    e := MovesBeside(e, n, c, id, Commit(Finaliser, EndWrite, v), h.(gaveUp := true), Final(Forget));
  }

  /** cancelRun answers ok with what it reads: after a terminal write that was lost, a state that is not terminal. */
  lemma CancelAnsweredRunning(id: RunId)
    ensures exists e: seq<State> :: |e| > 0 && Execution(e) && (id, RUNNING) in Last(e).answers
  {
    var e, n, c := GivenUpBesideCancel(id);
    hide Execution;
    var s := Last(e);
    var s1 := Put(s, n, Lease(id, Final(FinalUnlock))).(finalizing := s.finalizing - {id});
    var s2 := Gone(Disk(s1, id, s1.runs[id].(locked := !true)), n);
    var s3 := Put(s2, c, Cancelling(id, Some(n), CancelRead));
    var s4 := Gone(s3, c).(answers := s3.answers + {(id, s3.runs[id].state)});
    ForgetsInSteps(s, id, n, s1, s2);
    AnswersInSteps(s2, id, n, c, s3, s4);
    hide Step;
    e := Extend(e, ForgetFinal(n), s1);
    e := Extend(e, ReleaseFinal(n, true), s2);
    e := Extend(e, CancelSawFinal(c), s3);
    e := Extend(e, CancelAnswer(c, true), s4);
  }

  lemma ForgetsInSteps(s: State, id: RunId, n: Tid, s1: State, s2: State)
    requires HoldsRun(s, n, id, Final(Forget))
    requires s1 == Put(s, n, Lease(id, Final(FinalUnlock))).(finalizing := s.finalizing - {id})
    requires s2 == Gone(Disk(s1, id, s1.runs[id].(locked := !true)), n)
    ensures Step(s, ForgetFinal(n), s1) && Step(s1, ReleaseFinal(n, true), s2)
  {
    hide ServesLocal, ServesCreate, ServesStart, ServesCancel, ServesShutdown;
  }

  lemma AnswersInSteps(s: State, id: RunId, n: Tid, c: Tid, s1: State, s2: State)
    requires s.phase.Serving? && Beside(s, n, c, id, CancelFinal) && n !in s.procs && id in s.runs
    requires s1 == Put(s, c, Cancelling(id, Some(n), CancelRead))
    requires s2 == Gone(s1, c).(answers := s1.answers + {(id, s1.runs[id].state)})
    ensures Step(s, CancelSawFinal(c), s1) && Step(s1, CancelAnswer(c, true), s2)
  {
    hide ServesLocal, ServesCreate, ServesStart, ServesFinal, ServesShutdown;
  }
}
