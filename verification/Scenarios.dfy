/** Executions built step by step: what the daemon can do from a state. */
module Scenarios {
  import opened Options
  import opened Runs
  import opened StateMachine
  import opened RunProtocol
  import opened Daemon
  import opened Lifecycle

  function Last(e: seq<State>): State
    requires |e| > 0
  {
    e[|e| - 1]
  }

  lemma Extend(e: seq<State>, a: Action, s: State) returns (e': seq<State>)
    requires |e| > 0 && Execution(e) && Step(Last(e), a, s)
    ensures |e'| == |e| + 1 && e <= e' && Execution(e') && Last(e') == s
  {
    hide Step;
    e' := e + [s];
    forall i | 0 <= i < |e'| - 1 ensures Next(e'[i], e'[i + 1]) {
      if i == |e| - 1 {
        assert Step(e'[i], a, e'[i + 1]);
      } else {
        assert Next(e[i], e[i + 1]);
      }
    }
  }

  // ---- booting -----------------------------------------------------------------------------

  /** A run as a boot without failure leaves it. */
  function Settled(f: Run): Run {
    f.(locked := false, state := match RecoveryStateFor(f.state) case Leave => f.state case MoveTo(to) => to)
  }

  lemma SettledRecovers(f: Run)
    ensures Recovers(f, Settled(f), false)
  {
  }

  /** The runs of `todo` are settled, and the others are as they were. */
  ghost predicate SettledIn(runs: map<RunId, Run>, runs': map<RunId, Run>, todo: set<RunId>) {
    && (forall id :: id in runs' <==> id in runs)
    && (forall id :: id in runs ==> runs'[id] == if id in todo then Settled(runs[id]) else runs[id])
  }

  lemma RecoverAll(e: seq<State>, todo: set<RunId>) returns (e': seq<State>)
    requires |e| > 0 && Execution(e) && Last(e).phase == Booting(todo, false) && todo <= Last(e).runs.Keys
    ensures |e'| > 0 && e <= e' && Execution(e')
    ensures Last(e') == Last(e).(runs := Last(e').runs, phase := Booting({}, false))
    ensures SettledIn(Last(e).runs, Last(e').runs, todo)
    decreases |todo|
  {
    hide Execution, Settled, Serves;
    var s := Last(e);
    if todo == {} {
      e' := e;
      assert SettledIn(s.runs, s.runs, todo);
    } else {
      var id :| id in todo;
      var f := Settled(s.runs[id]);
      SettledRecovers(s.runs[id]);
      var s1 := Disk(s, id, f).(phase := Booting(todo - {id}, false || false));
      BootsOne(s, id, f, s1, todo);
      hide Step, SettledIn;
      var e1 := Extend(e, BootRun(id, f, false), s1);
      e' := RecoverAll(e1, todo - {id});
      OneMoreSettled(s.runs, Last(e').runs, id, todo);
    }
  }

  lemma OneMoreSettled(runs: map<RunId, Run>, runs': map<RunId, Run>, id: RunId, todo: set<RunId>)
    requires id in runs && id in todo && SettledIn(runs[id := Settled(runs[id])], runs', todo - {id})
    ensures SettledIn(runs, runs', todo)
  {
    hide Settled;
  }

  lemma BootsOne(s: State, id: RunId, f: Run, s1: State, todo: set<RunId>)
    requires s.phase == Booting(todo, false) && id in todo && id in s.runs && Recovers(s.runs[id], f, false)
    requires s1 == Disk(s, id, f).(phase := Booting(todo - {id}, false))
    ensures Step(s, BootRun(id, f, false), s1)
  {
    hide Recovers, Serves;
  }

  /** A daemon that dies boots again, if every listed directory has its state. */
  lemma BootsAgain(e: seq<State>) returns (e': seq<State>)
    requires |e| > 0 && Execution(e) && Last(e).incomplete == {}
    ensures |e'| > |e| && e <= e' && Execution(e')
    ensures Last(e') == State(Last(e').runs, {}, Last(e).epoch + 1, Serving, map[], 0, map[], map[], {}, NotRequested,
                              Last(e).answers)
    ensures SettledIn(Last(e).runs, Last(e').runs, Last(e).runs.Keys)
  {
    hide Execution, Settled, Serves;
    var s := Last(e);
    var s1 := State(s.runs, {}, s.epoch + 1, Booting(s.runs.Keys, false), map[], 0, map[], map[], {}, NotRequested,
                    s.answers);
    assert s.runs.Keys + {} == s.runs.Keys;
    var e1 := Extend(e, Crash, s1);
    var e2 := RecoverAll(e1, s.runs.Keys);
    e' := Extend(e2, Serve, Last(e2).(phase := Serving));
  }

  // ---- starting ------------------------------------------------------------------------------

  predicate HoldsRun(s: State, t: Tid, id: RunId, pc: Pc) {
    s.phase.Serving? && t in s.procs && s.procs[t] == Lease(id, pc) && id in s.runs
  }

  /** The await of a lease holder answered. */
  lemma MoveOn(e: seq<State>, t: Tid, id: RunId, pc: Pc, f': Run, pc': Pc) returns (e': seq<State>)
    requires |e| > 0 && Execution(e) && HoldsRun(Last(e), t, id, pc)
    requires LocalStep(id, Last(e).epoch, Last(e).runs[id], pc, f', pc')
    ensures |e'| > 0 && e <= e' && Execution(e') && Last(e') == Put(Disk(Last(e), id, f'), t, Lease(id, pc'))
    ensures HoldsRun(Last(e'), t, id, pc') && Last(e').runs[id] == f' && Last(e').epoch == Last(e).epoch
  {
    hide Execution, LocalStep, ServesCreate, ServesStart, ServesFinal, ServesCancel, ServesShutdown;
    e' := Extend(e, Local(t, f', pc'), Put(Disk(Last(e), id, f'), t, Lease(id, pc')));
  }

  /** A start is alone in memory, over a store whose directories have their state. */
  predicate OnlyStart(s: State, t: Tid) {
    && t < s.nextTid && s.procs.Keys == {t} && s.starting == {t} && s.running == map[] && s.finalizing == map[]
    && s.drain.NotRequested? && s.incomplete == {}
  }

  lemma MovesOn(e: seq<State>, t: Tid, id: RunId, pc: Pc, f': Run, pc': Pc) returns (e': seq<State>)
    requires |e| > 0 && Execution(e) && HoldsRun(Last(e), t, id, pc) && OnlyStart(Last(e), t)
    requires LocalStep(id, Last(e).epoch, Last(e).runs[id], pc, f', pc')
    ensures |e'| > 0 && e <= e' && Execution(e') && HoldsRun(Last(e'), t, id, pc') && OnlyStart(Last(e'), t)
    ensures Last(e').runs[id] == f' && Last(e').epoch == Last(e).epoch
  {
    hide Execution, LocalStep;
    e' := MoveOn(e, t, id, pc, f', pc');
  }

  /** A run that waits to be started can be. */
  lemma CanStart(e: seq<State>, id: RunId) returns (e': seq<State>, t: Tid)
    requires |e| > 0 && Execution(e) && Last(e).phase.Serving? && Last(e).drain.NotRequested? && Last(e).procs == map[]
    requires id in Last(e).runs && !Last(e).runs[id].locked && FromBoot(Last(e))
    ensures |e'| > 0 && e <= e' && Execution(e') && HoldsRun(Last(e'), t, id, Start(ReadTask))
    ensures OnlyStart(Last(e'), t)
    ensures Last(e').runs[id] == Last(e).runs[id].(locked := true, holder := t)
    ensures Last(e').epoch == Last(e).epoch
  {
    hide Execution, Step;
    var s := Last(e);
    t := s.nextTid;
    var s1 := With(s, Starting(id)).(starting := s.starting + {t});
    StartsOne(s, id);
    var e1 := Extend(e, StartRun(id), s1);
    LocksOne(s1, t);
    e' := Extend(e1, AcquireLock(t, true, true), Locked(s1, t, true));
  }

  /** What a boot leaves in memory. */
  predicate FromBoot(s: State) {
    s.starting == {} && s.running == map[] && s.finalizing == map[] && s.incomplete == {}
  }

  lemma StartsOne(s: State, id: RunId)
    requires s.phase.Serving? && s.drain.NotRequested? && s.procs == map[]
    ensures Step(s, StartRun(id), With(s, Starting(id)).(starting := s.starting + {s.nextTid}))
  {
    hide ServesLocal, ServesCreate, ServesFinal, ServesCancel, ServesShutdown;
  }

  lemma LocksOne(s: State, t: Tid)
    requires s.phase.Serving? && t in s.procs && s.procs[t].Starting?
    requires s.procs[t].run in s.runs && !s.runs[s.procs[t].run].locked
    ensures Step(s, AcquireLock(t, true, true), Locked(s, t, true))
  {
    hide Locked, ServesLocal, ServesCreate, ServesFinal, ServesCancel, ServesShutdown;
  }

  /** A start that finds its run QUEUED, and a store that does what it is asked, gets as far as the spawn. */
  lemma CanSpawn(e: seq<State>, t: Tid, id: RunId) returns (e': seq<State>)
    requires |e| > 0 && Execution(e) && HoldsRun(Last(e), t, id, Start(ReadTask)) && OnlyStart(Last(e), t)
    requires Last(e).runs[id].state == QUEUED
    ensures |e'| > 0 && e <= e' && Execution(e') && HoldsRun(Last(e'), t, id, Start(Spawn)) && OnlyStart(Last(e'), t)
    ensures Last(e').epoch == Last(e).epoch
    ensures Last(e').runs[id]
         == Last(e).runs[id].(state := PREPARING, claimedIn := Some(Last(e).epoch), gaveUp := false)
  {
    hide Execution;
    var f, epoch := Last(e).runs[id], Last(e).epoch;
    var g := f.(state := PREPARING, claimedIn := Some(epoch), gaveUp := false);
    ClaimsInSteps(id, epoch, f, g);
    hide LocalStep, HoldsRun, OnlyStart;
    e' := MovesOn(e, t, id, Start(ReadTask), f, Start(PrepareRead));
    e' := MovesOn(e', t, id, Start(PrepareRead), f, Start(PrepareWrite));
    e' := MovesOn(e', t, id, Start(PrepareWrite), g, Start(Workspace));
    e' := MovesOn(e', t, id, Start(Workspace), g, Start(Spawn));
  }

  lemma ClaimsInSteps(id: RunId, epoch: nat, f: Run, g: Run)
    requires f.state == QUEUED && g == f.(state := PREPARING, claimedIn := Some(epoch), gaveUp := false)
    ensures LocalStep(id, epoch, f, Start(ReadTask), f, Start(PrepareRead))
    ensures LocalStep(id, epoch, f, Start(PrepareRead), f, Start(PrepareWrite))
    ensures LocalStep(id, epoch, f, Start(PrepareWrite), g, Start(Workspace))
    ensures LocalStep(id, epoch, g, Start(Workspace), g, Start(Spawn))
  {
    assert WritesPreparing(epoch, f, Landed, g, Start(Workspace));
  }

  /** And has its process. */
  lemma CanLaunch(e: seq<State>, t: Tid, id: RunId) returns (e': seq<State>)
    requires |e| > 0 && Execution(e) && HoldsRun(Last(e), t, id, Start(ReadTask)) && OnlyStart(Last(e), t)
    requires Last(e).runs[id].state == QUEUED
    ensures |e'| > 0 && e <= e' && Execution(e') && OnlyStart(Last(e'), t) && Last(e').epoch == Last(e).epoch
    ensures HoldsRun(Last(e'), t, id, Start(RecordPid(|Last(e).runs[id].workers|)))
    ensures Last(e').runs[id]
         == WithWorker(Last(e).runs[id].(state := PREPARING, claimedIn := Some(Last(e).epoch), gaveUp := false),
                       Last(e).epoch)
  {
    hide Execution;
    e' := CanSpawn(e, t, id);
    var g := Last(e').runs[id];
    SpawnsInStep(id, Last(e').epoch, g);
    hide LocalStep, HoldsRun, OnlyStart;
    e' := MovesOn(e', t, id, Start(Spawn), WithWorker(g, Last(e').epoch), Start(RecordPid(|g.workers|)));
  }

  lemma SpawnsInStep(id: RunId, epoch: nat, g: Run)
    ensures LocalStep(id, epoch, g, Start(Spawn), WithWorker(g, epoch), Start(RecordPid(|g.workers|)))
  {
  }
}
