/** Who writes a run: at any step one holder, the call that creates it, boot recovery, or nobody. */
module Creations {
  import opened Options
  import opened Runs
  import opened StateMachine
  import opened RunProtocol
  import opened Daemon
  import opened Steps
  import opened Lifecycle

  lemma RunsAreOk(s: State, id: RunId)
    requires Inv(s) && id in s.runs
    ensures RunOk(id, s.runs[id])
  {
    assert FilesOk(s, id);
  }

  lemma CreatesAreOk(s: State, t: Tid)
    requires Inv(s) && t in s.procs && s.procs[t].Creating?
    ensures s.procs[t].run in s.runs && AtCreate(s.runs[s.procs[t].run], s.procs[t].k)
    ensures forall u :: u in s.procs && u != t ==> s.procs[u].run != s.procs[t].run
  {
  }

  lemma MakesAreOk(s: State, t: Tid)
    requires Inv(s) && t in s.procs && s.procs[t].Making?
    ensures s.procs[t].run in s.incomplete && s.procs[t].run !in s.runs
    ensures forall u :: u in s.procs && u != t ==> s.procs[u].run != s.procs[t].run
  {
  }

  // ---- who writes a run ----------------------------------------------------------------------

  datatype Writer = Nobody | Exits(w: nat, outcome: Outcome) | Boot(fault: bool) | Holder(t: Tid) | Creator(t: Tid)

  ghost predicate WrittenBy(w: Writer, s: State, a: Action, s': State, id: RunId)
    requires id in s.runs && id in s'.runs
  {
    var f, f' := s.runs[id], s'.runs[id];
    match w
    case Nobody => SameButLock(f, f')
    case Exits(n, o) => n < |f.workers| && f' == Exit(f, n, o)
    case Boot(fault) => s.phase.Booting? && Recovers(f, f', fault)
    case Holder(t) =>
      && a.Local? && a.t == t && t in s.procs && s.procs[t].Lease? && s.procs[t].run == id
      && t in s'.procs && s'.procs[t] == Lease(id, a.pc)
      && Good(id, s.epoch, f, s.procs[t].pc) && LocalStep(id, s.epoch, f, s.procs[t].pc, f', a.pc)
    case Creator(t) =>
      && CreatesThis(s, a, id) && a.t == t && AtCreate(f, s.procs[t].k)
      && CreateAnswered(id, f, s.procs[t].k, f', a.next)
      && (a.next.None? ==> t !in s'.procs)
      && (a.next.Some? ==> t in s'.procs && s'.procs[t] == Creating(id, a.next.value))
  }

  /** The action is a step of the call that creates this run. */
  predicate CreatesThis(s: State, a: Action, id: RunId) {
    a.CreateStep? && a.t in s.procs && s.procs[a.t].Creating? && s.procs[a.t].run == id
  }

  lemma WhoWrites(s: State, a: Action, s': State, id: RunId) returns (w: Writer)
    requires Inv(s) && Step(s, a, s') && id in s.runs
    ensures id in s'.runs && WrittenBy(w, s, a, s', id)
    ensures CreatesThis(s, a, id) <==> w.Creator?
  {
    hide LeasesOk, RunsOk, CreatesOk, MemoryOk, CancelsOk, DrainOk, BootOk, MakesOk, Serves, Recovers, Exit, WrittenBy;
    if a.BootRun? {
      w := BootWrites(s, a, s', id);
    } else if a.WorkerExit? {
      w := ExitWrites(s, a, s', id);
    } else if s.phase.Serving? && !a.Crash? {
      w := ServingWrites(s, a, s', id);
    } else {
      assert s'.runs == s.runs;
      w := Nobody;
      assert WrittenBy(w, s, a, s', id) by {
        NobodyWrites(s, a, s', id);
      }
    }
  }

  lemma NobodyWrites(s: State, a: Action, s': State, id: RunId)
    requires id in s.runs && id in s'.runs && SameButLock(s.runs[id], s'.runs[id])
    ensures WrittenBy(Nobody, s, a, s', id)
  {
  }

  lemma BootWrites(s: State, a: Action, s': State, id: RunId) returns (w: Writer)
    requires Step(s, a, s') && id in s.runs && a.BootRun?
    ensures id in s'.runs && WrittenBy(w, s, a, s', id) && !w.Creator?
  {
    hide Recovers;
    w := if a.id == id then Boot(a.fault) else Nobody;
  }

  lemma ExitWrites(s: State, a: Action, s': State, id: RunId) returns (w: Writer)
    requires Step(s, a, s') && id in s.runs && a.WorkerExit?
    ensures id in s'.runs && WrittenBy(w, s, a, s', id) && !w.Creator?
  {
    hide Exit;
    w := if a.id == id then Exits(a.w, a.outcome) else Nobody;
  }

  lemma ServingWrites(s: State, a: Action, s': State, id: RunId) returns (w: Writer)
    requires Inv(s) && s.phase.Serving? && Step(s, a, s') && !a.Crash? && !a.WorkerExit? && id in s.runs
    ensures id in s'.runs && WrittenBy(w, s, a, s', id)
    ensures CreatesThis(s, a, id) <==> w.Creator?
  {
    hide LeasesOk, RunsOk, CreatesOk, MemoryOk, CancelsOk, DrainOk, BootOk, MakesOk, Serves, Recovers, Step, WrittenBy;
    StepServes(s, a, s');
    if a.Local? && a.t in s.procs && s.procs[a.t].run == id {
      HolderWrites(s, a, s');
      w := Holder(a.t);
    } else if CreatesThis(s, a, id) {
      CreatorWrites(s, a, s');
      w := Creator(a.t);
    } else {
      if a.CreateStep? {
        CreatesWhatIsCreating(s, a, s');
      }
      OthersKeep(s, a, s', id);
      NobodyWrites(s, a, s', id);
      w := Nobody;
    }
  }

  lemma HolderWrites(s: State, a: Action, s': State)
    requires LeasesOk(s) && Serves(s, a, s') && a.Local? && a.t in s.procs
    ensures s.procs[a.t].run in s.runs && s.procs[a.t].run in s'.runs
    ensures WrittenBy(Holder(a.t), s, a, s', s.procs[a.t].run)
  {
    hide Serves, LocalStep, Good;
    MovesWhatHolds(s, a, s');
    assert LeaseOk(s, a.t);
  }

  lemma CreatorWrites(s: State, a: Action, s': State)
    requires CreatesOk(s) && Serves(s, a, s') && a.CreateStep?
    ensures a.t in s.procs && s.procs[a.t].run in s.runs && s.procs[a.t].run in s'.runs
    ensures WrittenBy(Creator(a.t), s, a, s', s.procs[a.t].run)
  {
    hide Serves, CreateAnswered, AtCreate;
    CreatesWhatIsCreating(s, a, s');
  }

  // ---- the calls of createTask ---------------------------------------------------------------

  /** A call of createTask goes on only by its own steps, and ends otherwise only with the daemon. */
  lemma CreationsStay(s: State, a: Action, s': State, t: Tid)
    requires Inv(s) && Step(s, a, s') && t in s.procs && InCreation(s.procs[t]) && !StepsItself(a, t)
    ensures a.Crash? || (t in s'.procs && s'.procs[t] == s.procs[t])
  {
    hide LeasesOk, RunsOk, CreatesOk, MakesOk, CancelsOk, DrainOk, Serves, Recovers;
    if s.phase.Serving? && !a.WorkerExit? && !a.Crash? {
      assert t < s.nextTid;
      ServesAlone(s, a, s');
    }
  }

  /** Once the run exists, the call that creates it steps by CreateStep only. */
  lemma OnlyCreatorsStep(s: State, a: Action, s': State, t: Tid)
    requires Step(s, a, s') && t in s.procs && s.procs[t].Creating?
    ensures StepsItself(a, t) ==> CreatesThis(s, a, s.procs[t].run)
  {
    hide Serves, Recovers;
    if StepsItself(a, t) {
      CreateStepServes(s, a, s');
      hide ServesStart, ServesFinal, ServesCancel, ServesShutdown, LocalStep, CreateAnswered, Made, Created;
      if !a.CreateStep? {
        MakersMake(s, a, s');
      }
    }
  }

  lemma MakersMake(s: State, a: Action, s': State)
    requires Serves(s, a, s') && (a.MakeState? || a.MakeStep?)
    ensures a.t in s.procs && s.procs[a.t].Making?
  {
    hide Made;
  }

  /** No call starts creating a run that exists. */
  lemma NoNewCreation(s: State, a: Action, s': State, id: RunId, t: Tid)
    requires Inv(s) && Step(s, a, s') && id in s.runs && t in s'.procs && s'.procs[t].Creating? && s'.procs[t].run == id
    ensures t in s.procs && s.procs[t].Creating? && s.procs[t].run == id
  {
    hide LeasesOk, RunsOk, CreatesOk, CancelsOk, DrainOk, MakesOk, Serves, Recovers, ActsAlone;
    if s.phase.Serving? && !a.WorkerExit? && !a.Crash? {
      assert s.nextTid !in s.procs;
      hide MemoryOk;
      ServesAlone(s, a, s');
      AloneBeginsNoCreation(s, a, s', id, t);
    }
  }

  lemma AloneBeginsNoCreation(s: State, a: Action, s': State, id: RunId, t: Tid)
    requires MakesOk(s) && s.nextTid !in s.procs && ActsAlone(s, a, s')
    requires id in s.runs && t in s'.procs && s'.procs[t].Creating? && s'.procs[t].run == id
    ensures t in s.procs && s.procs[t].Creating? && s.procs[t].run == id
  {
  }

  lemma CrashIsNewEpoch(s: State, a: Action, s': State)
    requires Step(s, a, s')
    ensures a.Crash? <==> s'.epoch != s.epoch
    ensures a.Crash? ==> s'.runs == s.runs && s'.incomplete == s.incomplete && s'.procs == map[]
  {
    hide Recovers, Serves;
    if !a.Crash? && s.phase.Serving? && !a.WorkerExit? {
      ServesAlone(s, a, s');
    }
  }

  lemma CreateStepServes(s: State, a: Action, s': State)
    requires Step(s, a, s') && (a.CreateStep? || a.MakeState? || a.MakeStep?)
    ensures s.phase.Serving? && Serves(s, a, s')
  {
    hide Serves, Recovers;
  }

  /** A run comes into being only when the call that makes it writes its state. */
  lemma NewRunsAreMade(s: State, a: Action, s': State, id: RunId)
    requires Inv(s) && Step(s, a, s') && id !in s.runs && id in s'.runs
    ensures a.MakeState? && a.t in s.procs && s.procs[a.t].Making? && s.procs[a.t].run == id && !a.io.Lost?
    ensures s' == Made(s, a.t, a.io) && s'.runs[id] == NewRun(s.procs[a.t].taskId, s.procs[a.t].denied)
  {
    hide Inv, Serves, Recovers, NewRun;
    if s.phase.Serving? && !a.WorkerExit? && !a.Crash? {
      ServesAlone(s, a, s');
      if a.MakeState? {
        MakesWhatIsMaking(s, a, s');
      } else if a.Local? {
        MovesWhatHolds(s, a, s');
        hide LocalStep;
      } else if a.CreateStep? {
        CreatesWhatIsCreating(s, a, s');
        hide CreateAnswered;
      }
    }
  }

  // ---- along an execution ------------------------------------------------------------------

  /** What was not so at first and is so now has become so at some step. */
  lemma {:induction false} BecameTrue(e: seq<State>, i: nat, p: State -> bool) returns (j: nat)
    requires i < |e| && !p(e[0]) && p(e[i])
    ensures j < i && !p(e[j]) && p(e[j + 1])
  {
    if p(e[i - 1]) {
      j := BecameTrue(e, i - 1, p);
    } else {
      j := i - 1;
    }
  }

  /** What no step takes back stays. */
  lemma {:induction false} StaysTrue(e: seq<State>, j: nat, i: nat, p: State -> bool)
    requires j <= i < |e| && p(e[j])
    requires forall k :: 0 <= k < |e| - 1 && p(e[k]) ==> p(e[k + 1])
    ensures p(e[i])
  {
    if j < i {
      StaysTrue(e, j, i - 1, p);
      assert p(e[i - 1]) ==> p(e[i - 1 + 1]);
    }
  }

  lemma StepAt(e: seq<State>, i: nat) returns (a: Action)
    requires Execution(e) && i + 1 < |e|
    ensures Step(e[i], a, e[i + 1]) && Inv(e[i]) && Inv(e[i + 1])
  {
    hide Inv, Step;
    InvariantHolds(e, i);
    InvariantHolds(e, i + 1);
    assert Next(e[i], e[i + 1]);
    a :| Step(e[i], a, e[i + 1]);
  }
}
