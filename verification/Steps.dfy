/** What a step of the serving daemon leaves alone: everything but one run and the coroutines that act. */
module Steps {
  import opened Options
  import opened Runs
  import opened RunProtocol
  import opened Daemon

  /** A call of createTask, from the directory on. */
  predicate InCreation(p: Proc) {
    p.Making? || p.Creating?
  }

  /** A step such a call takes itself. */
  predicate StepsItself(a: Action, t: Tid) {
    (a.CreateStep? || a.MakeStep? || a.MakeState?) && a.t == t
  }

  /** A start that has launched its worker and not yet recorded it. */
  predicate AtRecord(p: Proc) {
    p.Lease? && p.pc.Start? && p.pc.s.RecordPid?
  }

  /** The coroutine that acts; a call that is only beginning is the next one. */
  function Actor(s: State, a: Action): Tid {
    match a
    case MakeStep(t, _) => t
    case MakeState(t, _) => t
    case CreateStep(t, _, _) => t
    case AcquireLock(t, _, _) => t
    case Local(t, _, _) => t
    case RegisterHandle(t) => t
    case ReleaseStart(t, _) => t
    case SettleStart(t) => t
    case FinalBegin(t) => t
    case ForgetFinal(t) => t
    case ReleaseFinal(t, _) => t
    case CancelSawExit(t) => t
    case CancelSawFinal(t) => t
    case CancelAnswer(t, _) => t
    case _ => s.nextTid
  }

  ghost predicate SameProcs(s: State, s': State, t: Tid) {
    forall u :: u != t && u != s.nextTid ==>
                  (u in s'.procs <==> u in s.procs) && (u in s.procs ==> s'.procs[u] == s.procs[u])
  }

  /** Only the lock of a run may have changed hands. */
  predicate SameButLock(f: Run, f': Run) {
    f' == f.(locked := f'.locked, holder := f'.holder)
  }

  ghost predicate SameRunsButLocks(s: State, s': State) {
    && (forall r :: r in s'.runs <==> r in s.runs)
    && (forall r :: r in s.runs ==> SameButLock(s.runs[r], s'.runs[r]))
  }

  ghost predicate SameRunsBut(s: State, s': State, id: RunId) {
    && (forall r :: r != id ==> (r in s'.runs <==> r in s.runs))
    && (forall r :: r != id && r in s.runs ==> s'.runs[r] == s.runs[r])
  }

  /** What acts is what was there, and createTask goes on by its own steps only. */
  ghost predicate ActsAlone(s: State, a: Action, s': State) {
    var t := Actor(s, a);
    && s'.epoch == s.epoch && s'.phase.Serving? && s.nextTid <= s'.nextTid
    && (s'.drain == s.drain || a.Shutdown? || a.StartsDrained? || a.FinalsDrained?)
    && SameProcs(s, s', t)
    && (t in s.procs && InCreation(s.procs[t]) && t != s.nextTid ==> StepsItself(a, t))
    && (t in s'.procs && t != s.nextTid ==> t in s.procs && s'.procs[t].run == s.procs[t].run)
    && (t in s'.procs && t != s.nextTid && InCreation(s'.procs[t]) ==> InCreation(s.procs[t]))
    && (t in s'.procs && t != s.nextTid && s'.procs[t].Making? ==> s.procs[t].Making?)
    && (t in s'.procs && t != s.nextTid && AtRecord(s'.procs[t]) ==> a.Local?)
    && (s.nextTid in s'.procs && s.nextTid !in s.procs ==>
          && !s'.procs[s.nextTid].Creating? && !AtRecord(s'.procs[s.nextTid])
          && (s'.procs[s.nextTid].Making? ==> a.MakeRun?))
    && (s'.incomplete == s.incomplete || a.MakeRun? || a.MakeState?)
  }

  lemma CreateActsAlone(s: State, a: Action, s': State)
    requires ServesCreate(s, a, s') && s.phase.Serving?
    ensures ActsAlone(s, a, s')
  {
    hide CreateAnswered, NewRun, Mentioned, Created, Made;
    if a.CreateStep? {
      CreatedActsAlone(s, a.t, a.f, a.next);
    } else if a.MakeState? {
      MadeActsAlone(s, a.t, a.io);
    }
  }

  lemma CreatedActsAlone(s: State, t: Tid, f: Run, next: Option<CreatePc>)
    requires s.phase.Serving? && t in s.procs && s.procs[t].Creating? && s.procs[t].run in s.runs
    ensures ActsAlone(s, CreateStep(t, f, next), Created(s, t, f, next))
  {
  }

  lemma MadeActsAlone(s: State, t: Tid, io: Io)
    requires s.phase.Serving? && t in s.procs && s.procs[t].Making?
    ensures ActsAlone(s, MakeState(t, io), Made(s, t, io))
  {
    hide NewRun;
  }

  lemma CreateWritesItsRun(s: State, a: Action, s': State)
    requires ServesCreate(s, a, s')
    ensures a.MakeRun? || a.MakeStep? ==> s'.runs == s.runs
    ensures a.MakeState? || a.CreateStep? ==> a.t in s.procs && SameRunsBut(s, s', s.procs[a.t].run)
  {
    hide CreateAnswered, NewRun, Mentioned;
  }

  lemma StartActsAlone(s: State, a: Action, s': State)
    requires ServesStart(s, a, s') && s.phase.Serving?
    ensures ActsAlone(s, a, s')
  {
    hide Locked, Registered;
    if a.RegisterHandle? {
      RegisterActsAlone(s, a.t);
    } else if a.AcquireLock? && a.created {
      LockActsAlone(s, a.t, a.told);
    }
  }

  lemma RegisterActsAlone(s: State, t: Tid)
    requires Registers(s, t) && s.phase.Serving?
    ensures ActsAlone(s, RegisterHandle(t), Registered(s, t))
  {
  }

  lemma LockActsAlone(s: State, t: Tid, told: bool)
    requires s.phase.Serving? && t in s.procs && s.procs[t].Starting? && s.procs[t].run in s.runs
    ensures ActsAlone(s, AcquireLock(t, true, told), Locked(s, t, told))
  {
  }

  lemma StartChangesLocks(s: State, a: Action, s': State)
    requires ServesStart(s, a, s')
    ensures SameRunsButLocks(s, s')
  {
    hide Locked, Registered, SameRunsButLocks;
    if a.RegisterHandle? {
      RegisteringChangesLock(s, a.t);
    } else if a.AcquireLock? && a.created {
      LockingChangesLock(s, a.t, a.told);
    } else if a.ReleaseStart? {
      RunChangesLock(s, s', s.procs[a.t].run);
    } else {
      NothingChanges(s, s');
    }
  }

  lemma NothingChanges(s: State, s': State)
    requires s'.runs == s.runs
    ensures SameRunsButLocks(s, s')
  {
  }

  lemma RunChangesLock(s: State, s': State, id: RunId)
    requires id in s.runs && id in s'.runs && s'.runs == s.runs[id := s'.runs[id]]
    requires SameButLock(s.runs[id], s'.runs[id])
    ensures SameRunsButLocks(s, s')
  {
  }

  lemma RegisteringChangesLock(s: State, t: Tid)
    requires Registers(s, t)
    ensures SameRunsButLocks(s, Registered(s, t))
  {
  }

  lemma LockingChangesLock(s: State, t: Tid, told: bool)
    requires t in s.procs && s.procs[t].run in s.runs
    ensures SameRunsButLocks(s, Locked(s, t, told))
  {
  }

  lemma FinalActsAlone(s: State, a: Action, s': State)
    requires ServesFinal(s, a, s') && s.phase.Serving?
    ensures ActsAlone(s, a, s')
  {
  }

  lemma FinalChangesLocks(s: State, a: Action, s': State)
    requires ServesFinal(s, a, s')
    ensures SameRunsButLocks(s, s')
  {
  }

  lemma CancelActsAlone(s: State, a: Action, s': State)
    requires ServesCancel(s, a, s') && s.phase.Serving?
    ensures ActsAlone(s, a, s') && s'.runs == s.runs
  {
  }

  lemma LocalActsAlone(s: State, a: Action, s': State)
    requires Serves(s, a, s') && s.phase.Serving? && a.Local?
    ensures ActsAlone(s, a, s') && a.t in s.procs && SameRunsBut(s, s', s.procs[a.t].run)
  {
    hide LocalStep;
  }

  /** The acting coroutine, and at most one that begins, differ; but for the two that write a run, so do only locks. */
  lemma ServesAlone(s: State, a: Action, s': State)
    requires Serves(s, a, s') && s.phase.Serving?
    ensures ActsAlone(s, a, s')
    ensures !a.Local? && !a.CreateStep? && !a.MakeState? ==> SameRunsButLocks(s, s')
    ensures a.Local? || a.CreateStep? || a.MakeState? ==> a.t in s.procs && SameRunsBut(s, s', s.procs[a.t].run)
  {
    hide ServesCreate, ServesStart, ServesFinal, ServesCancel, LocalStep, ActsAlone;
    if a.Local? {
      LocalActsAlone(s, a, s');
    } else if a.MakeRun? || a.MakeStep? || a.MakeState? || a.CreateStep? {
      CreateActsAlone(s, a, s');
      CreateWritesItsRun(s, a, s');
    } else if a.StartRun? || a.AcquireLock? || a.RegisterHandle? || a.ReleaseStart? || a.SettleStart? {
      StartActsAlone(s, a, s');
      StartChangesLocks(s, a, s');
    } else if a.FinalBegin? || a.ForgetFinal? || a.ReleaseFinal? {
      FinalActsAlone(s, a, s');
      FinalChangesLocks(s, a, s');
    } else if a.CancelRun? || a.CancelSawExit? || a.CancelSawFinal? || a.CancelAnswer? {
      CancelActsAlone(s, a, s');
    } else {
      ShutdownActsAlone(s, a, s');
    }
  }

  lemma ShutdownActsAlone(s: State, a: Action, s': State)
    requires ServesShutdown(s, a, s') && s.phase.Serving?
    ensures ActsAlone(s, a, s') && s'.runs == s.runs
  {
  }

  /** A run that exists is written only by its own holder and by the call that creates it. */
  lemma OthersKeep(s: State, a: Action, s': State, id: RunId)
    requires MakesOk(s) && Serves(s, a, s') && s.phase.Serving? && id in s.runs
    requires (a.Local? || a.CreateStep?) && a.t in s.procs ==> s.procs[a.t].run != id
    ensures id in s'.runs && SameButLock(s.runs[id], s'.runs[id])
  {
    hide Serves;
    ServesAlone(s, a, s');
    if a.MakeState? {
      MakesWhatIsMaking(s, a, s');
    }
  }

  lemma MakesWhatIsMaking(s: State, a: Action, s': State)
    requires Serves(s, a, s') && a.MakeState?
    ensures a.t in s.procs && s.procs[a.t].Making? && s' == Made(s, a.t, a.io)
  {
    hide Made;
  }

  lemma MakesWhatIsNew(s: State, a: Action, s': State)
    requires Serves(s, a, s') && a.MakeRun?
    ensures a.id !in s.runs && a.id !in s.incomplete && !Mentioned(s, a.id)
    ensures var made := s.(incomplete := s.incomplete + {a.id});
            s' == if a.ok then With(made, Making(a.id, a.taskId, a.denied, WriteTask)) else made
  {
    hide Mentioned;
  }

  lemma StepsWhatIsMaking(s: State, a: Action, s': State)
    requires Serves(s, a, s') && a.MakeStep?
    ensures a.t in s.procs && s.procs[a.t].Making?
    ensures if a.ok then a.t in s'.procs && s'.procs[a.t].Making? && s'.procs[a.t].run == s.procs[a.t].run
            else a.t !in s'.procs
  {
  }

  lemma CreatesWhatIsCreating(s: State, a: Action, s': State)
    requires Serves(s, a, s') && a.CreateStep?
    ensures a.t in s.procs && s.procs[a.t].Creating? && s.procs[a.t].run in s.runs
    ensures CreateAnswered(s.procs[a.t].run, s.runs[s.procs[a.t].run], s.procs[a.t].k, a.f, a.next)
    ensures s' == Created(s, a.t, a.f, a.next)
  {
    hide CreateAnswered, Created;
  }

  lemma MovesWhatHolds(s: State, a: Action, s': State)
    requires Serves(s, a, s') && a.Local?
    ensures a.t in s.procs && s.procs[a.t].Lease? && s.procs[a.t].run in s.runs
    ensures LocalStep(s.procs[a.t].run, s.epoch, s.runs[s.procs[a.t].run], s.procs[a.t].pc, a.f, a.pc)
    ensures s' == Put(Disk(s, s.procs[a.t].run, a.f), a.t, Lease(s.procs[a.t].run, a.pc))
  {
    hide LocalStep;
  }

  lemma StepServes(s: State, a: Action, s': State)
    requires Step(s, a, s') && s.phase.Serving? && !a.WorkerExit? && !a.Crash?
    ensures Serves(s, a, s')
  {
    hide Serves, Recovers;
  }
}
