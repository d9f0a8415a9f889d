/** The invariant of `Daemon` is kept by every action; one lemma an action, over three frame lemmas. */
module DaemonProofs {
  import opened Options
  import opened Runs
  import opened StateMachine
  import opened RunProtocol
  import opened Daemon

  // ---- frames --------------------------------------------------------------------

  /** Only run `id` and the coroutines `ts`, all of them about `id`, differ. */
  ghost predicate Touch(s: State, s': State, id: RunId, ts: set<Tid>) {
    && s.phase.Serving? && s'.phase.Serving? && s'.epoch == s.epoch
    && (forall u | u in s.procs && u !in ts :: u in s'.procs && s'.procs[u] == s.procs[u])
    && (forall u | u in s'.procs && u !in ts :: u in s.procs)
    && (forall u | u in ts && u in s.procs :: s.procs[u].run == id)
    && (forall u | u in ts && u in s'.procs :: s'.procs[u].run == id)
    && (forall r | r in s.runs && r != id :: r in s'.runs && s'.runs[r] == s.runs[r])
    && (forall r | r in s'.runs && r != id :: r in s.runs)
  }

  /** No coroutine outside `ts` leases or creates run `id`. */
  ghost predicate Alone(s: State, id: RunId, ts: set<Tid>) {
    forall u | u in s.procs && u !in ts && s.procs[u].run == id :: !s.procs[u].Lease? && !s.procs[u].Creating?
  }

  /** The coroutines of `ts` meet their assertions in `s'`. */
  ghost predicate Placed(s': State, id: RunId, ts: set<Tid>) {
    && (id in s'.runs ==> FilesOk(s', id))
    && (forall u | u in ts && u in s'.procs && s'.procs[u].Lease? :: LeaseOk(s', u))
    && (forall u | u in ts && u in s'.procs && s'.procs[u].Creating? ::
          id in s'.runs && AtCreate(s'.runs[id], s'.procs[u].k)
          && forall v | v in s'.procs && v != u :: s'.procs[v].run != id)
  }

  lemma TouchKeepsRuns(s: State, s': State, id: RunId, ts: set<Tid>)
    requires LeasesOk(s) && RunsOk(s) && CreatesOk(s)
    requires Touch(s, s', id, ts) && Alone(s, id, ts) && Placed(s', id, ts)
    ensures LeasesOk(s') && RunsOk(s') && CreatesOk(s')
  {
    forall t | t in s'.procs && s'.procs[t].Lease? ensures LeaseOk(s', t) {
      if t !in ts {
        assert LeaseOk(s, t);
      }
    }
    forall r | r in s'.runs ensures FilesOk(s', r) {
      if r != id {
        assert FilesOk(s, r);
      }
    }
  }

  /** What the rest of the memory asks of the change at `ts`. */
  ghost predicate Fits(s: State, s': State, id: RunId, ts: set<Tid>) {
    && s'.drain == s.drain
    && (id in s.runs ==> id in s'.runs && Keeps(s.runs[id], s'.runs[id]))
    && (forall u | u in ts && u in s.procs && IsFinal(s.procs[u]) ::
          (u in s'.procs && IsFinal(s'.procs[u])) || (id in s'.runs && Decided(s'.runs[id])))
    && (forall u | u in ts && u in s'.procs && s'.procs[u].Cancelling? ::
          CancelOk(s', id, s'.procs[u].fin, s'.procs[u].q))
    && (forall u | u in ts && u in s'.procs && IsStart(s'.procs[u]) ::
          s.drain.NotRequested? || (u in s.procs && IsStart(s.procs[u])))
    && (forall u | u in ts && u in s'.procs && Unfinished(s'.procs[u]) ::
          s.drain.NotRequested? || s.drain.AwaitStarts? || (u in s.procs && Unfinished(s.procs[u])))
  }

  lemma TouchKeepsCancels(s: State, s': State, id: RunId, ts: set<Tid>)
    requires CancelsOk(s) && Touch(s, s', id, ts) && Fits(s, s', id, ts)
    requires forall a | a in s'.answers :: a in s.answers || AnswerOk(s', a)
    ensures CancelsOk(s')
  {
    forall t | t in s'.procs && s'.procs[t].Cancelling?
      ensures CancelOk(s', s'.procs[t].run, s'.procs[t].fin, s'.procs[t].q)
    {
      if t !in ts {
        assert CancelOk(s, s.procs[t].run, s.procs[t].fin, s.procs[t].q);
      }
    }
    forall a | a in s'.answers ensures AnswerOk(s', a) {
      if a in s.answers {
        assert AnswerOk(s, a);
      }
    }
  }

  lemma TouchKeepsDrain(s: State, s': State, id: RunId, ts: set<Tid>)
    requires DrainOk(s) && Touch(s, s', id, ts) && Fits(s, s', id, ts)
    ensures DrainOk(s')
  {
  }

  lemma QuietKeepsFiles(s: State, s': State, t: Tid, id: RunId)
    requires id in s.runs && FilesOk(s, id) && s'.epoch == s.epoch && s'.runs == s.runs
    requires forall u | u in s.procs && u != t :: u in s'.procs && s'.procs[u] == s.procs[u]
    requires t in s.procs ==> !s.procs[t].Lease?
    ensures FilesOk(s', id)
  {
  }

  lemma QuietKeepsLease(s: State, s': State, t: Tid)
    requires LeasesOk(s) && t in s.procs && s.procs[t].Lease? && s'.epoch == s.epoch && s'.runs == s.runs
    requires t in s'.procs && s'.procs[t] == s.procs[t]
    ensures LeaseOk(s', t)
  {
    assert LeaseOk(s, t);
  }

  lemma QuietKeepsAnswer(s: State, s': State, a: (RunId, RunState))
    requires s'.runs == s.runs && (AnswerOk(s, a) || AnswerOk(s', a))
    ensures AnswerOk(s', a)
  {
  }

  /** A step about a run that exists leaves the directories without state alone. */
  lemma TouchKeepsMakes(s: State, s': State, id: RunId, ts: set<Tid>)
    requires MakesOk(s) && Touch(s, s', id, ts) && s'.incomplete == s.incomplete && id in s.runs && id in s'.runs
    requires forall u | u in ts && u in s'.procs :: !s'.procs[u].Making?
    ensures MakesOk(s')
  {
  }

  /** So does one that writes no file, by a coroutine that makes no run. */
  lemma QuietKeepsMakes(s: State, s': State, t: Tid)
    requires MakesOk(s) && s'.incomplete == s.incomplete && s'.runs == s.runs
    requires forall u | u in s.procs && u != t :: u in s'.procs && s'.procs[u] == s.procs[u]
    requires forall u | u in s'.procs && u != t :: u in s.procs
    requires t in s'.procs ==> !s'.procs[t].Making?
    requires t in s'.procs ==> forall u | u in s.procs && s.procs[u].Making? :: s.procs[u].run != s'.procs[t].run
    ensures MakesOk(s')
  {
  }

  /** The common shape of a step of the serving daemon. */
  lemma MoveKeepsInv(s: State, s': State, id: RunId, ts: set<Tid>)
    requires Inv(s) && Touch(s, s', id, ts) && Alone(s, id, ts) && Placed(s', id, ts) && Fits(s, s', id, ts)
    requires forall a | a in s'.answers :: a in s.answers || AnswerOk(s', a)
    requires MemoryOk(s') && MakesOk(s')
    ensures Inv(s')
  {
    hide LeasesOk, RunsOk, CreatesOk, MakesOk, MemoryOk, CancelsOk, DrainOk, Alone, Placed, Fits, LeaseOk, FilesOk,
         AnswerOk;
    TouchKeepsRuns(s, s', id, ts);
    TouchKeepsCancels(s, s', id, ts);
    TouchKeepsDrain(s, s', id, ts);
  }

  /** A step that writes no file, by a coroutine that holds no lock. */
  lemma QuietKeepsInv(s: State, s': State, t: Tid)
    requires Inv(s) && s.phase.Serving? && s'.phase.Serving?
    requires s'.epoch == s.epoch && s'.runs == s.runs && s'.drain == s.drain
    requires forall u | u in s.procs && u != t :: u in s'.procs && s'.procs[u] == s.procs[u]
    requires forall u | u in s'.procs && u != t :: u in s.procs
    requires t in s.procs ==> !s.procs[t].Lease? && !s.procs[t].Creating?
    requires t in s'.procs ==> !s'.procs[t].Lease? && !s'.procs[t].Creating?
    requires t in s'.procs ==> forall u | u in s.procs && s.procs[u].Creating? :: s.procs[u].run != s'.procs[t].run
    requires t in s'.procs && s'.procs[t].Starting? ==> s.drain.NotRequested?
    requires t in s'.procs && s'.procs[t].Cancelling? ==>
               CancelOk(s', s'.procs[t].run, s'.procs[t].fin, s'.procs[t].q)
    requires forall a | a in s'.answers :: a in s.answers || AnswerOk(s', a)
    requires MemoryOk(s') && MakesOk(s')
    ensures Inv(s')
  {
    hide LeaseOk, FilesOk, AnswerOk, MemoryOk, MakesOk;
    forall u | u in s'.procs && s'.procs[u].Lease? ensures LeaseOk(s', u) {
      QuietKeepsLease(s, s', u);
    }
    forall r | r in s'.runs ensures FilesOk(s', r) {
      QuietKeepsFiles(s, s', t, r);
    }
    forall a | a in s'.answers ensures AnswerOk(s', a) {
      QuietKeepsAnswer(s, s', a);
    }
  }

  /** The memory after a step that leaves the three collections alone. */
  lemma TouchKeepsMemory(s: State, s': State, id: RunId, ts: set<Tid>)
    requires MemoryOk(s) && Touch(s, s', id, ts) && s.nextTid <= s'.nextTid
    requires s'.starting == s.starting && s'.running == s.running && s'.finalizing == s.finalizing
    requires forall u | u in ts && u in s'.procs ::
               && u < s'.nextTid
               && (IsStart(s'.procs[u]) ==> u in s.starting)
               && (Unfinished(s'.procs[u]) ==> u in s.procs && Unfinished(s.procs[u]))
    requires forall u | u in ts && u in s.procs && s.procs[u].Lease? && s.procs[u].pc.Final? ::
               !s.procs[u].pc.p.AwaitExit?
    ensures MemoryOk(s')
  {
  }

  lemma DrainAt(s: State, t: Tid)
    requires DrainOk(s) && t in s.procs
    ensures IsStart(s.procs[t]) ==> s.drain.NotRequested? || s.drain.AwaitStarts?
  {
  }

  /** The holder of a lock is alone with its run. */
  lemma HolderIsAlone(s: State, t: Tid, ts: set<Tid>)
    requires LeasesOk(s) && CreatesOk(s) && t in s.procs && s.procs[t].Lease? && t in ts
    ensures LeaseOk(s, t) && Alone(s, s.procs[t].run, ts)
  {
    assert LeaseOk(s, t);
    forall u | u in s.procs && u !in ts && s.procs[u].run == s.procs[t].run
      ensures !s.procs[u].Lease? && !s.procs[u].Creating?
    {
      assert s.procs[u].Lease? ==> LeaseOk(s, u);
    }
  }

  // ---- the lease holder ------------------------------------------------------------

  predicate Holds(s: State, t: Tid) {
    t in s.procs && s.procs[t].Lease? && s.procs[t].run in s.runs
  }

  lemma LocalPlaces(s: State, t: Tid, f: Run, pc: Pc, s': State)
    requires LeasesOk(s) && RunsOk(s) && Holds(s, t)
    requires LocalStep(s.procs[t].run, s.epoch, s.runs[s.procs[t].run], s.procs[t].pc, f, pc)
    requires s' == Put(Disk(s, s.procs[t].run, f), t, Lease(s.procs[t].run, pc))
    ensures LeaseOk(s', t) && FilesOk(s', s.procs[t].run)
    ensures Framed(s.epoch, s.runs[s.procs[t].run], s.procs[t].pc, f, pc)
    ensures !(s.procs[t].pc.Final? && (s.procs[t].pc.p.AwaitExit? || s.procs[t].pc.p.FinalUnlock?))
  {
    var id := s.procs[t].run;
    assert LeaseOk(s, t) && FilesOk(s, id);
    LocalStepOk(id, s.epoch, s.runs[id], s.procs[t].pc, f, pc);
  }

  lemma LocalTouches(s: State, t: Tid, f: Run, pc: Pc, s': State)
    requires s.phase.Serving? && Holds(s, t)
    requires s' == Put(Disk(s, s.procs[t].run, f), t, Lease(s.procs[t].run, pc))
    requires Framed(s.epoch, s.runs[s.procs[t].run], s.procs[t].pc, f, pc)
    requires !(s.procs[t].pc.Final? && (s.procs[t].pc.p.AwaitExit? || s.procs[t].pc.p.FinalUnlock?))
    ensures Touch(s, s', s.procs[t].run, {t}) && Fits(s, s', s.procs[t].run, {t})
    ensures LeaseOk(s', t) && FilesOk(s', s.procs[t].run) ==> Placed(s', s.procs[t].run, {t})
  {
    hide LeaseOk, FilesOk, Keeps, Fits;
    LocalFits(s, t, f, pc, s');
  }

  lemma LocalFits(s: State, t: Tid, f: Run, pc: Pc, s': State)
    requires Holds(s, t) && s' == Put(Disk(s, s.procs[t].run, f), t, Lease(s.procs[t].run, pc))
    requires Framed(s.epoch, s.runs[s.procs[t].run], s.procs[t].pc, f, pc)
    requires !(s.procs[t].pc.Final? && (s.procs[t].pc.p.AwaitExit? || s.procs[t].pc.p.FinalUnlock?))
    ensures Fits(s, s', s.procs[t].run, {t})
  {
    hide Keeps;
  }

  lemma LocalRemembers(s: State, t: Tid, f: Run, pc: Pc, s': State)
    requires MemoryOk(s) && Holds(s, t) && Touch(s, s', s.procs[t].run, {t})
    requires s' == Put(Disk(s, s.procs[t].run, f), t, Lease(s.procs[t].run, pc)) && RoleOf(pc) == RoleOf(s.procs[t].pc)
    requires !(s.procs[t].pc.Final? && (s.procs[t].pc.p.AwaitExit? || s.procs[t].pc.p.FinalUnlock?))
    ensures MemoryOk(s')
  {
    hide Touch;
    TouchKeepsMemory(s, s', s.procs[t].run, {t});
  }

  /** Any await of a lease holder, answered in any way. */
  lemma LocalKeepsInv(s: State, t: Tid, f: Run, pc: Pc, s': State)
    requires Inv(s) && s.phase.Serving? && Holds(s, t)
    requires LocalStep(s.procs[t].run, s.epoch, s.runs[s.procs[t].run], s.procs[t].pc, f, pc)
    requires s' == Put(Disk(s, s.procs[t].run, f), t, Lease(s.procs[t].run, pc))
    ensures Inv(s')
  {
    hide LeasesOk, RunsOk, CreatesOk, MakesOk, MemoryOk, CancelsOk, DrainOk, BootOk, LeaseOk, FilesOk,
         Alone, Placed, Fits, Touch, LocalStep, Keeps;
    HolderIsAlone(s, t, {t});
    LocalPlaces(s, t, f, pc, s');
    LocalTouches(s, t, f, pc, s');
    LocalRemembers(s, t, f, pc, s');
    TouchKeepsMakes(s, s', s.procs[t].run, {t});
    MoveKeepsInv(s, s', s.procs[t].run, {t});
  }

  lemma RegisterPlaces(s: State, t: Tid, s': State)
    requires LeasesOk(s) && RunsOk(s) && Registers(s, t) && s' == Registered(s, t) && s.nextTid !in s.procs
    ensures LeaseOk(s, t) && LeaseOk(s', s.nextTid) && FilesOk(s', s.procs[t].run)
  {
    assert LeaseOk(s, t) && FilesOk(s, s.procs[t].run);
  }

  lemma RegisterRemembers(s: State, t: Tid, s': State)
    requires LeasesOk(s) && MemoryOk(s) && Registers(s, t) && s' == Registered(s, t)
    ensures MemoryOk(s') && s.nextTid !in s.procs
  {
    forall u | u in s.procs && Unfinished(s.procs[u]) ensures s.procs[u].run != s.procs[t].run {
      assert LeaseOk(s, u) && LeaseOk(s, t);
    }
  }

  lemma RegisterTouches(s: State, t: Tid, s': State)
    requires s.phase.Serving? && Registers(s, t) && s' == Registered(s, t) && s.nextTid !in s.procs
    requires s.drain.NotRequested? || s.drain.AwaitStarts?
    ensures Touch(s, s', s.procs[t].run, {t, s.nextTid}) && Fits(s, s', s.procs[t].run, {t, s.nextTid})
    ensures s'.answers == s.answers
    ensures LeaseOk(s', s.nextTid) && FilesOk(s', s.procs[t].run) ==> Placed(s', s.procs[t].run, {t, s.nextTid})
  {
    hide LeaseOk, FilesOk;
  }

  /** The only handover of a lock: from a start to the finalisation it leaves behind. */
  lemma RegisterKeepsInv(s: State, t: Tid, s': State)
    requires Inv(s) && s.phase.Serving? && Registers(s, t) && s' == Registered(s, t)
    ensures Inv(s')
  {
    hide LeasesOk, RunsOk, CreatesOk, MakesOk, MemoryOk, CancelsOk, DrainOk, BootOk, LeaseOk, FilesOk,
         Alone, Placed, Fits, Touch;
    RegisterRemembers(s, t, s');
    RegisterPlaces(s, t, s');
    HolderIsAlone(s, t, {t, s.nextTid});
    DrainAt(s, t);
    RegisterTouches(s, t, s');
    TouchKeepsMakes(s, s', s.procs[t].run, {t, s.nextTid});
    MoveKeepsInv(s, s', s.procs[t].run, {t, s.nextTid});
  }

  lemma ReleasePlaces(s: State, t: Tid, locked: bool, s': State)
    requires LeasesOk(s) && RunsOk(s) && Holds(s, t)
    requires s.procs[t].pc == Start(StartUnlock) || s.procs[t].pc == Final(FinalUnlock)
    requires s' == Gone(Disk(s, s.procs[t].run, s.runs[s.procs[t].run].(locked := locked)), t)
    ensures FilesOk(s', s.procs[t].run)
    ensures Keeps(s.runs[s.procs[t].run], s'.runs[s.procs[t].run])
    ensures IsFinal(s.procs[t]) ==> Decided(s'.runs[s.procs[t].run])
  {
    assert LeaseOk(s, t) && FilesOk(s, s.procs[t].run);
  }

  /** A lock is given up only when nothing is owed to the run any more. */
  lemma ReleaseKeepsInv(s: State, t: Tid, locked: bool, s': State)
    requires Inv(s) && s.phase.Serving? && Holds(s, t)
    requires s.procs[t].pc == Start(StartUnlock) || s.procs[t].pc == Final(FinalUnlock)
    requires s' == Gone(Disk(s, s.procs[t].run, s.runs[s.procs[t].run].(locked := locked)), t)
    ensures Inv(s')
  {
    hide LeasesOk, RunsOk, CreatesOk, MakesOk, MemoryOk, CancelsOk, DrainOk, BootOk, LeaseOk, FilesOk, Alone;
    var id := s.procs[t].run;
    ReleasePlaces(s, t, locked, s');
    HolderIsAlone(s, t, {t});
    TouchKeepsMakes(s, s', id, {t});
    TouchKeepsMemory(s, s', id, {t});
    MoveKeepsInv(s, s', id, {t});
  }

  /** A finalisation moves on without touching the disk. */
  lemma FinalTouches(s: State, t: Tid, p: FinalPc, s': State)
    requires s.phase.Serving? && s'.phase.Serving? && s'.epoch == s.epoch && s'.drain == s.drain
    requires Holds(s, t) && Unfinished(s.procs[t])
    requires s'.runs == s.runs && s'.procs == s.procs[t := Lease(s.procs[t].run, Final(p))]
    ensures Touch(s, s', s.procs[t].run, {t}) && Fits(s, s', s.procs[t].run, {t})
    ensures LeaseOk(s', t) && FilesOk(s', s.procs[t].run) ==> Placed(s', s.procs[t].run, {t})
  {
    hide LeaseOk, FilesOk;
  }

  lemma FinalBeginPlaces(s: State, t: Tid, w: nat, o: Outcome, s': State)
    requires LeasesOk(s) && RunsOk(s) && MemoryOk(s) && Holds(s, t) && s.procs[t].pc == Final(AwaitExit(w))
    requires w < |s.runs[s.procs[t].run].workers| && s.runs[s.procs[t].run].workers[w].outcome == Some(o)
    requires s' == Put(s, t, Lease(s.procs[t].run, Final(DrainOutput(w, o)))).(running := s.running - {s.procs[t].run})
    ensures LeaseOk(s', t) && FilesOk(s', s.procs[t].run) && MemoryOk(s')
  {
    assert LeaseOk(s, t) && FilesOk(s, s.procs[t].run);
  }

  lemma FinalBeginKeepsInv(s: State, t: Tid, w: nat, o: Outcome, s': State)
    requires Inv(s) && s.phase.Serving? && Holds(s, t) && s.procs[t].pc == Final(AwaitExit(w))
    requires w < |s.runs[s.procs[t].run].workers| && s.runs[s.procs[t].run].workers[w].outcome == Some(o)
    requires s' == Put(s, t, Lease(s.procs[t].run, Final(DrainOutput(w, o)))).(running := s.running - {s.procs[t].run})
    ensures Inv(s')
  {
    hide LeasesOk, RunsOk, CreatesOk, MakesOk, MemoryOk, CancelsOk, DrainOk, BootOk, LeaseOk, FilesOk,
         Alone, Placed, Fits, Touch;
    HolderIsAlone(s, t, {t});
    FinalBeginPlaces(s, t, w, o, s');
    FinalTouches(s, t, DrainOutput(w, o), s');
    TouchKeepsMakes(s, s', s.procs[t].run, {t});
    MoveKeepsInv(s, s', s.procs[t].run, {t});
  }

  lemma ForgetPlaces(s: State, t: Tid, s': State)
    requires LeasesOk(s) && RunsOk(s) && Holds(s, t) && s.procs[t].pc == Final(Forget)
    requires s' == Put(s, t, Lease(s.procs[t].run, Final(FinalUnlock))).(finalizing := s.finalizing - {s.procs[t].run})
    ensures LeaseOk(s', t) && FilesOk(s', s.procs[t].run)
  {
    assert LeaseOk(s, t) && FilesOk(s, s.procs[t].run);
    hide LeasesOk, RunsOk, RunOk;
  }

  lemma ForgetRemembers(s: State, t: Tid, s': State)
    requires LeasesOk(s) && MemoryOk(s) && Holds(s, t) && s.procs[t].pc == Final(Forget)
    requires s' == Put(s, t, Lease(s.procs[t].run, Final(FinalUnlock))).(finalizing := s.finalizing - {s.procs[t].run})
    ensures MemoryOk(s')
  {
    hide RunOk, At;
    forall u | u in s.procs && u != t && Unfinished(s.procs[u]) ensures s.procs[u].run != s.procs[t].run {
      assert LeaseOk(s, u) && LeaseOk(s, t);
    }
    hide LeasesOk;
  }

  lemma ForgetKeepsInv(s: State, t: Tid, s': State)
    requires Inv(s) && s.phase.Serving? && Holds(s, t) && s.procs[t].pc == Final(Forget)
    requires s' == Put(s, t, Lease(s.procs[t].run, Final(FinalUnlock))).(finalizing := s.finalizing - {s.procs[t].run})
    ensures Inv(s')
  {
    hide LeasesOk, RunsOk, CreatesOk, MakesOk, MemoryOk, CancelsOk, DrainOk, BootOk, LeaseOk, FilesOk,
         Alone, Placed, Fits, Touch;
    HolderIsAlone(s, t, {t});
    ForgetPlaces(s, t, s');
    ForgetRemembers(s, t, s');
    FinalTouches(s, t, FinalUnlock, s');
    TouchKeepsMakes(s, s', s.procs[t].run, {t});
    MoveKeepsInv(s, s', s.procs[t].run, {t});
  }

  // ---- starting ----------------------------------------------------------------------

  lemma StartRunKeepsInv(s: State, id: RunId, s': State)
    requires Inv(s) && s.phase.Serving? && s.drain.NotRequested? && !BeingMade(s, id) && !BeingCreated(s, id)
    requires s' == With(s, Starting(id)).(starting := s.starting + {s.nextTid})
    ensures Inv(s')
  {
    forall u | u in s.procs && s.procs[u].Making? ensures s.procs[u].run != id {
      assert !StandsMaking(s, u, id);
    }
    QuietKeepsMakes(s, s', s.nextTid);
    hide LeasesOk, RunsOk, CreatesOk, MakesOk, CancelsOk, DrainOk, BootOk;
    QuietKeepsInv(s, s', s.nextTid);
  }

  lemma LockPlaces(s: State, t: Tid, told: bool, s': State)
    requires LeasesOk(s) && RunsOk(s) && CreatesOk(s) && MemoryOk(s) && s.phase.Serving?
    requires t in s.procs && s.procs[t].Starting? && s.procs[t].run in s.runs && !s.runs[s.procs[t].run].locked
    requires s' == Locked(s, t, told)
    ensures FilesOk(s', s.procs[t].run) && (told ==> LeaseOk(s', t))
    ensures MemoryOk(s') && Alone(s, s.procs[t].run, {t})
  {
    assert FilesOk(s, s.procs[t].run);
    forall u | u in s.procs && s.procs[u].Lease? ensures s.procs[u].run != s.procs[t].run {
      assert LeaseOk(s, u);
    }
  }

  lemma LockTouches(s: State, t: Tid, told: bool, s': State)
    requires s.phase.Serving?
    requires t in s.procs && s.procs[t].Starting? && s.procs[t].run in s.runs && !s.runs[s.procs[t].run].locked
    requires s' == Locked(s, t, told)
    ensures Touch(s, s', s.procs[t].run, {t}) && Fits(s, s', s.procs[t].run, {t}) && s'.answers == s.answers
    ensures FilesOk(s', s.procs[t].run) && (told ==> LeaseOk(s', t)) ==> Placed(s', s.procs[t].run, {t})
  {
    hide LeaseOk, FilesOk, Keeps, Fits;
    LockFits(s, t, told, s');
  }

  lemma LockFits(s: State, t: Tid, told: bool, s': State)
    requires t in s.procs && s.procs[t].Starting? && s.procs[t].run in s.runs && s' == Locked(s, t, told)
    ensures Fits(s, s', s.procs[t].run, {t})
  {
    var f := s.runs[s.procs[t].run];
    assert Keeps(f, f.(locked := true, holder := t));
    hide Keeps;
  }

  /** The lock file is created only where none is, and whoever is told so holds the run alone. */
  lemma LockKeepsInv(s: State, t: Tid, told: bool, s': State)
    requires Inv(s) && s.phase.Serving?
    requires t in s.procs && s.procs[t].Starting? && s.procs[t].run in s.runs && !s.runs[s.procs[t].run].locked
    requires s' == Locked(s, t, told)
    ensures Inv(s')
  {
    hide LeasesOk, RunsOk, CreatesOk, MakesOk, MemoryOk, CancelsOk, DrainOk, BootOk, LeaseOk, FilesOk,
         Alone, Placed, Fits, Touch;
    LockPlaces(s, t, told, s');
    LockTouches(s, t, told, s');
    TouchKeepsMakes(s, s', s.procs[t].run, {t});
    MoveKeepsInv(s, s', s.procs[t].run, {t});
  }

  lemma LockRefusedKeepsInv(s: State, t: Tid, s': State)
    requires Inv(s) && s.phase.Serving? && t in s.procs && s.procs[t].Starting? && s' == Gone(s, t)
    ensures Inv(s')
  {
    QuietKeepsMakes(s, s', t);
    hide LeasesOk, RunsOk, CreatesOk, MakesOk, CancelsOk, DrainOk, BootOk;
    QuietKeepsInv(s, s', t);
  }

  // ---- cancelling ---------------------------------------------------------------------

  /** A live handle always has a finalisation to wait for. */
  lemma CancelRunKeepsInv(s: State, id: RunId, s': State)
    requires Inv(s) && s.phase.Serving? && id in s.running
    requires s' == With(s, Cancelling(id, if id in s.finalizing then Some(s.finalizing[id]) else None, CancelExit))
    ensures Inv(s')
  {
    hide RunsOk, CancelsOk, DrainOk, BootOk;
    assert s.procs[s.finalizing[id]] == Lease(id, Final(AwaitExit(s.running[id])));
    assert LeaseOk(s, s.finalizing[id]);
    QuietKeepsMakes(s, s', s.nextTid);
    hide MakesOk;
    QuietKeepsInv(s, s', s.nextTid);
  }

  lemma CancelWaitKeepsInv(s: State, t: Tid, q: CancelPc, s': State)
    requires Inv(s) && s.phase.Serving? && t in s.procs && s.procs[t].Cancelling?
    requires q == CancelRead ==> s.procs[t].fin.Some? ==> s.procs[t].fin.value !in s.procs
    requires s' == Put(s, t, s.procs[t].(q := q))
    ensures Inv(s')
  {
    hide LeasesOk, RunsOk, DrainOk, BootOk;
    assert CancelOk(s, s.procs[t].run, s.procs[t].fin, s.procs[t].q);
    assert CancelOk(s', s.procs[t].run, s.procs[t].fin, q);
    QuietKeepsMakes(s, s', t);
    hide MakesOk;
    QuietKeepsInv(s, s', t);
  }

  lemma CancelAnswerKeepsInv(s: State, t: Tid, ok: bool, s': State)
    requires Inv(s) && s.phase.Serving? && t in s.procs && s.procs[t].Cancelling? && s.procs[t].q == CancelRead
    requires ok ==> s.procs[t].run in s.runs
    requires s' == if ok then Gone(s, t).(answers := s.answers + {(s.procs[t].run, s.runs[s.procs[t].run].state)})
                   else Gone(s, t)
    ensures Inv(s')
  {
    hide LeasesOk, RunsOk, CreatesOk, DrainOk, BootOk;
    assert CancelOk(s, s.procs[t].run, s.procs[t].fin, s.procs[t].q);
    QuietKeepsMakes(s, s', t);
    hide MakesOk;
    QuietKeepsInv(s, s', t);
  }

  // ---- creating ------------------------------------------------------------------------

  lemma NewRunOk(id: RunId, taskId: string, denied: bool)
    ensures RunOk(id, NewRun(taskId, denied)) && AtCreate(NewRun(taskId, denied), Audit)
    ensures NewRun(taskId, denied).claimedIn.None?
  {
  }

  /** A directory is made for an id nobody knows. */
  lemma MakeRunKeepsInv(s: State, id: RunId, taskId: string, denied: bool, ok: bool, s': State)
    requires Inv(s) && s.phase.Serving? && id !in s.runs && id !in s.incomplete && !Mentioned(s, id)
    requires var made := s.(incomplete := s.incomplete + {id});
             s' == if ok then With(made, Making(id, taskId, denied, WriteTask)) else made
    ensures Inv(s')
  {
    assert s.nextTid !in s.procs;
    MakeRunMakes(s, id, taskId, denied, ok, s');
    hide LeasesOk, RunsOk, CreatesOk, MakesOk, CancelsOk, DrainOk, BootOk;
    QuietKeepsInv(s, s', s.nextTid);
  }

  lemma MakeRunMakes(s: State, id: RunId, taskId: string, denied: bool, ok: bool, s': State)
    requires MakesOk(s) && s.nextTid !in s.procs && id !in s.runs && !Mentioned(s, id)
    requires var made := s.(incomplete := s.incomplete + {id});
             s' == if ok then With(made, Making(id, taskId, denied, WriteTask)) else made
    ensures MakesOk(s')
  {
  }

  lemma MakingMakes(s: State, t: Tid, next: Option<MakePc>, s': State)
    requires MakesOk(s) && t in s.procs && s.procs[t].Making?
    requires s' == if next.Some? then Put(s, t, s.procs[t].(m := next.value)) else Gone(s, t)
    ensures MakesOk(s')
  {
  }

  /** store.create goes on, or gives up and leaves the directory as it is. */
  lemma MakingKeepsInv(s: State, t: Tid, next: Option<MakePc>, s': State)
    requires Inv(s) && s.phase.Serving? && t in s.procs && s.procs[t].Making?
    requires s' == if next.Some? then Put(s, t, s.procs[t].(m := next.value)) else Gone(s, t)
    ensures Inv(s')
  {
    MakingMakes(s, t, next, s');
    hide MakesOk;
    forall u | u in s.procs && s.procs[u].Creating? ensures s.procs[u].run != s.procs[t].run {
    }
    hide LeasesOk, RunsOk, CreatesOk, MakesOk, CancelsOk, DrainOk, BootOk;
    QuietKeepsInv(s, s', t);
  }

  predicate Makes(s: State, t: Tid) {
    t in s.procs && s.procs[t].Making? && s.procs[t].m.WriteState?
  }

  /** The state is written, and with it the run is there. */
  lemma MakeStateKeepsInv(s: State, t: Tid, io: Io, s': State)
    requires Inv(s) && s.phase.Serving? && Makes(s, t) && s' == Made(s, t, io)
    ensures Inv(s')
  {
    if io.Lost? {
      MakingKeepsInv(s, t, None, s');
    } else {
      MadeTouches(s, t, io, s');
      MadeRemembers(s, t, io, s');
      MadePlaces(s, t, io, s');
      hide LeasesOk, RunsOk, CreatesOk, MakesOk, MemoryOk, CancelsOk, DrainOk, BootOk, Made, Touch, Alone, Placed, Fits;
      MoveKeepsInv(s, s', s.procs[t].run, {t});
    }
  }

  lemma MadeTouches(s: State, t: Tid, io: Io, s': State)
    requires MakesOk(s) && s.phase.Serving? && Makes(s, t) && s' == Made(s, t, io) && !io.Lost?
    ensures Touch(s, s', s.procs[t].run, {t}) && Fits(s, s', s.procs[t].run, {t}) && s'.answers == s.answers
  {
    hide NewRun, Keeps;
  }

  lemma MadeRemembers(s: State, t: Tid, io: Io, s': State)
    requires MakesOk(s) && MemoryOk(s) && s.phase.Serving?
    requires Makes(s, t) && s' == Made(s, t, io) && !io.Lost?
    ensures MemoryOk(s') && MakesOk(s') && Alone(s, s.procs[t].run, {t})
  {
    hide NewRun;
    assert MakesOk(s') && Alone(s, s.procs[t].run, {t}) by {
      hide MemoryOk;
    }
    hide MakesOk;
  }

  lemma MadePlaces(s: State, t: Tid, io: Io, s': State)
    requires MakesOk(s) && Makes(s, t) && s' == Made(s, t, io) && !io.Lost?
    ensures Placed(s', s.procs[t].run, {t})
  {
    NewRunOk(s.procs[t].run, s.procs[t].taskId, s.procs[t].denied);
    hide RunOk, AtCreate, NewRun;
    assert FilesOk(s', s.procs[t].run);
  }

  lemma CreateStepOk(id: RunId, epoch: nat, f: Run, k: CreatePc, f': Run, next: Option<CreatePc>)
    requires RunOk(id, f) && AtCreate(f, k) && CreateAnswered(id, f, k, f', next)
    ensures RunOk(id, f') && Keeps(f, f') && f'.claimedIn.None?
    ensures next.Some? ==> AtCreate(f', next.value)
  {
  }

  lemma CreateStepTouches(s: State, t: Tid, f: Run, next: Option<CreatePc>, s': State)
    requires s.phase.Serving?
    requires t in s.procs && s.procs[t].Creating? && s.procs[t].run in s.runs && s' == Created(s, t, f, next)
    requires Keeps(s.runs[s.procs[t].run], f)
    ensures Touch(s, s', s.procs[t].run, {t}) && Fits(s, s', s.procs[t].run, {t}) && s'.answers == s.answers
  {
    hide RunOk, AtCreate, Keeps;
  }

  lemma CreateStepPlaces(s: State, t: Tid, f: Run, next: Option<CreatePc>, s': State)
    requires CreatesOk(s) && MemoryOk(s)
    requires t in s.procs && s.procs[t].Creating? && s.procs[t].run in s.runs && s' == Created(s, t, f, next)
    requires RunOk(s.procs[t].run, f) && f.claimedIn.None?
    requires next.Some? ==> AtCreate(f, next.value)
    ensures Placed(s', s.procs[t].run, {t}) && Alone(s, s.procs[t].run, {t}) && MemoryOk(s')
  {
    hide RunOk, AtCreate;
    assert FilesOk(s', s.procs[t].run);
  }

  lemma CreateStepKeepsInv(s: State, t: Tid, f: Run, next: Option<CreatePc>, s': State)
    requires Inv(s) && s.phase.Serving?
    requires t in s.procs && s.procs[t].Creating? && s.procs[t].run in s.runs && s' == Created(s, t, f, next)
    requires CreateAnswered(s.procs[t].run, s.runs[s.procs[t].run], s.procs[t].k, f, next)
    ensures Inv(s')
  {
    hide LeasesOk, MakesOk, MemoryOk, CancelsOk, DrainOk, BootOk, LeaseOk, Alone, Placed, Fits, Touch, RunOk, AtCreate,
         CreateAnswered, Keeps;
    assert FilesOk(s, s.procs[t].run);
    CreateStepOk(s.procs[t].run, s.epoch, s.runs[s.procs[t].run], s.procs[t].k, f, next);
    CreateStepTouches(s, t, f, next, s');
    CreateStepPlaces(s, t, f, next, s');
    TouchKeepsMakes(s, s', s.procs[t].run, {t});
    MoveKeepsInv(s, s', s.procs[t].run, {t});
  }

  // ---- worker exits, crashes, boot, shutdown ------------------------------------------------

  lemma ExitKeepsLeases(s: State, id: RunId, w: nat, o: Outcome, s': State)
    requires LeasesOk(s) && RunsOk(s)
    requires id in s.runs && w < |s.runs[id].workers| && s.runs[id].workers[w].outcome.None?
    requires s' == Disk(s, id, Exit(s.runs[id], w, o))
    ensures LeasesOk(s') && RunsOk(s')
  {
    hide Good, RunOk;
    forall u | u in s'.procs && s'.procs[u].Lease? ensures LeaseOk(s', u) {
      assert LeaseOk(s, u);
      ExitKeepsGood(id, s.epoch, s.runs[id], s.procs[u].pc, w, o);
    }
    forall r | r in s'.runs ensures FilesOk(s', r) {
      assert FilesOk(s, r);
      ExitKeepsGood(id, s.epoch, s.runs[id], Start(ReadTask), w, o);
    }
  }

  lemma ExitKeepsCancels(s: State, id: RunId, w: nat, o: Outcome, s': State)
    requires CancelsOk(s)
    requires id in s.runs && w < |s.runs[id].workers| && s.runs[id].workers[w].outcome.None?
    requires s' == Disk(s, id, Exit(s.runs[id], w, o))
    ensures CancelsOk(s')
  {
    forall u | u in s'.procs && s'.procs[u].Cancelling?
      ensures CancelOk(s', s'.procs[u].run, s'.procs[u].fin, s'.procs[u].q)
    {
      assert CancelOk(s, s.procs[u].run, s.procs[u].fin, s.procs[u].q);
    }
    forall a | a in s'.answers ensures AnswerOk(s', a) { assert AnswerOk(s, a); }
  }

  /** A worker exits whenever it likes, in any phase of the daemon. */
  lemma WorkerExitKeepsInv(s: State, id: RunId, w: nat, o: Outcome, s': State)
    requires Inv(s) && id in s.runs && w < |s.runs[id].workers| && s.runs[id].workers[w].outcome.None?
    requires s' == Disk(s, id, Exit(s.runs[id], w, o))
    ensures Inv(s')
  {
    hide LeasesOk, RunsOk, CancelsOk;
    ExitKeepsLeases(s, id, w, o, s');
    ExitKeepsCancels(s, id, w, o, s');
  }

  lemma CrashKeepsInv(s: State, s': State)
    requires Inv(s) && Step(s, Crash, s')
    ensures Inv(s')
  {
    hide RunOk;
    forall r | r in s'.runs ensures FilesOk(s', r) { assert FilesOk(s, r); }
    forall a | a in s'.answers ensures AnswerOk(s', a) { assert AnswerOk(s, a); }
  }

  lemma RecoversOk(id: RunId, f: Run, f': Run, fault: bool)
    requires RunOk(id, f) && Recovers(f, f', fault)
    ensures RunOk(id, f') && f'.claimedIn == f.claimedIn && f'.gaveUp == f.gaveUp
    ensures IsTerminal(f.state) ==> f'.state == f.state
    ensures !fault ==> Recovered(f')
  {
  }

  lemma BootRunKeepsInv(s: State, id: RunId, f: Run, fault: bool, s': State)
    requires Inv(s) && s.phase.Booting? && id in s.phase.todo && id in s.runs && Recovers(s.runs[id], f, fault)
    requires s' == Disk(s, id, f).(phase := Booting(s.phase.todo - {id}, s.phase.failed || fault))
    ensures Inv(s')
  {
    hide RunOk, Recovers, Recovered;
    assert FilesOk(s, id);
    RecoversOk(id, s.runs[id], f, fault);
    forall r | r in s'.runs ensures FilesOk(s', r) { assert FilesOk(s, r); }
    BootKeepsAnswers(s, id, f, s');
    hide CancelsOk, FilesOk;
  }

  lemma BootKeepsAnswers(s: State, id: RunId, f: Run, s': State)
    requires CancelsOk(s) && s.procs == map[] == s'.procs && s'.answers == s.answers
    requires id in s.runs && s'.runs == s.runs[id := f]
    requires f.claimedIn == s.runs[id].claimedIn && f.gaveUp == s.runs[id].gaveUp
    requires IsTerminal(s.runs[id].state) ==> f.state == s.runs[id].state
    ensures CancelsOk(s')
  {
    forall a | a in s'.answers ensures AnswerOk(s', a) {
      assert AnswerOk(s, a);
    }
  }

  /** Two states that agree on the disk, the coroutines and the answers. */
  predicate SameRuns(s: State, s': State) {
    && s'.runs == s.runs && s'.incomplete == s.incomplete && s'.epoch == s.epoch
    && s'.procs == s.procs && s'.answers == s.answers
  }

  lemma SameRunsKeeps(s: State, s': State)
    requires LeasesOk(s) && RunsOk(s) && CreatesOk(s) && MakesOk(s) && CancelsOk(s) && SameRuns(s, s')
    ensures LeasesOk(s') && RunsOk(s') && CreatesOk(s') && MakesOk(s') && CancelsOk(s')
  {
    hide RunOk, Good;
    forall r | r in s'.runs ensures FilesOk(s', r) { assert FilesOk(s, r); }
    forall u | u in s'.procs && s'.procs[u].Lease? ensures LeaseOk(s', u) { assert LeaseOk(s, u); }
    forall b | b in s'.answers ensures AnswerOk(s', b) { assert AnswerOk(s, b); }
  }

  lemma BootEdgeKeepsInv(s: State, a: Action, s': State)
    requires Inv(s) && Step(s, a, s') && (a.BootIncomplete? || a.BootFail? || a.Serve?)
    ensures Inv(s')
  {
    hide LeasesOk, RunsOk, CreatesOk, MakesOk, CancelsOk;
    SameRunsKeeps(s, s');
  }

  /** The three steps of `shutdown`, and a settled start leaving the set. */
  lemma ShutdownKeepsInv(s: State, a: Action, s': State)
    requires Inv(s) && s.phase.Serving? && Serves(s, a, s')
    requires a.Shutdown? || a.StartsDrained? || a.FinalsDrained? || a.SettleStart?
    ensures Inv(s')
  {
    hide LeasesOk, RunsOk, CreatesOk, MakesOk, CancelsOk;
    SameRunsKeeps(s, s');
  }

  // ---- every step ---------------------------------------------------------------------------

  lemma HoldersServe(s: State, a: Action, s': State)
    requires Inv(s) && s.phase.Serving? && Serves(s, a, s')
    requires a.Local? || a.RegisterHandle? || a.ReleaseStart? || a.FinalBegin? || a.ForgetFinal? || a.ReleaseFinal?
    ensures Inv(s')
  {
    hide Inv, LocalStep;
    match a
    case Local(t, f, pc) => LocalKeepsInv(s, t, f, pc, s');
    case RegisterHandle(t) => RegisterKeepsInv(s, t, s');
    case ReleaseStart(t, gone) => ReleaseKeepsInv(s, t, !gone, s');
    case FinalBegin(t) =>
      var w := s.procs[t].pc.p.worker;
      FinalBeginKeepsInv(s, t, w, s.runs[s.procs[t].run].workers[w].outcome.value, s');
    case ForgetFinal(t) => ForgetKeepsInv(s, t, s');
    case ReleaseFinal(t, gone) => ReleaseKeepsInv(s, t, !gone, s');
    case _ =>
  }

  lemma CallersServe(s: State, a: Action, s': State)
    requires Inv(s) && s.phase.Serving? && Serves(s, a, s')
    requires !(a.Local? || a.RegisterHandle? || a.ReleaseStart? || a.FinalBegin? || a.ForgetFinal? || a.ReleaseFinal?)
    ensures Inv(s')
  {
    hide Inv, CreateAnswered;
    match a
    case MakeRun(id, taskId, denied, ok) => MakeRunKeepsInv(s, id, taskId, denied, ok, s');
    case MakeStep(t, ok) => MakingKeepsInv(s, t, if ok then Some(NextMake(s.procs[t].m)) else None, s');
    case MakeState(t, io) => MakeStateKeepsInv(s, t, io, s');
    case CreateStep(t, f, next) => CreateStepKeepsInv(s, t, f, next, s');
    case StartRun(id) => StartRunKeepsInv(s, id, s');
    case AcquireLock(t, created, told) =>
      if created {
        LockKeepsInv(s, t, told, s');
      } else {
        LockRefusedKeepsInv(s, t, s');
      }
    case CancelRun(id) => CancelRunKeepsInv(s, id, s');
    case CancelSawExit(t) => CancelWaitKeepsInv(s, t, CancelFinal, s');
    case CancelSawFinal(t) => CancelWaitKeepsInv(s, t, CancelRead, s');
    case CancelAnswer(t, ok) => CancelAnswerKeepsInv(s, t, ok, s');
    case _ => ShutdownKeepsInv(s, a, s');
  }

  lemma StepKeepsInv(s: State, a: Action, s': State)
    requires Inv(s) && Step(s, a, s')
    ensures Inv(s')
  {
    hide Inv, Serves, Recovers;
    match a
    case Crash => CrashKeepsInv(s, s');
    case BootRun(id, f, fault) => BootRunKeepsInv(s, id, f, fault, s');
    case WorkerExit(id, w, o) => WorkerExitKeepsInv(s, id, w, o, s');
    case BootIncomplete(_) => BootEdgeKeepsInv(s, a, s');
    case BootFail => BootEdgeKeepsInv(s, a, s');
    case Serve => BootEdgeKeepsInv(s, a, s');
    case Local(_, _, _) | RegisterHandle(_) | ReleaseStart(_, _) | FinalBegin(_)
       | ForgetFinal(_) | ReleaseFinal(_, _) =>
      HoldersServe(s, a, s');
    case _ => CallersServe(s, a, s');
  }

  lemma InitInv(s: State)
    requires Init(s)
    ensures Inv(s)
  {
  }
}
