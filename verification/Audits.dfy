/** Exactly when a worker runs without its policy decision on the log, and when a denied run can be started. */
module Audits {
  import opened Options
  import opened Runs
  import opened StateMachine
  import opened RunProtocol
  import opened Daemon
  import opened Steps
  import opened Lifecycle
  import opened Creations

  // ---- the audit record ------------------------------------------------------------------

  predicate Unaudited(s: State, id: RunId) {
    id in s.runs && !s.runs[id].audited
  }

  /** The call that creates the run is about to append its audit record. */
  predicate StandsAtAudit(s: State, t: Tid, id: RunId) {
    t in s.procs && s.procs[t] == Creating(id, Audit)
  }

  ghost predicate SomeStandsAtAudit(s: State, id: RunId) {
    exists t :: StandsAtAudit(s, t, id)
  }

  /** Unaudited, and no call left that would audit it. */
  ghost predicate Loose(s: State, id: RunId) {
    Unaudited(s, id) && !BeingCreated(s, id)
  }

  /** The call ends here before the audit record is on the log. */
  predicate LeavesUnaudited(s: State, s': State, t: Tid, id: RunId) {
    && t in s.procs && t !in s'.procs && s.procs[t].run == id
    && ((s.procs[t].Making? && s.procs[t].m.WriteState?) || (s.procs[t].Creating? && s.procs[t].k.Audit?))
    && Unaudited(s', id)
  }

  ghost predicate EndsUnaudited(s: State, s': State, id: RunId) {
    exists t :: LeavesUnaudited(s, s', t, id)
  }

  lemma HolderAuditsNothing(id: RunId, epoch: nat, f: Run, pc: Pc, f': Run, pc': Pc)
    requires LocalStep(id, epoch, f, pc, f', pc')
    ensures f'.audited == f.audited
  {
    hide LocalStep;
    HolderWritesInPlace(id, epoch, f, pc, f', pc');
  }

  lemma RecoveryAuditsNothing(f: Run, f': Run, fault: bool)
    requires Recovers(f, f', fault)
    ensures f'.audited == f.audited
  {
  }

  /** Only the call that creates a run audits it. */
  lemma OnlyCreatorAudits(s: State, a: Action, s': State, id: RunId)
    requires Inv(s) && Step(s, a, s') && id in s.runs && !CreatesThis(s, a, id)
    ensures id in s'.runs && s'.runs[id].audited == s.runs[id].audited
  {
    hide Inv, Step, Recovers, Good, LocalStep, CreateAnswered, CreatesThis;
    var w := WhoWrites(s, a, s', id);
    var f, f' := s.runs[id], s'.runs[id];
    match w
    case Nobody =>
    case Exits(_, _) =>
    case Boot(fault) => RecoveryAuditsNothing(f, f', fault);
    case Holder(t) => HolderAuditsNothing(id, s.epoch, f, s.procs[t].pc, f', a.pc);
    case Creator(_) => assert false;
  }

  lemma LooseStays(s: State, a: Action, s': State, id: RunId)
    requires Inv(s) && Step(s, a, s') && Loose(s, id)
    ensures Loose(s', id)
  {
    hide Inv, Step;
    assert !CreatesThis(s, a, id);
    OnlyCreatorAudits(s, a, s', id);
    if t :| t in s'.procs && s'.procs[t].Creating? && s'.procs[t].run == id {
      NoNewCreation(s, a, s', id, t);
    }
  }

  lemma UnauditedAtAudit(s: State, id: RunId)
    requires Inv(s) && Unaudited(s, id) && BeingCreated(s, id)
    ensures SomeStandsAtAudit(s, id)
  {
    hide Inv;
    var t :| t in s.procs && s.procs[t].Creating? && s.procs[t].run == id;
    CreatesAreOk(s, t);
    assert StandsAtAudit(s, t, id);
  }

  lemma AtAuditUnaudited(s: State, t: Tid, id: RunId)
    requires Inv(s) && StandsAtAudit(s, t, id)
    ensures Unaudited(s, id) && s.runs[id].claimedIn.None? && s.runs[id].workers == []
  {
    hide Inv;
    CreatesAreOk(s, t);
    RunsAreOk(s, id);
  }

  /** A run becomes loose only when its creating call ends before the audit record. */
  lemma BecomesLoose(s: State, a: Action, s': State, id: RunId)
    requires Inv(s) && Step(s, a, s') && !Loose(s, id) && Loose(s', id)
    ensures EndsUnaudited(s, s', id)
  {
    hide Inv, Step, BeingCreated;
    if id !in s.runs {
      NewRunsAreMade(s, a, s', id);
      MadeUntold(s, a, s', id);
    } else {
      var w := WhoWrites(s, a, s', id);
      StepKeeps(s, a, s', id);
      assert BeingCreated(s, id);
      UnauditedAtAudit(s, id);
      var t :| StandsAtAudit(s, t, id);
      AtAuditEnds(s, a, s', t, id);
    }
  }

  lemma MadeUntold(s: State, a: Action, s': State, id: RunId)
    requires a.MakeState? && a.t in s.procs && s.procs[a.t].Making? && s.procs[a.t].run == id && Step(s, a, s')
    requires s' == Made(s, a.t, a.io) && Loose(s', id) && !a.io.Lost?
    ensures EndsUnaudited(s, s', id)
  {
    hide Step, NewRun;
    if a.io.Landed? {
      MadeIsCreated(s, a.t);
    }
    MakesWhole(s, a, s');
    assert LeavesUnaudited(s, s', a.t, id);
  }

  lemma MadeIsCreated(s: State, t: Tid)
    requires t in s.procs && s.procs[t].Making?
    ensures BeingCreated(Made(s, t, Landed), s.procs[t].run)
  {
    hide NewRun;
    StillCreated(Made(s, t, Landed), t);
  }

  lemma MakesWhole(s: State, a: Action, s': State)
    requires Step(s, a, s') && a.MakeState?
    ensures a.t in s.procs && s.procs[a.t].Making? && s.procs[a.t].m.WriteState?
  {
    hide Recovers, Made;
  }

  lemma AtAuditEnds(s: State, a: Action, s': State, t: Tid, id: RunId)
    requires Inv(s) && Step(s, a, s') && StandsAtAudit(s, t, id) && Loose(s', id)
    ensures EndsUnaudited(s, s', id)
  {
    hide Inv, Step;
    OnlyCreatorsStep(s, a, s', t);
    CrashIsNewEpoch(s, a, s');
    CreatesAreOk(s, t);
    if StepsItself(a, t) {
      var w := WhoWrites(s, a, s', id);
    } else {
      CreationsStay(s, a, s', t);
    }
    if t in s'.procs {
      StillCreated(s', t);
    }
    assert LeavesUnaudited(s, s', t, id);
  }

  lemma StillCreated(s: State, t: Tid)
    requires t in s.procs && s.procs[t].Creating?
    ensures BeingCreated(s, s.procs[t].run)
  {
  }

  /** The one that ended was the only one. */
  lemma EndedIsLoose(s: State, a: Action, s': State, id: RunId)
    requires Inv(s) && Step(s, a, s') && EndsUnaudited(s, s', id)
    ensures Loose(s', id)
  {
    hide Inv, Step;
    var t :| LeavesUnaudited(s, s', t, id);
    EndedIsAlone(s, a, s', t);
  }

  /** When a call of createTask has ended, nobody creates its run any more. */
  lemma EndedIsAlone(s: State, a: Action, s': State, t: Tid)
    requires Inv(s) && Step(s, a, s') && t in s.procs && InCreation(s.procs[t]) && t !in s'.procs
    ensures !BeingCreated(s', s.procs[t].run)
  {
    hide Inv, Step;
    var id := s.procs[t].run;
    if u :| u in s'.procs && s'.procs[u].Creating? && s'.procs[u].run == id {
      if s.procs[t].Creating? {
        CreatesAreOk(s, t);
        NoNewCreation(s, a, s', id, u);
      } else {
        MakesAreOk(s, t);
        EndedMakingIsAlone(s, a, s', t, u);
      }
    }
  }

  lemma EndedMakingIsAlone(s: State, a: Action, s': State, t: Tid, u: Tid)
    requires Inv(s) && Step(s, a, s') && t in s.procs && s.procs[t].Making? && t !in s'.procs
    requires u in s'.procs && s'.procs[u].Creating?
    requires s.procs[t].run !in s.runs
    requires forall v :: v in s.procs && v != t ==> s.procs[v].run != s.procs[t].run
    ensures s'.procs[u].run != s.procs[t].run
  {
    hide LeasesOk, RunsOk, CreatesOk, MakesOk, CancelsOk, DrainOk, Serves, Recovers, ActsAlone;
    if s.phase.Serving? && !a.WorkerExit? && !a.Crash? {
      assert s.nextTid !in s.procs;
      hide MemoryOk;
      ServesAlone(s, a, s');
      AloneKeepsRun(s, a, s', u);
    }
  }

  lemma AloneKeepsRun(s: State, a: Action, s': State, u: Tid)
    requires s.nextTid !in s.procs && ActsAlone(s, a, s') && u in s'.procs && s'.procs[u].Creating?
    ensures u in s.procs && s.procs[u].run == s'.procs[u].run
  {
  }

  /** At some step before now the call ended before the audit record was on the log. */
  ghost predicate OnceEndedUnaudited(e: seq<State>, i: nat, id: RunId) {
    exists j :: EndedUnauditedAt(e, i, j, id)
  }

  ghost predicate EndedUnauditedAt(e: seq<State>, i: nat, j: int, id: RunId) {
    0 <= j < i < |e| && EndsUnaudited(e[j], e[j + 1], id)
  }

  lemma {:induction false} LooseFor(e: seq<State>, j: nat, i: nat, id: RunId)
    requires Execution(e) && j <= i < |e| && Loose(e[j], id)
    ensures Loose(e[i], id)
  {
    hide Inv, Step, Loose;
    if j < i {
      LooseFor(e, j, i - 1, id);
      var a := StepAt(e, i - 1);
      LooseStays(e[i - 1], a, e[i], id);
    }
  }

  lemma {:induction false} LooseSince(e: seq<State>, i: nat, id: RunId)
    requires Execution(e) && i < |e| && Loose(e[i], id)
    ensures OnceEndedUnaudited(e, i, id)
  {
    hide Inv, Step, Loose, EndsUnaudited;
    NothingLoose(e, id);
    if i > 0 && Loose(e[i - 1], id) {
      LooseSince(e, i - 1, id);
      var j :| EndedUnauditedAt(e, i - 1, j, id);
      assert EndedUnauditedAt(e, i, j, id);
    } else if i > 0 {
      var a := StepAt(e, i - 1);
      BecomesLoose(e[i - 1], a, e[i], id);
      assert EndedUnauditedAt(e, i, i - 1, id);
    }
  }

  lemma NothingLoose(e: seq<State>, id: RunId)
    requires Execution(e)
    ensures !Loose(e[0], id)
  {
  }

  /**
   * A run has no audit record exactly if the call that creates it still stands before the append, or ended
   * there: the daemon died, the append failed, or the state that made the run was told to have failed.
   */
  lemma UnauditedIff(e: seq<State>, i: nat, id: RunId)
    requires Execution(e) && i < |e| && id in e[i].runs
    ensures !e[i].runs[id].audited <==> SomeStandsAtAudit(e[i], id) || OnceEndedUnaudited(e, i, id)
  {
    hide Inv, Step, BeingCreated, EndsUnaudited;
    InvariantHolds(e, i);
    if Loose(e[i], id) {
      LooseSince(e, i, id);
    } else if Unaudited(e[i], id) {
      UnauditedAtAudit(e[i], id);
    }
    if t :| StandsAtAudit(e[i], t, id) {
      AtAuditUnaudited(e[i], t, id);
    }
    if j: int :| EndedUnauditedAt(e, i, j, id) {
      var a := StepAt(e, j);
      EndedIsLoose(e[j], a, e[j + 1], id);
      LooseFor(e, j + 1, i, id);
    }
  }

  // ---- when the append lands or the daemon dies --------------------------------------------------

  /** The append lands, and the state that makes the run is not told to have failed when it is there. */
  ghost predicate AuditStep(s: State, a: Action, s': State) {
    && Step(s, a, s')
    && (a.CreateStep? && a.t in s.procs && s.procs[a.t].Creating? && s.procs[a.t].k.Audit? ==> a.f.audited)
    && (a.MakeState? ==> !a.io.Unsure?)
  }

  ghost predicate AuditNext(s: State, s': State) {
    exists a: Action :: AuditStep(s, a, s')
  }

  ghost predicate ReliableAudits(e: seq<State>) {
    Execution(e) && forall i :: 0 <= i < |e| - 1 ==> AuditNext(e[i], e[i + 1])
  }

  /** The daemon died before now, with the call standing before the append. */
  ghost predicate OnceDiedAtAudit(e: seq<State>, i: nat, id: RunId) {
    exists j, t :: DiedAtAudit(e, i, j, t, id)
  }

  predicate DiedAtAudit(e: seq<State>, i: nat, j: int, t: Tid, id: RunId) {
    0 <= j < i < |e| && StandsAtAudit(e[j], t, id) && e[j].epoch != e[j + 1].epoch
  }

  lemma ReliableAuditIsStep(s: State, a: Action, s': State)
    requires AuditStep(s, a, s')
    ensures Step(s, a, s')
  {
    hide Step;
  }

  /** Only a death of the daemon ends such a call without the record. */
  lemma EndsUnauditedByCrash(s: State, a: Action, s': State, t: Tid, id: RunId)
    requires Inv(s) && AuditStep(s, a, s') && LeavesUnaudited(s, s', t, id)
    ensures StandsAtAudit(s, t, id) && s'.epoch != s.epoch
  {
    hide Inv, Step;
    ReliableAuditIsStep(s, a, s');
    CrashIsNewEpoch(s, a, s');
    if s.procs[t].Creating? {
      CreatesAreOk(s, t);
      OnlyCreatorsStep(s, a, s', t);
      if StepsItself(a, t) {
        CreatedAsSaid(s, a, s');
      } else {
        CreationsStay(s, a, s', t);
      }
    } else {
      MakesAreOk(s, t);
      if !a.Crash? {
        NewRunsAreMade(s, a, s', id);
      }
    }
  }

  lemma CreatedAsSaid(s: State, a: Action, s': State)
    requires Step(s, a, s') && a.CreateStep?
    ensures a.t in s.procs && s.procs[a.t].run in s'.runs && s'.runs[s.procs[a.t].run] == a.f
  {
    hide Serves, Recovers;
    CreateStepServes(s, a, s');
    CreatesWhatIsCreating(s, a, s');
    hide CreateAnswered;
  }

  lemma DiedIsLoose(e: seq<State>, i: nat, j: int, t: Tid, id: RunId)
    requires Execution(e) && DiedAtAudit(e, i, j, t, id)
    ensures Loose(e[i], id)
  {
    hide Inv, Step;
    var a := StepAt(e, j);
    CrashIsNewEpoch(e[j], a, e[j + 1]);
    AtAuditUnaudited(e[j], t, id);
    LooseFor(e, j + 1, i, id);
  }

  /** If the append lands or the daemon dies: exactly if the call still stands there, or the daemon died there. */
  lemma UnauditedByCrashIff(e: seq<State>, i: nat, id: RunId)
    requires ReliableAudits(e) && i < |e| && id in e[i].runs
    ensures !e[i].runs[id].audited <==> SomeStandsAtAudit(e[i], id) || OnceDiedAtAudit(e, i, id)
  {
    hide Inv, Step, EndsUnaudited, AuditStep, SomeStandsAtAudit, BeingCreated;
    UnauditedIff(e, i, id);
    if j: int :| EndedUnauditedAt(e, i, j, id) {
      InvariantHolds(e, j);
      assert AuditNext(e[j], e[j + 1]);
      var a: Action :| AuditStep(e[j], a, e[j + 1]);
      var t := SomeLeaves(e[j], e[j + 1], id);
      EndsUnauditedByCrash(e[j], a, e[j + 1], t, id);
      assert DiedAtAudit(e, i, j, t, id);
    }
    if j: int, t: Tid :| DiedAtAudit(e, i, j, t, id) {
      DiedIsLoose(e, i, j, t, id);
    }
  }

  lemma SomeLeaves(s: State, s': State, id: RunId) returns (t: Tid)
    requires EndsUnaudited(s, s', id)
    ensures LeavesUnaudited(s, s', t, id)
  {
    t :| LeavesUnaudited(s, s', t, id);
  }

  /**
   * The record precedes the worker but for this: if the append lands or the daemon dies, a run with a worker
   * has no audit record exactly if the daemon died while the call stood before the append.
   */
  lemma LaunchedUnauditedIff(e: seq<State>, i: nat, id: RunId)
    requires ReliableAudits(e) && i < |e| && id in e[i].runs && e[i].runs[id].workers != []
    ensures !e[i].runs[id].audited <==> OnceDiedAtAudit(e, i, id)
  {
    hide Inv, OnceDiedAtAudit, AuditNext;
    InvariantHolds(e, i);
    UnauditedByCrashIff(e, i, id);
    if t :| StandsAtAudit(e[i], t, id) {
      AtAuditUnaudited(e[i], t, id);
    }
  }
}
