/** Runs that were never started: what a terminal state promises of them. */
module Denials {
  import opened Options
  import opened Runs
  import opened StateMachine
  import opened RunProtocol
  import opened Daemon
  import opened Steps
  import opened Lifecycle
  import opened Creations

  /** Some call of createTask has written FAILED for this run and not yet tried to write its result. */
  ghost predicate Halfway(s: State, id: RunId) {
    exists t :: HalfwayAt(s, t, id)
  }

  predicate HalfwayAt(s: State, t: Tid, id: RunId) {
    && t in s.procs && s.procs[t].Creating? && s.procs[t].run == id
    && (s.procs[t].k.DenyResultRead? || s.procs[t].k.DenyResultWrite?)
  }

  /** The store takes the denial's state and result, and says so of the state. */
  predicate Reliable(k: CreatePc, f': Run, next: Option<CreatePc>) {
    && (k.DenyWrite? && f'.state.FAILED? ==> next == Some(DenyResultRead))
    && (k.DenyResultWrite? ==> f'.result.Some?)
  }

  ghost predicate DenialStep(s: State, a: Action, s': State) {
    Step(s, a, s')
    && (a.CreateStep? && a.t in s.procs && s.procs[a.t].Creating? ==> Reliable(s.procs[a.t].k, a.f, a.next))
  }

  ghost predicate DenialNext(s: State, s': State) {
    exists a: Action :: DenialStep(s, a, s')
  }

  /** An execution, crashes included, in which the writes of a denial land or the daemon dies. */
  ghost predicate ReliableDenials(e: seq<State>) {
    Execution(e) && forall i :: 0 <= i < |e| - 1 ==> DenialNext(e[i], e[i + 1])
  }

  /** The call still stands there, or the daemon died there. */
  ghost predicate Interrupted(e: seq<State>, i: nat, id: RunId) {
    exists j :: InterruptedAt(e, i, j, id)
  }

  ghost predicate InterruptedAt(e: seq<State>, i: nat, j: int, id: RunId) {
    0 <= j <= i < |e| && Halfway(e[j], id) && (j == i || e[j].epoch != e[j + 1].epoch)
  }

  /** A run that is FAILED and has no result, and was never started. */
  predicate Bare(s: State, id: RunId) {
    id in s.runs && s.runs[id].claimedIn.None? && s.runs[id].state == FAILED && s.runs[id].result.None?
  }

  // ---- what steps do to a run nobody has claimed -------------------------------------------

  lemma UnclaimedLocal(id: RunId, epoch: nat, f: Run, pc: Pc, f': Run, pc': Pc)
    requires Good(id, epoch, f, pc) && LocalStep(id, epoch, f, pc, f', pc') && f'.claimedIn.None?
    ensures f' == f
  {
    HolderKeeps(id, epoch, f, pc, f', pc');
    UnclaimedIsEarly(id, epoch, f, pc);
    hide Good;
  }

  lemma UnclaimedIsEarly(id: RunId, epoch: nat, f: Run, pc: Pc)
    requires Good(id, epoch, f, pc) && f.claimedIn.None?
    ensures BeforeClaim(pc) || pc == Start(StartUnlock)
  {
    hide RunOk, Deserved;
  }

  predicate SameOutcome(f: Run, f': Run) {
    f'.state == f.state && f'.result == f.result
  }

  lemma RecoveryLeavesUnclaimed(id: RunId, f: Run, f': Run, fault: bool)
    requires RunOk(id, f) && f.claimedIn.None? && Recovers(f, f', fault)
    ensures SameOutcome(f, f')
  {
  }

  /** Only the call that creates a run gives it an outcome without claiming it. */
  lemma OnlyCreationDecidesUnclaimed(s: State, a: Action, s': State, id: RunId)
    requires Inv(s) && Step(s, a, s') && !CreatesThis(s, a, id)
    requires id in s.runs && s.runs[id].claimedIn.None? && id in s'.runs && s'.runs[id].claimedIn.None?
    ensures SameOutcome(s.runs[id], s'.runs[id])
  {
    hide Inv, Step, Recovers, Good, LocalStep, CreateAnswered, RunOk;
    RunsAreOk(s, id);
    var w := WhoWrites(s, a, s', id);
    var f, f' := s.runs[id], s'.runs[id];
    hide CreatesThis, IsTerminal;
    match w
    case Nobody =>
    case Exits(_, _) =>
    case Boot(fault) => RecoveryLeavesUnclaimed(id, f, f', fault);
    case Holder(t) => UnclaimedLocal(id, s.epoch, f, s.procs[t].pc, f', a.pc);
    case Creator(_) => assert false;
  }

  // ---- a missing result is an interrupted denial -------------------------------------------

  lemma DenialStepKeepsCause(e: seq<State>, i: nat, a: Action, id: RunId)
    requires i + 1 < |e| && Inv(e[i]) && DenialStep(e[i], a, e[i + 1])
    requires id in e[i].runs && Bare(e[i + 1], id) && e[i].runs[id].claimedIn.None?
    requires Bare(e[i], id) ==> Interrupted(e, i, id)
    ensures Interrupted(e, i + 1, id)
  {
    hide Inv, DenialStep, AtCreate, CreateAnswered, Created;
    var s, s' := e[i], e[i + 1];
    if CreatesThis(s, a, id) {
      CreatesAreOk(s, a.t);
      DenialGoesOn(s, a, s', id);
      assert InterruptedAt(e, i + 1, i + 1, id);
    } else {
      DenialIsStep(s, a, s');
      OnlyCreationDecidesUnclaimed(s, a, s', id);
      InterruptionStays(e, i, a, id);
    }
  }

  lemma InterruptionStays(e: seq<State>, i: nat, a: Action, id: RunId)
    requires i + 1 < |e| && Inv(e[i]) && Step(e[i], a, e[i + 1]) && !CreatesThis(e[i], a, id) && id in e[i].runs
    requires Interrupted(e, i, id)
    ensures Interrupted(e, i + 1, id)
  {
    hide Inv, Step, Halfway;
    var j :| InterruptedAt(e, i, j, id);
    if j < i {
      assert InterruptedAt(e, i + 1, j, id);
    } else {
      HalfwayStays(e[i], a, e[i + 1], id);
      if a.Crash? {
        assert InterruptedAt(e, i + 1, i, id);
      } else {
        assert InterruptedAt(e, i + 1, i + 1, id);
      }
    }
  }

  lemma HalfwayStays(s: State, a: Action, s': State, id: RunId)
    requires Inv(s) && Step(s, a, s') && Halfway(s, id) && !CreatesThis(s, a, id)
    ensures if a.Crash? then s'.epoch != s.epoch else Halfway(s', id)
  {
    hide Inv, Step;
    CrashIsNewEpoch(s, a, s');
    var t :| HalfwayAt(s, t, id);
    OnlyCreatorsStep(s, a, s', t);
    CreationsStay(s, a, s', t);
    if !a.Crash? {
      assert HalfwayAt(s', t, id);
    }
  }

  /** The creating call leaves its run without result only on its way to writing one. */
  lemma DenialGoesOn(s: State, a: Action, s': State, id: RunId)
    requires DenialStep(s, a, s') && CreatesThis(s, a, id) && Bare(s', id)
    requires id in s.runs && AtCreate(s.runs[id], s.procs[a.t].k)
    ensures Halfway(s', id)
  {
    hide Recovers, Serves, LocalStep;
    CreateStepServes(s, a, s');
    CreatesWhatIsCreating(s, a, s');
    var k := s.procs[a.t].k;
    assert k.DenyWrite? || k.DenyResultRead?;
    assert HalfwayAt(s', a.t, id);
  }

  lemma DenialIsStep(s: State, a: Action, s': State)
    requires DenialStep(s, a, s')
    ensures Step(s, a, s')
  {
    hide Step;
  }

  lemma {:induction false} BareIsInterrupted(e: seq<State>, i: nat, id: RunId)
    requires ReliableDenials(e) && i < |e| && Bare(e[i], id)
    ensures Interrupted(e, i, id)
  {
    hide Inv, Step, Interrupted, DenialStep;
    if i > 0 {
      assert DenialNext(e[i - 1], e[i - 1 + 1]);
      var a: Action :| DenialStep(e[i - 1], a, e[i]);
      InvariantHolds(e, i - 1);
      if id in e[i - 1].runs {
        OutcomesAreDurable(e, i - 1, i, id);
        if Bare(e[i - 1], id) {
          BareIsInterrupted(e, i - 1, id);
        }
        DenialStepKeepsCause(e, i - 1, a, id);
      } else {
        DenialIsStep(e[i - 1], a, e[i]);
        NewRunsAreMade(e[i - 1], a, e[i], id);
      }
    }
  }

  /** Once nobody creates it any more, such a run stays without result for ever. */
  lemma BareStep(s: State, a: Action, s': State, id: RunId)
    requires Inv(s) && Step(s, a, s') && Bare(s, id) && !BeingCreated(s, id)
    ensures Bare(s', id) && !BeingCreated(s', id)
  {
    hide Inv, Step, Keeps;
    StepKeeps(s, a, s', id);
    StaysUnclaimed(s, a, s', id);
    OnlyCreationDecidesUnclaimed(s, a, s', id);
    if t :| t in s'.procs && s'.procs[t].Creating? && s'.procs[t].run == id {
      NoNewCreation(s, a, s', id, t);
    }
  }

  /** FAILED, and never started. */
  predicate FailedUnclaimed(s: State, id: RunId) {
    id in s.runs && s.runs[id].claimedIn.None? && s.runs[id].state == FAILED
  }

  /** A FAILED run is claimed by nobody. */
  lemma StaysUnclaimed(s: State, a: Action, s': State, id: RunId)
    requires Inv(s) && Step(s, a, s') && FailedUnclaimed(s, id)
    ensures id in s'.runs && s'.runs[id].claimedIn.None?
  {
    hide Inv, Step, Recovers, Good, LocalStep, CreateAnswered;
    var w := WhoWrites(s, a, s', id);
    var f, f' := s.runs[id], s'.runs[id];
    match w
    case Nobody =>
    case Exits(_, _) =>
    case Boot(fault) => RecoveryKeepsClaim(f, f', fault);
    case Holder(t) => FailedIsNotClaimed(id, s.epoch, f, s.procs[t].pc, f', a.pc);
    case Creator(t) => CreatingKeepsFlags(id, f, s.procs[t].k, f', a.next);
  }

  lemma RecoveryKeepsClaim(f: Run, f': Run, fault: bool)
    requires Recovers(f, f', fault)
    ensures f'.claimedIn == f.claimedIn
  {
  }

  lemma FailedIsNotClaimed(id: RunId, epoch: nat, f: Run, pc: Pc, f': Run, pc': Pc)
    requires Good(id, epoch, f, pc) && LocalStep(id, epoch, f, pc, f', pc') && f.claimedIn.None? && f.state == FAILED
    ensures f'.claimedIn.None?
  {
    UnclaimedIsEarly(id, epoch, f, pc);
    OnlyQueuedIsClaimed(id, epoch, f, pc);
    hide Good;
  }

  lemma OnlyQueuedIsClaimed(id: RunId, epoch: nat, f: Run, pc: Pc)
    requires Good(id, epoch, f, pc)
    ensures pc == Start(PrepareWrite) ==> f.state == QUEUED
  {
    hide RunOk;
  }

  lemma {:induction false} BareStays(e: seq<State>, j: nat, i: nat, id: RunId)
    requires Execution(e) && j <= i < |e| && Bare(e[j], id) && !BeingCreated(e[j], id)
    ensures Bare(e[i], id) && !BeingCreated(e[i], id)
  {
    hide Inv, Step, Bare, BeingCreated;
    if j < i {
      BareStays(e, j, i - 1, id);
      InvariantHolds(e, i - 1);
      assert Next(e[i - 1], e[i - 1 + 1]);
      var a: Action :| Step(e[i - 1], a, e[i]);
      BareStep(e[i - 1], a, e[i], id);
    }
  }

  /** Once FAILED is on disk, a run that was never started never is: not in this incarnation, nor in a later one. */
  lemma {:induction false} FailedIsNeverStarted(e: seq<State>, j: nat, i: nat, id: RunId)
    requires Execution(e) && j <= i < |e| && FailedUnclaimed(e[j], id)
    ensures FailedUnclaimed(e[i], id) && e[i].runs[id].workers == []
  {
    hide Inv, Step;
    InvariantHolds(e, i);
    if j < i {
      FailedIsNeverStarted(e, j, i - 1, id);
      InvariantHolds(e, i - 1);
      assert Next(e[i - 1], e[i - 1 + 1]);
      var a: Action :| Step(e[i - 1], a, e[i]);
      OutcomesAreDurable(e, i - 1, i, id);
      StaysUnclaimed(e[i - 1], a, e[i], id);
    }
    RunsAreOk(e[i], id);
  }

  lemma InterruptedIsBare(e: seq<State>, i: nat, id: RunId)
    requires Execution(e) && i < |e| && Interrupted(e, i, id)
    ensures Bare(e[i], id)
  {
    hide Inv, Step;
    var j: int :| InterruptedAt(e, i, j, id);
    var t :| HalfwayAt(e[j], t, id);
    InvariantHolds(e, j);
    CreatesAreOk(e[j], t);
    if j < i {
      assert Next(e[j], e[j + 1]);
      var a: Action :| Step(e[j], a, e[j + 1]);
      CrashIsNewEpoch(e[j], a, e[j + 1]);
      BareStays(e, j + 1, i, id);
    }
  }

  /** A run that was never started is terminal only because admission denied it. */
  lemma UnstartedTerminalIsDenied(e: seq<State>, i: nat, id: RunId)
    requires Execution(e) && i < |e| && id in e[i].runs
    requires e[i].runs[id].claimedIn.None? && IsTerminal(e[i].runs[id].state)
    ensures e[i].runs[id].denied && e[i].runs[id].state == FAILED
    ensures e[i].runs[id].created ==> e[i].runs[id].result.Some?
    ensures e[i].runs[id].result.Some? ==>
              e[i].runs[id].result.value == AgentResult(e[i].runs[id].taskId, id, Blocked)
  {
    InvariantHolds(e, i);
    RunsAreOk(e[i], id);
  }

  /**
   * If the writes of a denial land or the daemon dies, a denied run that is terminal misses its result
   * exactly if the daemon died, or the call still stands, between the state and the result.
   */
  lemma DeniedResultMissingIff(e: seq<State>, i: nat, id: RunId)
    requires ReliableDenials(e) && i < |e| && id in e[i].runs && e[i].runs[id].claimedIn.None?
    ensures IsTerminal(e[i].runs[id].state) && e[i].runs[id].result.None? <==> Interrupted(e, i, id)
  {
    hide Interrupted;
    if IsTerminal(e[i].runs[id].state) && e[i].runs[id].result.None? {
      UnstartedTerminalIsDenied(e, i, id);
      BareIsInterrupted(e, i, id);
    }
    if Interrupted(e, i, id) {
      InterruptedIsBare(e, i, id);
    }
  }

  /**
   * All runs together: if writes land or the daemon dies, a terminal run misses its result exactly if it
   * was denied and the daemon died, or the call still stands, between the state and the result.
   */
  lemma TerminalResultMissingIff(e: seq<State>, i: nat, id: RunId)
    requires ReliableExecution(e) && ReliableDenials(e) && i < |e| && id in e[i].runs && IsTerminal(e[i].runs[id].state)
    ensures e[i].runs[id].result.None? <==> e[i].runs[id].claimedIn.None? && Interrupted(e, i, id)
  {
    hide Interrupted;
    if e[i].runs[id].claimedIn.Some? {
      TerminalRunsHaveTheirResult(e, i, id);
    } else {
      DeniedResultMissingIff(e, i, id);
    }
  }
}
