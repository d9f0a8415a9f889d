/** Exactly when a process that was launched is not on record, so that no later incarnation can find it. */
module Launches {
  import opened Options
  import opened Runs
  import opened StateMachine
  import opened RunProtocol
  import opened Daemon
  import opened Steps
  import opened Lifecycle
  import opened Creations

  predicate Launched(s: State, id: RunId) {
    id in s.runs && s.runs[id].workers != []
  }

  predicate Unrecorded(s: State, id: RunId) {
    Launched(s, id) && !s.runs[id].pidRecorded
  }

  /** The start has its process and is about to record it. */
  predicate StandsAtRecord(s: State, t: Tid, id: RunId) {
    t in s.procs && AtRecord(s.procs[t]) && s.procs[t].run == id
  }

  ghost predicate SomeStandsAtRecord(s: State, id: RunId) {
    exists t :: StandsAtRecord(s, t, id)
  }

  /** Unrecorded, and no start left that would record it. */
  ghost predicate Forgotten(s: State, id: RunId) {
    Unrecorded(s, id) && !SomeStandsAtRecord(s, id)
  }

  predicate AtSpawn(p: Proc) {
    p.Lease? && p.pc == Start(Spawn)
  }

  /** From the spawn to the record the start fails here, and leaves a process that is not on record. */
  predicate LeavesUnrecorded(s: State, s': State, t: Tid, id: RunId) {
    && t in s.procs && s.procs[t].run == id && (AtSpawn(s.procs[t]) || AtRecord(s.procs[t]))
    && Unrecorded(s', id) && !StandsAtRecord(s', t, id)
  }

  ghost predicate EndsUnrecorded(s: State, s': State, id: RunId) {
    exists t :: LeavesUnrecorded(s, s', t, id)
  }

  // ---- the holder's side ---------------------------------------------------------------------

  lemma HolderAt(s: State, t: Tid, id: RunId)
    requires Inv(s) && t in s.procs && s.procs[t].Lease? && s.procs[t].run == id
    ensures id in s.runs && Good(id, s.epoch, s.runs[id], s.procs[t].pc)
    ensures forall u :: u in s.procs && s.procs[u].Lease? && s.procs[u].run == id ==> u == t
  {
    assert LeaseOk(s, t);
    forall u | u in s.procs && s.procs[u].Lease? && s.procs[u].run == id ensures u == t {
      assert LeaseOk(s, u);
    }
  }

  lemma AtSpawnOrRecord(id: RunId, epoch: nat, f: Run, pc: Pc)
    requires Good(id, epoch, f, pc)
    ensures pc == Start(Spawn) ==> f.workers == []
    ensures pc.Start? && pc.s.RecordPid? ==> f.workers != [] && !f.pidRecorded
  {
  }

  lemma LeadsToRecord(id: RunId, epoch: nat, f: Run, pc: Pc, f': Run, pc': Pc)
    requires LocalStep(id, epoch, f, pc, f', pc')
    ensures pc'.Start? && pc'.s.RecordPid? ==> pc == Start(Spawn)
  {
    hide CanTransition, WithWorker, Judge, Rule;
  }

  lemma RecoveryRecordsNothing(f: Run, f': Run, fault: bool)
    requires Recovers(f, f', fault)
    ensures f'.pidRecorded == f.pidRecorded && f'.workers == f.workers
  {
  }

  lemma CreationRecordsNothing(id: RunId, f: Run, k: CreatePc, f': Run, next: Option<CreatePc>)
    requires CreateAnswered(id, f, k, f', next)
    ensures f'.pidRecorded == f.pidRecorded && f'.workers == f.workers
  {
    match k
    case Audit =>
    case Mark =>
    case DenyRead =>
    case DenyWrite =>
    case DenyResultRead =>
    case DenyResultWrite =>
  }

  /** What gained its process was written at the spawn, and what gained its record behind it. */
  predicate LaunchedBy(w: Writer, s: State, f: Run, f': Run) {
    && ((f'.workers == []) != (f.workers == []) ==> w.Holder? && w.t in s.procs && AtSpawn(s.procs[w.t]))
    && (f'.pidRecorded != f.pidRecorded ==> w.Holder? && w.t in s.procs && AtRecord(s.procs[w.t]))
  }

  /** Only a start at the spawn gains a process, and only one behind it records it. */
  lemma OnlyStartRecords(s: State, a: Action, s': State, id: RunId) returns (w: Writer)
    requires Inv(s) && Step(s, a, s') && id in s.runs
    ensures id in s'.runs && WrittenBy(w, s, a, s', id)
    ensures LaunchedBy(w, s, s.runs[id], s'.runs[id])
  {
    hide Inv, Step, Recovers, Good, LocalStep, CreateAnswered;
    w := WhoWrites(s, a, s', id);
    var f, f' := s.runs[id], s'.runs[id];
    match w
    case Nobody =>
    case Exits(_, _) =>
    case Boot(fault) => RecoveryRecordsNothing(f, f', fault);
    case Holder(t) => HolderWritesInPlace(id, s.epoch, f, s.procs[t].pc, f', a.pc);
    case Creator(t) => CreationRecordsNothing(id, f, s.procs[t].k, f', a.next);
  }

  // ---- who stands before the record ----------------------------------------------------------

  /** A start comes to stand there only from the spawn. */
  lemma ComesToRecord(s: State, a: Action, s': State, t: Tid, id: RunId)
    requires Inv(s) && Step(s, a, s') && StandsAtRecord(s', t, id)
    ensures StandsAtRecord(s, t, id) || (t in s.procs && AtSpawn(s.procs[t]) && s.procs[t].run == id)
  {
    hide LeasesOk, RunsOk, CreatesOk, MakesOk, CancelsOk, DrainOk, Serves, Recovers, ActsAlone;
    if s.phase.Serving? && !a.WorkerExit? && !a.Crash? {
      assert s.nextTid !in s.procs;
      hide MemoryOk;
      ServesAlone(s, a, s');
      AloneAtRecord(s, a, s', t);
      if a.Local? {
        MovesWhatHolds(s, a, s');
        MovesToRecord(s, a);
        hide LocalStep;
      }
    }
  }

  lemma AloneAtRecord(s: State, a: Action, s': State, t: Tid)
    requires s.nextTid !in s.procs && ActsAlone(s, a, s') && t in s'.procs && AtRecord(s'.procs[t])
    ensures (a.Local? && a.t == t) || (t in s.procs && s.procs[t] == s'.procs[t])
  {
  }

  lemma MovesToRecord(s: State, a: Action)
    requires a.Local? && a.t in s.procs && s.procs[a.t].Lease? && s.procs[a.t].run in s.runs
    requires LocalStep(s.procs[a.t].run, s.epoch, s.runs[s.procs[a.t].run], s.procs[a.t].pc, a.f, a.pc)
    ensures a.pc.Start? && a.pc.s.RecordPid? ==> s.procs[a.t].pc == Start(Spawn)
  {
    hide LocalStep;
    LeadsToRecord(s.procs[a.t].run, s.epoch, s.runs[s.procs[a.t].run], s.procs[a.t].pc, a.f, a.pc);
  }

  lemma StandingIsUnrecorded(s: State, t: Tid, id: RunId)
    requires Inv(s) && StandsAtRecord(s, t, id)
    ensures Unrecorded(s, id)
  {
    hide Inv, Good;
    HolderAt(s, t, id);
    AtSpawnOrRecord(id, s.epoch, s.runs[id], s.procs[t].pc);
  }

  lemma SpawningHasNone(s: State, t: Tid, id: RunId)
    requires Inv(s) && t in s.procs && AtSpawn(s.procs[t]) && s.procs[t].run == id
    ensures id in s.runs && s.runs[id].workers == []
  {
    hide Inv, Good;
    HolderAt(s, t, id);
    AtSpawnOrRecord(id, s.epoch, s.runs[id], s.procs[t].pc);
  }

  lemma StandsSomewhere(s: State, t: Tid, id: RunId)
    requires StandsAtRecord(s, t, id)
    ensures SomeStandsAtRecord(s, id)
  {
  }

  lemma ForgottenStays(s: State, a: Action, s': State, id: RunId)
    requires Inv(s) && Step(s, a, s') && Forgotten(s, id)
    ensures Forgotten(s', id)
  {
    hide Inv, Step;
    var w := OnlyStartRecords(s, a, s', id);
    if w.Holder? && w.t in s.procs && AtRecord(s.procs[w.t]) {
      StandsSomewhere(s, w.t, id);
    } else if w.Holder? && w.t in s.procs && AtSpawn(s.procs[w.t]) {
      SpawningHasNone(s, w.t, id);
    }
    hide LocalStep, CreateAnswered, Recovers, Good, WrittenBy;
    if t :| StandsAtRecord(s', t, id) {
      ComesToRecord(s, a, s', t, id);
      if AtSpawn(s.procs[t]) {
        SpawningHasNone(s, t, id);
      }
    }
  }

  lemma BecomesForgotten(s: State, a: Action, s': State, id: RunId)
    requires Inv(s) && Step(s, a, s') && !Forgotten(s, id) && Forgotten(s', id)
    ensures EndsUnrecorded(s, s', id)
  {
    hide Inv, Step;
    if id !in s.runs {
      NewRunsAreMade(s, a, s', id);
    } else {
      var w := OnlyStartRecords(s, a, s', id);
      hide LocalStep, CreateAnswered, Recovers, Good;
      if s.runs[id].workers == [] {
        assert LeavesUnrecorded(s, s', w.t, id);
      } else {
        WasUnrecorded(s, a, s', id);
        var t :| StandsAtRecord(s, t, id);
        assert LeavesUnrecorded(s, s', t, id);
      }
    }
  }

  lemma WasUnrecorded(s: State, a: Action, s': State, id: RunId)
    requires Inv(s) && Step(s, a, s') && id in s.runs && id in s'.runs && !s'.runs[id].pidRecorded
    ensures !s.runs[id].pidRecorded
  {
    hide Inv, Step;
    StepKeeps(s, a, s', id);
  }

  /** The start that left was the only one. */
  lemma LeftIsForgotten(s: State, a: Action, s': State, id: RunId)
    requires Inv(s) && Step(s, a, s') && EndsUnrecorded(s, s', id)
    ensures Forgotten(s', id)
  {
    hide Inv, Step, Good;
    var t :| LeavesUnrecorded(s, s', t, id);
    if u :| StandsAtRecord(s', u, id) {
      ComesToRecord(s, a, s', u, id);
      HolderAt(s, t, id);
    }
  }

  // ---- along an execution ----------------------------------------------------------------------

  ghost predicate OnceEndedUnrecorded(e: seq<State>, i: nat, id: RunId) {
    exists j :: EndedUnrecordedAt(e, i, j, id)
  }

  ghost predicate EndedUnrecordedAt(e: seq<State>, i: nat, j: int, id: RunId) {
    0 <= j < i < |e| && EndsUnrecorded(e[j], e[j + 1], id)
  }

  lemma {:induction false} ForgottenFor(e: seq<State>, j: nat, i: nat, id: RunId)
    requires Execution(e) && j <= i < |e| && Forgotten(e[j], id)
    ensures Forgotten(e[i], id)
  {
    hide Inv, Step, Forgotten;
    if j < i {
      ForgottenFor(e, j, i - 1, id);
      var a := StepAt(e, i - 1);
      ForgottenStays(e[i - 1], a, e[i], id);
    }
  }

  lemma {:induction false} ForgottenSince(e: seq<State>, i: nat, id: RunId)
    requires Execution(e) && i < |e| && Forgotten(e[i], id)
    ensures OnceEndedUnrecorded(e, i, id)
  {
    hide Inv, Step, Forgotten, EndsUnrecorded;
    NothingForgotten(e, id);
    if i > 0 && Forgotten(e[i - 1], id) {
      ForgottenSince(e, i - 1, id);
      var j :| EndedUnrecordedAt(e, i - 1, j, id);
      assert EndedUnrecordedAt(e, i, j, id);
    } else if i > 0 {
      var a := StepAt(e, i - 1);
      BecomesForgotten(e[i - 1], a, e[i], id);
      assert EndedUnrecordedAt(e, i, i - 1, id);
    }
  }

  lemma NothingForgotten(e: seq<State>, id: RunId)
    requires Execution(e)
    ensures !Forgotten(e[0], id)
  {
  }

  /**
   * A launched process is not on record exactly if its start still stands before the record, or ended between
   * the spawn and the record: the daemon died, the record failed, or the launch failed with a process left.
   */
  lemma UnrecordedIff(e: seq<State>, i: nat, id: RunId)
    requires Execution(e) && i < |e| && Launched(e[i], id)
    ensures !e[i].runs[id].pidRecorded <==> SomeStandsAtRecord(e[i], id) || OnceEndedUnrecorded(e, i, id)
  {
    hide Inv, Step, EndsUnrecorded, StandsAtRecord;
    InvariantHolds(e, i);
    if Forgotten(e[i], id) {
      ForgottenSince(e, i, id);
    }
    if t :| StandsAtRecord(e[i], t, id) {
      StandingIsUnrecorded(e[i], t, id);
    }
    if j: int :| EndedUnrecordedAt(e, i, j, id) {
      var a := StepAt(e, j);
      LeftIsForgotten(e[j], a, e[j + 1], id);
      ForgottenFor(e, j + 1, i, id);
    }
  }

  // ---- when the record lands or the daemon dies ------------------------------------------------------

  /** A launch that fails leaves no process, and the record of the process lands. */
  predicate LaunchAnswered(pc: Pc, f': Run, pc': Pc) {
    && (pc == Start(Spawn) && f'.workers != [] ==> pc'.Start? && pc'.s.RecordPid?)
    && (pc.Start? && pc.s.RecordPid? ==> f'.pidRecorded)
  }

  ghost predicate LaunchStep(s: State, a: Action, s': State) {
    Step(s, a, s') && (a.Local? && a.t in s.procs && s.procs[a.t].Lease? ==> LaunchAnswered(s.procs[a.t].pc, a.f, a.pc))
  }

  ghost predicate LaunchNext(s: State, s': State) {
    exists a: Action :: LaunchStep(s, a, s')
  }

  ghost predicate ReliableLaunches(e: seq<State>) {
    Execution(e) && forall i :: 0 <= i < |e| - 1 ==> LaunchNext(e[i], e[i + 1])
  }

  /** The daemon died before now, with the start standing before the record. */
  ghost predicate OnceDiedAtRecord(e: seq<State>, i: nat, id: RunId) {
    exists j, t :: DiedAtRecord(e, i, j, t, id)
  }

  predicate DiedAtRecord(e: seq<State>, i: nat, j: int, t: Tid, id: RunId) {
    0 <= j < i < |e| && StandsAtRecord(e[j], t, id) && e[j].epoch != e[j + 1].epoch
  }

  lemma LaunchIsStep(s: State, a: Action, s': State)
    requires LaunchStep(s, a, s')
    ensures Step(s, a, s')
  {
    hide Step;
  }

  /** A holder goes on by its own answers, and ends otherwise only with the daemon. */
  lemma HolderStays(s: State, a: Action, s': State, t: Tid)
    requires Inv(s) && Step(s, a, s') && t in s.procs && (AtSpawn(s.procs[t]) || AtRecord(s.procs[t]))
    requires !(a.Local? && a.t == t) && !a.Crash?
    ensures t in s'.procs && s'.procs[t] == s.procs[t]
  {
    hide LeasesOk, RunsOk, CreatesOk, MakesOk, CancelsOk, DrainOk, Serves, Recovers, ActsAlone;
    if s.phase.Serving? && !a.WorkerExit? {
      assert t < s.nextTid;
      hide MemoryOk;
      ServesAlone(s, a, s');
      if Actor(s, a) == t {
        HolderActsLocally(s, a, s', t);
      }
      AloneKeepsOthers(s, a, s', t);
    }
  }

  lemma AloneKeepsOthers(s: State, a: Action, s': State, t: Tid)
    requires ActsAlone(s, a, s') && t in s.procs && t != s.nextTid && Actor(s, a) != t
    ensures t in s'.procs && s'.procs[t] == s.procs[t]
  {
  }

  /** What a lease holder between the spawn and the record does is answer its await. */
  lemma HolderActsLocally(s: State, a: Action, s': State, t: Tid)
    requires Serves(s, a, s') && t in s.procs && t != s.nextTid && (AtSpawn(s.procs[t]) || AtRecord(s.procs[t]))
    requires Actor(s, a) == t
    ensures a.Local? && a.t == t
  {
    hide LocalStep, CreateAnswered, Made, Created, Locked, Registered, Gone, Put, Disk;
  }

  lemma LeavesByCrash(s: State, a: Action, s': State, t: Tid, id: RunId)
    requires Inv(s) && LaunchStep(s, a, s') && LeavesUnrecorded(s, s', t, id)
    ensures StandsAtRecord(s, t, id) && s'.epoch != s.epoch
  {
    hide Inv, Step, Good;
    LaunchIsStep(s, a, s');
    CrashIsNewEpoch(s, a, s');
    HolderAt(s, t, id);
    if AtSpawn(s.procs[t]) {
      SpawningHasNone(s, t, id);
    }
    if a.Local? && a.t == t {
      LocalAsSaid(s, a, s');
    } else {
      if !a.Crash? {
        HolderStays(s, a, s', t);
      }
      if AtSpawn(s.procs[t]) {
        OthersSpawnNothing(s, a, s', t, id);
      }
    }
  }

  lemma LocalAsSaid(s: State, a: Action, s': State)
    requires Step(s, a, s') && a.Local?
    ensures a.t in s.procs && s.procs[a.t].run in s'.runs && s'.runs[s.procs[a.t].run] == a.f
    ensures a.t in s'.procs && s'.procs[a.t] == Lease(s.procs[a.t].run, a.pc)
  {
    hide Serves, Recovers;
    StepServes(s, a, s');
    MovesWhatHolds(s, a, s');
    hide LocalStep;
  }

  lemma OthersSpawnNothing(s: State, a: Action, s': State, t: Tid, id: RunId)
    requires Inv(s) && Step(s, a, s') && t in s.procs && AtSpawn(s.procs[t]) && s.procs[t].run == id
    requires !(a.Local? && a.t == t)
    ensures id in s.runs && id in s'.runs && s'.runs[id].workers == []
  {
    hide Inv, Step, Good;
    SpawningHasNone(s, t, id);
    HolderAt(s, t, id);
    var w := OnlyStartRecords(s, a, s', id);
    hide LocalStep, CreateAnswered, Recovers;
  }

  lemma DiedIsForgotten(e: seq<State>, i: nat, j: int, t: Tid, id: RunId)
    requires Execution(e) && DiedAtRecord(e, i, j, t, id)
    ensures Forgotten(e[i], id)
  {
    hide Inv, Step;
    var a := StepAt(e, j);
    CrashIsNewEpoch(e[j], a, e[j + 1]);
    StandingIsUnrecorded(e[j], t, id);
    ForgottenFor(e, j + 1, i, id);
  }

  lemma SomeLeaves(s: State, s': State, id: RunId) returns (t: Tid)
    requires EndsUnrecorded(s, s', id)
    ensures LeavesUnrecorded(s, s', t, id)
  {
    t :| LeavesUnrecorded(s, s', t, id);
  }

  /** If the record lands or the daemon dies: exactly if the start still stands there, or the daemon died there. */
  lemma UnrecordedByCrashIff(e: seq<State>, i: nat, id: RunId)
    requires ReliableLaunches(e) && i < |e| && Launched(e[i], id)
    ensures !e[i].runs[id].pidRecorded <==> SomeStandsAtRecord(e[i], id) || OnceDiedAtRecord(e, i, id)
  {
    hide Inv, Step, EndsUnrecorded, LaunchStep, SomeStandsAtRecord, StandsAtRecord;
    UnrecordedIff(e, i, id);
    if j: int :| EndedUnrecordedAt(e, i, j, id) {
      InvariantHolds(e, j);
      assert LaunchNext(e[j], e[j + 1]);
      var a: Action :| LaunchStep(e[j], a, e[j + 1]);
      var t := SomeLeaves(e[j], e[j + 1], id);
      LeavesByCrash(e[j], a, e[j + 1], t, id);
      assert DiedAtRecord(e, i, j, t, id);
    }
    if j: int, t: Tid :| DiedAtRecord(e, i, j, t, id) {
      DiedIsForgotten(e, i, j, t, id);
    }
  }

  /** And once the start is gone, no later incarnation ever records it. */
  lemma ForgottenForEver(e: seq<State>, j: nat, i: nat, id: RunId)
    requires Execution(e) && j <= i < |e| && Unrecorded(e[j], id) && !SomeStandsAtRecord(e[j], id)
    ensures Unrecorded(e[i], id)
  {
    ForgottenFor(e, j, i, id);
  }
}
