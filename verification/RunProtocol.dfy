/**
 * One run as its lease holder sees it: the files of the run directory, and the
 * program a start or a finalisation executes between two awaits.
 *
 * Every await of the source is a program point (`Pc`). `LocalStep` relates the
 * run and the program point before and after one await has been answered, with
 * every answer the store, the worktree manager or the supervisor may give.
 * Nothing here knows that only one lease exists: `Daemon` proves that.
 */
module RunProtocol {
  import opened Options
  import opened Runs
  import opened StateMachine

  datatype Status = Succeeded | Failed | Cancelled | TimedOut | Blocked

  datatype Outcome = Outcome(reason: Reason, exitCode: Option<int>)

  datatype AgentResult = AgentResult(taskId: string, runId: RunId, status: Status)

  /** What the finaliser read from the worker's stdout. */
  datatype Batch = Batch(rejected: nat, results: seq<AgentResult>)

  /** A process the daemon launched: in which incarnation, and how it ended. */
  datatype Worker = Worker(epoch: nat, outcome: Option<Outcome>)

  /** What one finalisation saw, and in which incarnation it saw it. */
  datatype Drained = Drained(epoch: nat, outcome: Outcome, batch: Option<Batch>)

  datatype Run = Run(
    // On disk.
    taskId: string,
    state: RunState,
    result: Option<AgentResult>,
    locked: bool,
    pidRecorded: bool,
    audited: bool,
    // History, read by no step of the program.
    denied: bool,               // what admission decided
    created: bool,              // createTask reached its end and answered ok
    holder: nat,                // the coroutine that last created or inherited the lock
    claimedIn: Option<nat>,     // the incarnation whose start wrote PREPARING
    workers: seq<Worker>,       // every process ever launched for this run
    drained: Option<Drained>,
    resultWrites: nat,
    duplicateHit: bool,         // some writeResult found a result already there
    lostResult: bool,           // the write of the result left nothing on disk
    gaveUp: bool                // after the claim, a failure no code path handles
  )

  /** The terminal state and the result a run is about to be committed to. */
  datatype Verdict = Verdict(state: RunState, result: AgentResult)

  datatype Role = Starter | Finaliser

  /** startRun, from the lock to the registration of the handle. */
  datatype StartPc =
    | ReadTask
    | PrepareRead
    | PrepareWrite
    | Workspace
    | Spawn
    | RecordPid(worker: nat)
    | RunningRead(worker: nat)
    | RunningWrite(worker: nat)
    | AbandonWait(worker: nat)
    | Register(worker: nat)
    | StartUnlock

  /** The finalisation, from the worker's exit to the release of the lock. */
  datatype FinalPc =
    | AwaitExit(worker: nat)
    | DrainOutput(worker: nat, outcome: Outcome)
    | ReadCurrent(outcome: Outcome, batch: Option<Batch>)
    | ValidateRead(batch: Option<Batch>)
    | ValidateWrite(batch: Option<Batch>)
    | Forget
    | FinalUnlock

  /** Result first, then the terminal state: both roles end this way. */
  datatype CommitPc = ResultRead | ResultWrite | EndRead | EndWrite

  datatype Pc =
    | Start(s: StartPc)
    | Final(p: FinalPc)
    | Commit(role: Role, c: CommitPc, verdict: Verdict)

  function RoleOf(pc: Pc): Role {
    match pc
    case Start(_) => Starter
    case Final(_) => Finaliser
    case Commit(role, _, _) => role
  }

  /** Where control goes when the committing part returns or an exception unwinds. */
  function After(role: Role): Pc {
    if role == Starter then Start(StartUnlock) else Final(Forget)
  }

  /** Inside the `try` of the start or of the finalisation. */
  predicate InTry(pc: Pc) {
    match pc
    case Start(s) => !s.Register? && !s.StartUnlock?
    case Final(p) => !p.AwaitExit? && !p.Forget? && !p.FinalUnlock?
    case Commit(_, _, _) => true
  }

  predicate BeforeClaim(pc: Pc) {
    pc.Start? && (pc.s.ReadTask? || pc.s.PrepareRead? || pc.s.PrepareWrite?)
  }

  // ---- what the daemon decides -------------------------------------------

  function FailureOf(id: RunId, taskId: string, state: RunState, status: Status): Verdict {
    Verdict(state, AgentResult(taskId, id, status))
  }

  predicate CleanExit(o: Outcome) {
    o.reason == Exited && o.exitCode == Some(0)
  }

  datatype Ruling = Conclude(verdict: Verdict) | Validate

  /** The reading of a process outcome: only a clean exit earns validation. */
  function Rule(id: RunId, taskId: string, o: Outcome): Ruling {
    if o.reason == CancelRequested then Conclude(FailureOf(id, taskId, CANCELLED, Cancelled))
    else if o.reason == HardTimeout then Conclude(FailureOf(id, taskId, FAILED, TimedOut))
    else if o.reason == OutputLimit then Conclude(FailureOf(id, taskId, FAILED, Failed))
    else if o.reason == OutputError then Conclude(FailureOf(id, taskId, FAILED, Failed))
    else if o.exitCode != Some(0) then Conclude(FailureOf(id, taskId, FAILED, Failed))
    else Validate
  }

  /** The reading of the worker's output, once the run is VALIDATING. */
  function Judge(id: RunId, taskId: string, batch: Option<Batch>): Verdict {
    var failure := FailureOf(id, taskId, FAILED, Failed);
    if batch.None? || batch.value.rejected > 0 then failure
    else if |batch.value.results| == 0 then failure
    else if |batch.value.results| > 1 then failure
    else
      var r := batch.value.results[0];
      if r.taskId != taskId || r.runId != id then failure
      else Verdict(if r.status == Succeeded then SUCCEEDED else FAILED, r)
  }

  function Exit(f: Run, w: nat, o: Outcome): Run
    requires w < |f.workers|
  {
    f.(workers := f.workers[w := f.workers[w].(outcome := Some(o))])
  }

  // ---- one answered await -------------------------------------------------

  ghost predicate LocalStep(id: RunId, epoch: nat, f: Run, pc: Pc, f': Run, pc': Pc) {
    || Answered(id, epoch, f, pc, f', pc')
    || Thrown(epoch, f, pc, f', pc')
  }

  /** An exception unwinds to the `finally`; before the claim it leaves no trace, in the spawn perhaps a process. */
  predicate Thrown(epoch: nat, f: Run, pc: Pc, f': Run, pc': Pc) {
    && InTry(pc) && pc' == After(RoleOf(pc))
    && (f' == (if BeforeClaim(pc) then f else f.(gaveUp := true))
        || (pc == Start(Spawn) && f' == WithWorker(f, epoch).(gaveUp := true)))
  }

  ghost predicate Answered(id: RunId, epoch: nat, f: Run, pc: Pc, f': Run, pc': Pc) {
    match pc
    case Start(s) => StartAnswered(id, epoch, f, s, f', pc')
    case Final(p) => FinalAnswered(id, epoch, f, p, f', pc')
    case Commit(role, c, v) => CommitAnswered(f, role, c, v, f', pc')
  }

  /** failBeforeLaunch and abandonLaunch both commit to this. */
  function LaunchFailure(id: RunId, f: Run): Pc {
    Commit(Starter, ResultRead, FailureOf(id, f.taskId, FAILED, Failed))
  }

  function WithWorker(f: Run, epoch: nat): Run {
    f.(workers := f.workers + [Worker(epoch, None)])
  }

  ghost predicate StartAnswered(id: RunId, epoch: nat, f: Run, s: StartPc, f': Run, pc': Pc) {
    match s
    case ReadTask =>
      f' == f && (pc' == Start(PrepareRead) || pc' == Start(StartUnlock))
    case PrepareRead =>
      f' == f && ((CanTransition(f.state, PREPARING) && pc' == Start(PrepareWrite)) || pc' == Start(StartUnlock))
    case PrepareWrite =>
      exists io: Io :: WritesPreparing(epoch, f, io, f', pc')
    case Workspace =>
      f' == f && (pc' == Start(Spawn) || pc' == LaunchFailure(id, f))
    case Spawn =>
      || (f' == WithWorker(f, epoch) && pc' == Start(RecordPid(|f.workers|)))
      || ((f' == f || f' == WithWorker(f, epoch)) && pc' == LaunchFailure(id, f))
    case RecordPid(w) =>
      || (f' == f.(pidRecorded := true) && (pc' == Start(RunningRead(w)) || pc' == Start(AbandonWait(w))))
      || (f' == f && pc' == Start(AbandonWait(w)))
    case RunningRead(w) =>
      f' == f && ((CanTransition(f.state, RUNNING) && pc' == Start(RunningWrite(w))) || pc' == Start(AbandonWait(w)))
    case RunningWrite(w) =>
      || (f' == f.(state := RUNNING) && (pc' == Start(Register(w)) || pc' == Start(AbandonWait(w))))
      || (f' == f && pc' == Start(AbandonWait(w)))
    case AbandonWait(w) =>
      w < |f.workers| && f.workers[w].outcome.Some? && f' == f && pc' == LaunchFailure(id, f)
    case Register(_) => false      // a step of the daemon, not of the run alone
    case StartUnlock => false
  }

  ghost predicate FinalAnswered(id: RunId, epoch: nat, f: Run, p: FinalPc, f': Run, pc': Pc) {
    match p
    case DrainOutput(_, o) =>
      exists batch: Option<Batch> :: Drains(epoch, f, o, batch, f', pc')
    case ReadCurrent(o, batch) =>
      || (f' == f && pc' == AfterExit(id, f, o, batch))
      || (f' == f.(gaveUp := true) && pc' == Final(Forget))
    case ValidateRead(batch) =>
      || (CanTransition(f.state, VALIDATING) && f' == f && pc' == Final(ValidateWrite(batch)))
      || (f' == f.(gaveUp := true) && pc' == Final(Forget))
    case ValidateWrite(batch) =>
      || (f' == f.(state := VALIDATING) && pc' == Commit(Finaliser, ResultRead, Judge(id, f.taskId, batch)))
      || ((f' == f.(gaveUp := true) || f' == f.(state := VALIDATING, gaveUp := true)) && pc' == Final(Forget))
    case AwaitExit(_) => false     // steps of the daemon, not of the run alone
    case Forget => false
    case FinalUnlock => false
  }

  function AfterExit(id: RunId, f: Run, o: Outcome, batch: Option<Batch>): Pc {
    match Rule(id, f.taskId, o)
    case Conclude(v) => Commit(Finaliser, ResultRead, v)
    case Validate => Final(ValidateRead(batch))
  }

  predicate CommitAnswered(f: Run, role: Role, c: CommitPc, v: Verdict, f': Run, pc': Pc) {
    match c
    case ResultRead =>
      || (f.result.Some? && f' == f.(duplicateHit := true) && pc' == Commit(role, EndRead, v))
      || (f' == f && pc' == Commit(role, ResultWrite, v))
    case ResultWrite =>
      && pc' == Commit(role, EndRead, v)
      && (f' == f.(result := Some(v.result), resultWrites := f.resultWrites + 1) || f' == f.(lostResult := true))
    case EndRead =>
      || (CanTransition(f.state, v.state) && f' == f && pc' == Commit(role, EndWrite, v))
      || (f' == f.(gaveUp := true) && pc' == After(role))
    case EndWrite =>
      pc' == After(role) && (f' == f.(state := v.state) || f' == f.(gaveUp := true))
  }

  predicate WritesPreparing(epoch: nat, f: Run, io: Io, f': Run, pc': Pc) {
    match io
    case Landed =>
      f' == f.(state := PREPARING, claimedIn := Some(epoch), gaveUp := false) && pc' == Start(Workspace)
    case Lost =>
      f' == f && pc' == Start(StartUnlock)
    case Unsure =>
      f' == f.(state := PREPARING, claimedIn := Some(epoch), gaveUp := true) && pc' == Start(StartUnlock)
  }

  predicate Drains(epoch: nat, f: Run, o: Outcome, batch: Option<Batch>, f': Run, pc': Pc) {
    f' == f.(drained := Some(Drained(epoch, o, batch))) && pc' == Final(ReadCurrent(o, batch))
  }

  // ---- what is true of a run ----------------------------------------------

  /** The status a terminal state may stand beside. */
  predicate Agrees(state: RunState, status: Status) {
    match state
    case SUCCEEDED => status == Succeeded
    case CANCELLED => status == Cancelled
    case FAILED => status != Succeeded
    case _ => false
  }

  /** The incarnation that launched the worker saw it finish its work. */
  predicate Evidence(id: RunId, f: Run) {
    && f.drained.Some?
    && var d := f.drained.value;
    && f.workers == [Worker(d.epoch, Some(d.outcome))]
    && CleanExit(d.outcome)
    && d.batch.Some? && d.batch.value.rejected == 0
    && d.batch.value.results == [AgentResult(f.taskId, id, Succeeded)]
  }

  predicate ResultOk(id: RunId, f: Run) {
    && (f.result.Some? <==> f.resultWrites == 1)
    && f.resultWrites <= 1
    && (f.result.Some? ==> f.result.value.runId == id && f.result.value.taskId == f.taskId)
    && (f.lostResult ==> f.result.None?)
    && !f.duplicateHit
  }

  /** Holds of every run at every moment, whoever is working on it. */
  predicate RunOk(id: RunId, f: Run) {
    && ResultOk(id, f)
    && |f.workers| <= 1
    && f.state != BLOCKED
    && (f.claimedIn.None? ==>
          (f.state.QUEUED? || f.state.FAILED?) && f.workers == [] && f.drained.None? && !f.lostResult)
    && (f.claimedIn.None? && f.result.Some? ==> f.state == FAILED && f.result.value.status == Blocked)
    && (f.claimedIn.None? && f.state == FAILED ==> f.denied)
    && (f.claimedIn.Some? ==> f.state != QUEUED)
    && (f.state.RUNNING? || f.state.VALIDATING? ==> f.pidRecorded && |f.workers| == 1)
    && (f.claimedIn.Some? && IsTerminal(f.state) ==>
          && !f.gaveUp
          && (f.lostResult <==> f.result.None?)
          && (f.result.Some? ==> Agrees(f.state, f.result.value.status)))
    && (f.state == SUCCEEDED ==> Evidence(id, f))
    && (f.created ==> f.audited)
    && (f.pidRecorded ==> f.workers != [])
    && (f.created && f.denied ==> f.claimedIn.None? && f.state == FAILED && f.result.Some?)
  }

  /** Claimed in this incarnation, and nothing of its outcome is on disk yet. */
  predicate Fresh(epoch: nat, f: Run) {
    f.claimedIn == Some(epoch) && f.result.None? && !f.lostResult && !f.gaveUp
  }

  /** Nothing is owed to this run any more by incarnation `epoch`. */
  predicate Quit(epoch: nat, f: Run) {
    f.claimedIn == Some(epoch) ==> IsTerminal(f.state) || f.gaveUp
  }

  predicate Deserved(id: RunId, f: Run, v: Verdict) {
    && IsTerminal(v.state) && CanTransition(f.state, v.state)
    && Agrees(v.state, v.result.status)
    && v.result.runId == id && v.result.taskId == f.taskId
    && (v.state == SUCCEEDED ==> Evidence(id, f))
  }

  /** The lease holder's assertion at each program point. */
  predicate At(id: RunId, epoch: nat, f: Run, pc: Pc) {
    match pc
    case Start(s) => AtStart(epoch, f, s)
    case Final(p) => AtFinal(epoch, f, p)
    case Commit(_, c, v) =>
      if c.ResultRead? || c.ResultWrite? then Fresh(epoch, f) && Deserved(id, f, v) else Committing(id, epoch, f, v)
  }

  predicate AtStart(epoch: nat, f: Run, s: StartPc) {
    match s
    case ReadTask => Quit(epoch, f)
    case PrepareRead => Quit(epoch, f)
    case PrepareWrite => f.state == QUEUED
    case Workspace => Fresh(epoch, f) && f.state == PREPARING && f.workers == []
    case Spawn => Fresh(epoch, f) && f.state == PREPARING && f.workers == []
    case RecordPid(w) => Fresh(epoch, f) && f.state == PREPARING && LaunchedHere(epoch, f, w) && !f.pidRecorded
    case RunningRead(w) => Fresh(epoch, f) && f.state == PREPARING && LaunchedHere(epoch, f, w) && f.pidRecorded
    case RunningWrite(w) => Fresh(epoch, f) && f.state == PREPARING && LaunchedHere(epoch, f, w) && f.pidRecorded
    case AbandonWait(w) => Fresh(epoch, f) && (f.state.PREPARING? || f.state.RUNNING?) && LaunchedHere(epoch, f, w)
    case Register(w) => Fresh(epoch, f) && f.state == RUNNING && LaunchedHere(epoch, f, w)
    case StartUnlock => Quit(epoch, f)
  }

  predicate AtFinal(epoch: nat, f: Run, p: FinalPc) {
    match p
    case AwaitExit(w) => Fresh(epoch, f) && f.state == RUNNING && LaunchedHere(epoch, f, w)
    case DrainOutput(w, o) =>
      Fresh(epoch, f) && f.state == RUNNING && LaunchedHere(epoch, f, w) && f.workers[w].outcome == Some(o)
    case ReadCurrent(o, batch) => Fresh(epoch, f) && f.state == RUNNING && Saw(epoch, f, o, batch)
    case ValidateRead(batch) => Fresh(epoch, f) && f.state == RUNNING && SawCleanExit(epoch, f, batch)
    case ValidateWrite(batch) => Fresh(epoch, f) && f.state == RUNNING && SawCleanExit(epoch, f, batch)
    case Forget => f.claimedIn == Some(epoch) && Quit(epoch, f)
    case FinalUnlock => f.claimedIn == Some(epoch) && Quit(epoch, f)
  }

  predicate Good(id: RunId, epoch: nat, f: Run, pc: Pc) {
    RunOk(id, f) && At(id, epoch, f, pc)
  }

  predicate LaunchedHere(epoch: nat, f: Run, w: nat) {
    w < |f.workers| && f.workers[w].epoch == epoch
  }

  predicate Saw(epoch: nat, f: Run, o: Outcome, batch: Option<Batch>) {
    f.drained == Some(Drained(epoch, o, batch)) && f.workers == [Worker(epoch, Some(o))]
  }

  predicate SawCleanExit(epoch: nat, f: Run, batch: Option<Batch>) {
    f.drained.Some? && CleanExit(f.drained.value.outcome) && Saw(epoch, f, f.drained.value.outcome, batch)
  }

  predicate Committing(id: RunId, epoch: nat, f: Run, v: Verdict) {
    && f.claimedIn == Some(epoch) && !f.gaveUp && Deserved(id, f, v)
    && (if f.lostResult then f.result.None? else f.result == Some(v.result))
  }

  // ---- lemmas ---------------------------------------------------------------

  /** What `Rule` and `Judge` decide is always deserved, and success only on evidence. */
  lemma RulingsAreDeserved(id: RunId, epoch: nat, f: Run, o: Outcome, batch: Option<Batch>)
    requires Saw(epoch, f, o, batch)
    ensures Rule(id, f.taskId, o).Validate? <==> CleanExit(o)
    ensures Rule(id, f.taskId, o).Conclude? && f.state == RUNNING ==> Deserved(id, f, Rule(id, f.taskId, o).verdict)
    ensures CleanExit(o) && f.state == VALIDATING ==> Deserved(id, f, Judge(id, f.taskId, batch))
    ensures Judge(id, f.taskId, batch).state == SUCCEEDED <==>
              batch.Some? && batch.value.rejected == 0 && batch.value.results == [AgentResult(f.taskId, id, Succeeded)]
  {
  }

  /** What no later step of any holder takes back. */
  predicate Keeps(f: Run, f': Run) {
    && f'.taskId == f.taskId && f'.denied == f.denied
    && (f.created ==> f'.created) && (f.audited ==> f'.audited) && (f.pidRecorded ==> f'.pidRecorded)
    && (f.claimedIn.Some? ==> f'.claimedIn == f.claimedIn)
    && (f.claimedIn.Some? && f.gaveUp ==> f'.gaveUp)
    && (IsTerminal(f.state) ==> f'.state == f.state)
    && (f.result.Some? ==> f'.result == f.result)
    && |f.workers| <= |f'.workers|
  }

  predicate Framed(epoch: nat, f: Run, pc: Pc, f': Run, pc': Pc) {
    && Keeps(f, f') && f'.locked == f.locked && f'.holder == f.holder
    && (f'.claimedIn == f.claimedIn || f'.claimedIn == Some(epoch))
    && RoleOf(pc') == RoleOf(pc)
    && !(pc'.Final? && (pc'.p.AwaitExit? || pc'.p.FinalUnlock?))
  }

  lemma KeepsItself(f: Run)
    ensures Keeps(f, f)
  {
  }

  /** A failure nobody handles leaves a claimed run for the next boot. */
  lemma GivingUp(id: RunId, epoch: nat, f: Run)
    requires RunOk(id, f) && f.claimedIn == Some(epoch) && !IsTerminal(f.state)
    ensures RunOk(id, f.(gaveUp := true)) && Keeps(f, f.(gaveUp := true)) && Quit(epoch, f.(gaveUp := true))
  {
  }

  /** Taking the run out of QUEUED: the only way to become claimed. */
  lemma ClaimSteps(id: RunId, epoch: nat, f: Run, s: StartPc, f': Run, pc': Pc)
    requires RunOk(id, f) && AtStart(epoch, f, s)
    requires StartAnswered(id, epoch, f, s, f', pc')
    requires s.ReadTask? || s.PrepareRead? || s.PrepareWrite?
    ensures Good(id, epoch, f', pc') && Framed(epoch, f, Start(s), f', pc')
  {
    KeepsItself(f);
    if s.PrepareWrite? {
      var io: Io :| WritesPreparing(epoch, f, io, f', pc');
      Claims(id, epoch, f, io.Unsure?);
    }
    hide RunOk, Keeps;
  }

  lemma Claims(id: RunId, epoch: nat, f: Run, failed: bool)
    requires RunOk(id, f) && f.state == QUEUED
    ensures var f' := f.(state := PREPARING, claimedIn := Some(epoch), gaveUp := failed);
            RunOk(id, f') && Keeps(f, f') && f'.workers == [] && f'.result.None? && !f'.lostResult
    ensures Quit(epoch, f)
  {
  }

  /** Preparing the workspace and spawning: the only way to gain a worker. */
  lemma LaunchSteps(id: RunId, epoch: nat, f: Run, s: StartPc, f': Run, pc': Pc)
    requires RunOk(id, f) && AtStart(epoch, f, s)
    requires StartAnswered(id, epoch, f, s, f', pc')
    requires s.Workspace? || s.Spawn?
    ensures Good(id, epoch, f', pc') && Framed(epoch, f, Start(s), f', pc')
  {  }

  /** Recording the process, or abandoning it. */
  lemma RecordSteps(id: RunId, epoch: nat, f: Run, s: StartPc, f': Run, pc': Pc)
    requires RunOk(id, f) && AtStart(epoch, f, s)
    requires StartAnswered(id, epoch, f, s, f', pc')
    requires s.RecordPid? || s.RunningRead? || s.RunningWrite? || s.AbandonWait?
    ensures Good(id, epoch, f', pc') && Framed(epoch, f, Start(s), f', pc')
  {  }

  lemma StartsValidating(id: RunId, epoch: nat, f: Run, batch: Option<Batch>)
    requires RunOk(id, f) && AtFinal(epoch, f, ValidateWrite(batch))
    ensures var f' := f.(state := VALIDATING);
            RunOk(id, f') && Keeps(f, f') && Deserved(id, f', Judge(id, f.taskId, batch)) && Fresh(epoch, f')
  {
    RulingsAreDeserved(id, epoch, f.(state := VALIDATING), f.drained.value.outcome, batch);
  }

  /** Reading what the worker left behind, and earning the right to be judged. */
  lemma FinalSteps(id: RunId, epoch: nat, f: Run, p: FinalPc, f': Run, pc': Pc)
    requires RunOk(id, f) && AtFinal(epoch, f, p)
    requires FinalAnswered(id, epoch, f, p, f', pc')
    ensures Good(id, epoch, f', pc') && Framed(epoch, f, Final(p), f', pc')
  {
    GivingUp(id, epoch, f);
    KeepsItself(f);
    match p
    case DrainOutput(_, _) =>
    case ReadCurrent(o, batch) =>
      hide RunOk, Keeps, Deserved;
      RulingsAreDeserved(id, epoch, f, o, batch);
    case ValidateRead(_) => hide RunOk, Keeps;
    case ValidateWrite(batch) =>
      StartsValidating(id, epoch, f, batch);
      GivingUp(id, epoch, f.(state := VALIDATING));
      KeepsItself(f.(state := VALIDATING));
  }

  /** The result, before any promise. */
  lemma ResultSteps(id: RunId, epoch: nat, f: Run, role: Role, c: CommitPc, v: Verdict, f': Run, pc': Pc)
    requires RunOk(id, f) && At(id, epoch, f, Commit(role, c, v))
    requires CommitAnswered(f, role, c, v, f', pc') && (c.ResultRead? || c.ResultWrite?)
    ensures Good(id, epoch, f', pc') && Framed(epoch, f, Commit(role, c, v), f', pc')
  {
  }

  lemma TerminalLands(id: RunId, epoch: nat, f: Run, v: Verdict)
    requires RunOk(id, f) && Committing(id, epoch, f, v)
    ensures RunOk(id, f.(state := v.state)) && Keeps(f, f.(state := v.state)) && IsTerminal(v.state)
  {
  }

  lemma CommittingIsOpen(id: RunId, epoch: nat, f: Run, v: Verdict)
    requires Committing(id, epoch, f, v)
    ensures f.claimedIn == Some(epoch) && !IsTerminal(f.state)
  {
  }

  /** The terminal state: the one write that promises something to readers. */
  lemma TerminalSteps(id: RunId, epoch: nat, f: Run, role: Role, c: CommitPc, v: Verdict, f': Run, pc': Pc)
    requires RunOk(id, f) && At(id, epoch, f, Commit(role, c, v))
    requires CommitAnswered(f, role, c, v, f', pc') && (c.EndRead? || c.EndWrite?)
    ensures Good(id, epoch, f', pc') && Framed(epoch, f, Commit(role, c, v), f', pc')
  {
    assert Committing(id, epoch, f, v);
    CommittingIsOpen(id, epoch, f, v);
    GivingUp(id, epoch, f);
    hide RunOk, Keeps, Committing;
    if c.EndWrite? {
      TerminalLands(id, epoch, f, v);
      assert f' == f.(state := v.state) || f' == f.(gaveUp := true);
    } else {
      KeepsItself(f);
    }
  }

  lemma StartSteps(id: RunId, epoch: nat, f: Run, s: StartPc, f': Run, pc': Pc)
    requires RunOk(id, f) && AtStart(epoch, f, s) && StartAnswered(id, epoch, f, s, f', pc')
    ensures Good(id, epoch, f', pc') && Framed(epoch, f, Start(s), f', pc')
  {
    match s
    case ReadTask | PrepareRead | PrepareWrite => ClaimSteps(id, epoch, f, s, f', pc');
    case Workspace | Spawn => LaunchSteps(id, epoch, f, s, f', pc');
    case _ => RecordSteps(id, epoch, f, s, f', pc');
  }

  lemma CommitSteps(id: RunId, epoch: nat, f: Run, role: Role, c: CommitPc, v: Verdict, f': Run, pc': Pc)
    requires RunOk(id, f) && At(id, epoch, f, Commit(role, c, v))
    requires CommitAnswered(f, role, c, v, f', pc')
    ensures Good(id, epoch, f', pc') && Framed(epoch, f, Commit(role, c, v), f', pc')
  {
    if c.ResultRead? || c.ResultWrite? {
      ResultSteps(id, epoch, f, role, c, v, f', pc');
    } else {
      TerminalSteps(id, epoch, f, role, c, v, f', pc');
    }
  }

  /** Inside the `try` and past the claim, the run is this incarnation's and open. */
  lemma ClaimedInTry(id: RunId, epoch: nat, f: Run, pc: Pc)
    requires Good(id, epoch, f, pc) && InTry(pc) && !BeforeClaim(pc)
    ensures f.claimedIn == Some(epoch) && !IsTerminal(f.state)
  {
    hide RunOk;
  }

  lemma NothingClaimed(id: RunId, epoch: nat, f: Run, pc: Pc)
    requires Good(id, epoch, f, pc) && BeforeClaim(pc)
    ensures Quit(epoch, f)
  {
  }

  lemma SpawnsAndThrows(id: RunId, epoch: nat, f: Run)
    requires Good(id, epoch, f, Start(Spawn))
    ensures var f' := WithWorker(f, epoch).(gaveUp := true);
            Good(id, epoch, f', Start(StartUnlock)) && Framed(epoch, f, Start(Spawn), f', Start(StartUnlock))
  {
  }

  lemma ThrowsAndGivesUp(id: RunId, epoch: nat, f: Run, pc: Pc)
    requires Good(id, epoch, f, pc) && InTry(pc) && !BeforeClaim(pc)
    ensures var f' := f.(gaveUp := true);
            Good(id, epoch, f', After(RoleOf(pc))) && Framed(epoch, f, pc, f', After(RoleOf(pc)))
  {
    ClaimedInTry(id, epoch, f, pc);
    GivingUp(id, epoch, f);
    hide RunOk, Keeps;
  }

  /** An exception leaves a claimed run for boot recovery, and an unclaimed one untouched. */
  lemma ExceptionSteps(id: RunId, epoch: nat, f: Run, pc: Pc, f': Run, pc': Pc)
    requires Good(id, epoch, f, pc) && Thrown(epoch, f, pc, f', pc')
    ensures Good(id, epoch, f', pc') && Framed(epoch, f, pc, f', pc')
  {
    KeepsItself(f);
    hide RunOk, Keeps;
    if BeforeClaim(pc) {
      NothingClaimed(id, epoch, f, pc);
    } else if f' == f.(gaveUp := true) {
      ThrowsAndGivesUp(id, epoch, f, pc);
    } else {
      SpawnsAndThrows(id, epoch, f);
    }
  }

  /** Every answered await keeps the holder's assertion and takes nothing back. */
  lemma LocalStepOk(id: RunId, epoch: nat, f: Run, pc: Pc, f': Run, pc': Pc)
    requires Good(id, epoch, f, pc) && LocalStep(id, epoch, f, pc, f', pc')
    ensures Good(id, epoch, f', pc') && Framed(epoch, f, pc, f', pc')
  {
    if Thrown(epoch, f, pc, f', pc') {
      ExceptionSteps(id, epoch, f, pc, f', pc');
    } else {
      match pc
      case Start(s) => StartSteps(id, epoch, f, s, f', pc');
      case Final(p) => FinalSteps(id, epoch, f, p, f', pc');
      case Commit(role, c, v) => CommitSteps(id, epoch, f, role, c, v, f', pc');
    }
  }

  /** What a step of the holder writes besides the outcome: the audit record never, the process where it is had. */
  predicate WritesInPlace(f: Run, pc: Pc, f': Run) {
    && f'.audited == f.audited && f'.created == f.created && f'.denied == f.denied
    && (f'.workers == f.workers || pc == Start(Spawn))
    && (f'.pidRecorded == f.pidRecorded || (pc.Start? && pc.s.RecordPid?))
  }

  lemma StartWritesInPlace(id: RunId, epoch: nat, f: Run, s: StartPc, f': Run, pc': Pc)
    requires StartAnswered(id, epoch, f, s, f', pc')
    ensures WritesInPlace(f, Start(s), f')
  {
    WithWorkerInPlace(epoch, f);
    hide CanTransition, LaunchFailure, WithWorker;
    if s.PrepareWrite? {
      var io: Io :| WritesPreparing(epoch, f, io, f', pc');
    }
  }

  lemma WithWorkerInPlace(epoch: nat, f: Run)
    ensures WritesInPlace(f, Start(Spawn), WithWorker(f, epoch))
    ensures WritesInPlace(f, Start(Spawn), WithWorker(f, epoch).(gaveUp := true))
  {
  }

  lemma FinalWritesInPlace(id: RunId, epoch: nat, f: Run, p: FinalPc, f': Run, pc': Pc)
    requires FinalAnswered(id, epoch, f, p, f', pc')
    ensures WritesInPlace(f, Final(p), f')
  {
    hide CanTransition, AfterExit, Judge;
  }

  lemma CommitWritesInPlace(f: Run, role: Role, c: CommitPc, v: Verdict, f': Run, pc': Pc)
    requires CommitAnswered(f, role, c, v, f', pc')
    ensures WritesInPlace(f, Commit(role, c, v), f')
  {
    hide CanTransition;
  }

  lemma ThrownWritesInPlace(epoch: nat, f: Run, pc: Pc, f': Run, pc': Pc)
    requires Thrown(epoch, f, pc, f', pc')
    ensures WritesInPlace(f, pc, f')
  {
    WithWorkerInPlace(epoch, f);
    hide InTry, BeforeClaim, WithWorker;
  }

  lemma HolderWritesInPlace(id: RunId, epoch: nat, f: Run, pc: Pc, f': Run, pc': Pc)
    requires LocalStep(id, epoch, f, pc, f', pc')
    ensures WritesInPlace(f, pc, f')
  {
    hide StartAnswered, FinalAnswered, CommitAnswered, Thrown, WritesInPlace;
    if Thrown(epoch, f, pc, f', pc') {
      ThrownWritesInPlace(epoch, f, pc, f', pc');
    } else {
      match pc
      case Start(s) => StartWritesInPlace(id, epoch, f, s, f', pc');
      case Final(p) => FinalWritesInPlace(id, epoch, f, p, f', pc');
      case Commit(role, c, v) => CommitWritesInPlace(f, role, c, v, f', pc');
    }
  }

  /** A worker may exit at any moment, with any outcome, without disturbing its run's holder. */
  lemma ExitKeepsGood(id: RunId, epoch: nat, f: Run, pc: Pc, w: nat, o: Outcome)
    requires w < |f.workers| && f.workers[w].outcome.None?
    ensures RunOk(id, f) ==> RunOk(id, Exit(f, w, o))
    ensures Good(id, epoch, f, pc) ==> Good(id, epoch, Exit(f, w, o), pc)
  {
  }

  // ---- a store that does not fail ----------------------------------------------

  /**
   * The await was answered, without an exception, and the store did what it was asked: a write is
   * there when it returns, and a transition is refused only if the table forbids it.
   */
  predicate Reliable(f: Run, pc: Pc, f': Run, pc': Pc) {
    match pc
    case Start(s) =>
      if s.PrepareWrite? then pc' == Start(StartUnlock) ==> f' == f else BeforeClaim(pc) || pc' != After(Starter)
    case Final(p) => (p.ValidateRead? ==> CanTransition(f.state, VALIDATING)) ==> pc' != After(Finaliser)
    case Commit(role, c, v) =>
      match c
      case ResultRead => pc' != After(role)
      case ResultWrite => f'.result == Some(v.result) && pc' != After(role)
      case EndRead => CanTransition(f.state, v.state) ==> pc' != After(role)
      case EndWrite => f'.state == v.state
  }

  /** Nothing was given up and no result was lost. */
  predicate Intact(f: Run) {
    f.claimedIn.Some? ==> !f.gaveUp && !f.lostResult
  }

  lemma ReliableStart(id: RunId, epoch: nat, f: Run, s: StartPc, f': Run, pc': Pc)
    requires Good(id, epoch, f, Start(s)) && LocalStep(id, epoch, f, Start(s), f', pc')
    requires Reliable(f, Start(s), f', pc') && Intact(f)
    ensures Intact(f')
  {
  }

  lemma ReliableFinal(id: RunId, epoch: nat, f: Run, p: FinalPc, f': Run, pc': Pc)
    requires Good(id, epoch, f, Final(p)) && LocalStep(id, epoch, f, Final(p), f', pc')
    requires Reliable(f, Final(p), f', pc') && Intact(f)
    ensures Intact(f')
  {
    hide RunOk;
  }

  lemma ReliableResult(epoch: nat, f: Run, role: Role, c: CommitPc, v: Verdict, f': Run, pc': Pc)
    requires (c.ResultRead? || c.ResultWrite?) && Intact(f)
    requires CommitAnswered(f, role, c, v, f', pc') || Thrown(epoch, f, Commit(role, c, v), f', pc')
    requires Reliable(f, Commit(role, c, v), f', pc') && f.result.None?
    ensures Intact(f')
  {
  }

  lemma ReliableEnd(epoch: nat, f: Run, role: Role, c: CommitPc, v: Verdict, f': Run, pc': Pc)
    requires (c.EndRead? || c.EndWrite?) && Intact(f) && CanTransition(f.state, v.state)
    requires CommitAnswered(f, role, c, v, f', pc') || Thrown(epoch, f, Commit(role, c, v), f', pc')
    requires Reliable(f, Commit(role, c, v), f', pc')
    ensures Intact(f')
  {
    NoSelfLoop(f.state, v.state);
    hide CanTransition;
  }

  lemma ReliableCommit(id: RunId, epoch: nat, f: Run, role: Role, c: CommitPc, v: Verdict, f': Run, pc': Pc)
    requires Good(id, epoch, f, Commit(role, c, v)) && LocalStep(id, epoch, f, Commit(role, c, v), f', pc')
    requires Reliable(f, Commit(role, c, v), f', pc') && Intact(f)
    ensures Intact(f')
  {
    hide RunOk, Agrees, CanTransition, IsTerminal, Evidence, CommitAnswered, Thrown, Reliable, Intact;
    if c.ResultRead? || c.ResultWrite? {
      ReliableResult(epoch, f, role, c, v, f', pc');
    } else {
      ReliableEnd(epoch, f, role, c, v, f', pc');
    }
  }

  lemma NoSelfLoop(from: RunState, to: RunState)
    requires CanTransition(from, to)
    ensures from != to
  {
  }

  /** Only a failing store or an exception makes the holder of a run give up: its own checks never do. */
  lemma OnlyFailuresGiveUp(id: RunId, epoch: nat, f: Run, pc: Pc, f': Run, pc': Pc)
    requires Good(id, epoch, f, pc) && LocalStep(id, epoch, f, pc, f', pc')
    requires Reliable(f, pc, f', pc') && Intact(f)
    ensures Intact(f')
  {
    hide Good, LocalStep, Reliable, Intact;
    match pc
    case Start(s) => ReliableStart(id, epoch, f, s, f', pc');
    case Final(p) => ReliableFinal(id, epoch, f, p, f', pc');
    case Commit(role, c, v) => ReliableCommit(id, epoch, f, role, c, v, f', pc');
  }
}
