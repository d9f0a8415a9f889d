/**
 * Ownership of worktrees: durable records, and the steps of provisioning and releasing over them.
 * Between any two steps other operations may run, and the process may die.
 */
module Worktrees {
  import opened Options
  import opened Runs
  import PathContainment

  type Path = PathContainment.Path

  // ---- the record directory ---------------------------------------------------------------

  /** What a record says that ownership depends on; `created` and `released` say whether the dates are set. */
  datatype Record = Record(runId: RunId, path: Path, created: bool, released: bool)

  /** Records are named by a digest of the path, taken to be injective; a failed first write can leave a torn one. */
  datatype File = Torn | Written(record: Record)

  type Files = map<Path, File>

  /** The record is written and told, written whole, torn or not at all and told to have failed, or has no directory. */
  datatype ClaimOutcome = Whole | Unreported | Part | Nothing | NoDirectory

  predicate ClaimSucceeds(files: Files, r: Record, o: ClaimOutcome) {
    r.path !in files && o.Whole?
  }

  /** O_EXCL: what is there stays. */
  function Claimed(files: Files, r: Record, o: ClaimOutcome): Files {
    if r.path in files || o.Nothing? || o.NoDirectory? then files
    else files[r.path := if o.Part? then Torn else Written(r)]
  }

  /** The old record or the new one, never a mixture; an error may be reported although the new one is there. */
  function Updated(files: Files, r: Record, o: Io): Files {
    if o.Lost? then files else files[r.path := Written(r)]
  }

  datatype ClaimResult = Ok(record: Record) | Conflict(heldBy: Option<RunId>) | StoreFailed

  class RecordStore {
    var files: Files

    constructor (files: Files)
      ensures this.files == files
    {
      this.files := files;
    }

    /** O_EXCL decides; a refusal names the holder on record, if that can be read, be it the caller itself. */
    method Claim(r: Record, o: ClaimOutcome, readable: bool) returns (result: ClaimResult)
      modifies this
      ensures files == Claimed(old(files), r, o)
      ensures r.path in old(files) || o.Nothing? || o.NoDirectory? ==> files == old(files)
      ensures r.path !in old(files) && (o.Whole? || o.Unreported?) ==> files == old(files)[r.path := Written(r)]
      ensures r.path !in old(files) && o.Part? ==> files == old(files)[r.path := Torn]
      ensures result.Ok? <==> r.path !in old(files) && o.Whole?
      ensures result.Ok? ==> result.record == r
      ensures result.StoreFailed? <==> o.NoDirectory?
      ensures result.Conflict? ==>
                result.heldBy == if readable && r.path in files && files[r.path].Written?
                                 then Some(files[r.path].record.runId) else None
    {
      if o.NoDirectory? {
        return StoreFailed;
      }
      if r.path !in files && !o.Nothing? {
        files := files[r.path := if o.Part? then Torn else Written(r)];
        if o.Whole? {
          return Ok(r);
        }
      }
      var existing := Read(r.path, readable);
      result := Conflict(if existing.Some? then Some(existing.value.runId) else None);
    }

    method Read(path: Path, readable: bool) returns (r: Option<Record>)
      ensures r == if readable && path in files && files[path].Written? then Some(files[path].record) else None
    {
      r := if readable && path in files && files[path].Written? then Some(files[path].record) else None;
    }

    /** An update replaces whatever is there; only the owner of a claim calls it. */
    method Update(r: Record, o: Io) returns (ok: bool)
      modifies this
      ensures files == Updated(old(files), r, o) && ok == o.Landed?
      ensures files == if o.Landed? || o.Unsure? then old(files)[r.path := Written(r)] else old(files)
    {
      if !o.Lost? {
        files := files[r.path := Written(r)];
      }
      ok := o.Landed?;
    }
  }

  // ---- operations in flight ----------------------------------------------------------------

  /** Where an operation stands: what it does next, and the record it works from. */
  datatype Op =
    | Claiming(runId: RunId, path: Path)
    | Adding(record: Record)
    | Recording(record: Record)
    | Reading(runId: RunId, path: Path, remove: bool)
    | Closing(record: Record)
    | Listing(record: Record, remove: bool)
    | Removing(record: Record)
    | Pruning(record: Record)
    | Sweeping(record: Record)
    | Finishing(record: Record)
  {
    function Target(): Path {
      if Claiming? || Reading? then path else record.path
    }
  }

  type OpId = nat

  /** `creator` and `granted` remember which run had each directory created and was handed each path. */
  datatype State = State(
    files: Files,
    dirs: set<Path>,
    registered: set<Path>,
    ops: map<OpId, Op>,
    creator: map<Path, RunId>,
    granted: set<(RunId, Path)>)

  datatype AddOutcome = Added | Failed(dirLeft: bool, registeredLeft: bool)

  /** git clears the path, or fails after taking some of what is there and perhaps its registration. */
  datatype RemovalOutcome = Cleared | Incomplete(lost: set<Path>, unregistered: bool)

  datatype Action =
    | BeginProvision(id: OpId, runId: RunId, path: Path)
    | BeginRelease(id: OpId, runId: RunId, path: Path, remove: bool)
    | Claim(id: OpId, claim: ClaimOutcome)
    | Add(id: OpId, parentOk: bool, add: AddOutcome)
    | RecordCreation(id: OpId, statusOk: bool, write: Io)
    | Read(id: OpId, readable: bool)
    | Close(id: OpId, write: Io)
    | List(id: OpId, gitOk: bool)
    | Remove(id: OpId, removal: RemovalOutcome)
    | Prune(id: OpId, pruned: set<Path>)
    | Sweep(id: OpId, rmOk: bool)
    | Finish(id: OpId, write: Io)
    | Crash

  function Without(ops: map<OpId, Op>, id: OpId): map<OpId, Op> {
    ops - {id}
  }

  /** Removing a directory takes everything below it along. */
  function Outside(dirs: set<Path>, p: Path): set<Path> {
    set d | d in dirs && !(p <= d)
  }

  /** Some of what is at or below a path is gone. */
  function Losing(dirs: set<Path>, p: Path, lost: set<Path>): set<Path> {
    set d | d in dirs && !(p <= d && d in lost)
  }

  /** Of the registrations to be pruned, those go that have no directory. */
  function Pruned(registered: set<Path>, dirs: set<Path>, pruned: set<Path>): set<Path> {
    set p | p in registered && (p in dirs || p !in pruned)
  }

  function Init(): State {
    State(map[], {}, {}, map[], map[], {})
  }

  /** What one step does; a step that does not apply changes nothing. */
  function Apply(s: State, a: Action): State {
    match a
    case Crash => s.(ops := map[])
    case BeginProvision(id, runId, path) => if id in s.ops then s else s.(ops := s.ops[id := Claiming(runId, path)])
    case BeginRelease(id, runId, path, remove) =>
      if id in s.ops then s else s.(ops := s.ops[id := Reading(runId, path, remove)])
    case _ => if a.id in s.ops then Act(s, a, s.ops[a.id]) else s
  }

  function Act(s: State, a: Action, op: Op): State
    requires !a.Crash? && !a.BeginProvision? && !a.BeginRelease?
  {
    var done := s.(ops := Without(s.ops, a.id));
    match a
    case Claim(id, o) =>
      if !op.Claiming? then s else
        var r := Record(op.runId, op.path, false, false);
        var s' := s.(files := Claimed(s.files, r, o));
        if ClaimSucceeds(s.files, r, o) then s'.(ops := s.ops[id := Adding(r)]) else s'.(ops := Without(s.ops, id))
    case Add(id, parentOk, o) =>
      if !op.Adding? then s
      else if !parentOk then done
      else
        var made := o.Added? || o.dirLeft || o.registeredLeft;
        var s' := if !made then s else
          s.(dirs := if o.Added? || o.dirLeft then s.dirs + {op.record.path} else s.dirs,
             registered := if o.Added? || o.registeredLeft then s.registered + {op.record.path} else s.registered,
             creator := s.creator[op.record.path := op.record.runId]);
        s'.(ops := if o.Added? then s.ops[id := Recording(op.record)] else Without(s.ops, id))
    case RecordCreation(id, statusOk, o) =>
      if !op.Recording? then s
      else if !statusOk then done
      else done.(files := Updated(s.files, op.record.(created := true), o),
                 granted := if o.Landed? then s.granted + {(op.record.runId, op.record.path)} else s.granted)
    case Read(id, readable) =>
      if !op.Reading? then s
      else if !(readable && op.path in s.files && s.files[op.path].Written?) then done
      else
        var r := s.files[op.path].record;
        if r.runId != op.runId || r.path != op.path || r.released then done
        else if !r.created then s.(ops := s.ops[id := Closing(r)])
        else s.(ops := s.ops[id := Listing(r, op.remove)])
    case Close(id, o) =>
      if !op.Closing? then s else done.(files := Updated(s.files, op.record.(released := true), o))
    case List(id, gitOk) =>
      if !op.Listing? then s
      else if !gitOk || op.record.path !in s.registered then done
      else s.(ops := s.ops[id := if op.remove then Removing(op.record) else Finishing(op.record)])
    case Remove(id, o) =>
      if !op.Removing? then s
      else if op.record.path !in s.registered then done
      else if o.Cleared? then
        s.(dirs := Outside(s.dirs, op.record.path), registered := s.registered - {op.record.path},
           ops := s.ops[id := Pruning(op.record)])
      else
        done.(dirs := Losing(s.dirs, op.record.path, o.lost),
              registered := if o.unregistered then s.registered - {op.record.path} else s.registered)
    case Prune(id, pruned) =>
      if !op.Pruning? then s
      else s.(registered := Pruned(s.registered, s.dirs, pruned), ops := s.ops[id := Sweeping(op.record)])
    case Sweep(id, rmOk) =>
      if !op.Sweeping? then s
      else s.(dirs := if rmOk then Outside(s.dirs, op.record.path) else s.dirs,
              ops := s.ops[id := Finishing(op.record)])
    case Finish(id, o) =>
      if !op.Finishing? then s else done.(files := Updated(s.files, op.record.(released := true), o))
  }

  function From(s: State, trace: seq<Action>): State {
    if trace == [] then s else Apply(From(s, trace[..|trace| - 1]), trace[|trace| - 1])
  }

  function After(trace: seq<Action>): State {
    From(Init(), trace)
  }

  lemma AfterMore(trace: seq<Action>, more: seq<Action>)
    requires more != []
    ensures After(trace + more) == Apply(After(trace + more[..|more| - 1]), more[|more| - 1])
  {
    assert (trace + more)[..|trace + more| - 1] == trace + more[..|more| - 1];
  }

  // ---- the invariant -----------------------------------------------------------------------

  /** The record of `p` is durable and names `runId`. */
  predicate Holds(files: Files, p: Path, runId: RunId) {
    p in files && files[p].Written? && files[p].record.runId == runId && files[p].record.path == p
  }

  /** An operation past its claim or its proof works for the run that holds the path. */
  predicate OpOk(s: State, op: Op) {
    op.Claiming? || op.Reading? || (
      && Holds(s.files, op.record.path, op.record.runId)
      && !op.record.released
      && (op.Adding? ==> op.record.path !in s.creator)
      && (op.Adding? || op.Recording? || op.Closing? <==> !op.record.created))
  }

  ghost predicate Inv(s: State) {
    && (forall p :: p in s.files && s.files[p].Written? ==> s.files[p].record.path == p)
    && (forall id :: id in s.ops ==> OpOk(s, s.ops[id]))
    && (forall i, j :: i in s.ops && j in s.ops && i != j && s.ops[i].Adding? && s.ops[j].Adding? ==>
          s.ops[i].record.path != s.ops[j].record.path)
    && (forall d :: d in s.dirs ==> d in s.creator)
    && (forall d :: d in s.registered ==> d in s.creator)
    && (forall d :: d in s.creator ==> Holds(s.files, d, s.creator[d]))
    && (forall g :: g in s.granted ==> Holds(s.files, g.1, g.0))
  }

  /** Every path keeps its holder. */
  predicate KeepsHolders(before: Files, after: Files) {
    forall p :: p in before ==> && p in after
                                && (before[p].Torn? ==> after[p].Torn?)
                                && (before[p].Written? && before[p].record.path == p ==>
                                      Holds(after, p, before[p].record.runId))
  }

  lemma HoldersStay(before: Files, after: Files, p: Path, runId: RunId)
    requires KeepsHolders(before, after) && Holds(before, p, runId)
    ensures Holds(after, p, runId)
  {
  }

  lemma UpdateKeepsHolders(files: Files, r: Record, o: Io)
    requires Holds(files, r.path, r.runId)
    requires forall p :: p in files && files[p].Written? ==> files[p].record.path == p
    ensures KeepsHolders(files, Updated(files, r, o))
    ensures forall p :: p in Updated(files, r, o) && Updated(files, r, o)[p].Written? ==>
                          Updated(files, r, o)[p].record.path == p
  {
  }

  /** One operation moves on, for the same path and run, and nothing else changes but the record directory. */
  lemma MoveKeepsInv(s: State, s': State, id: OpId, gone: bool, op': Op)
    requires Inv(s) && id in s.ops && KeepsHolders(s.files, s'.files)
    requires forall p :: p in s'.files && s'.files[p].Written? ==> s'.files[p].record.path == p
    requires s'.dirs <= s.dirs && s'.registered <= s.registered && s'.creator == s.creator
    requires forall g :: g in s'.granted && g !in s.granted ==> Holds(s'.files, g.1, g.0)
    requires s'.ops == if gone then Without(s.ops, id) else s.ops[id := op']
    requires !gone ==> OpOk(s', op') && !op'.Adding?
    ensures Inv(s')
  {
    forall i | i in s'.ops ensures OpOk(s', s'.ops[i]) {
      if gone || i != id {
        assert OpOk(s, s'.ops[i]);
      }
    }
    forall d | d in s'.creator ensures Holds(s'.files, d, s'.creator[d]) {
      HoldersStay(s.files, s'.files, d, s.creator[d]);
    }
    forall g | g in s'.granted ensures Holds(s'.files, g.1, g.0) {
      if g in s.granted {
        HoldersStay(s.files, s'.files, g.1, g.0);
      }
    }
  }

  lemma ClaimKeepsInv(s: State, a: Action)
    requires Inv(s) && a.Claim? && a.id in s.ops && s.ops[a.id].Claiming?
    ensures Inv(Apply(s, a)) && KeepsHolders(s.files, Apply(s, a).files)
  {
    var op, s' := s.ops[a.id], Apply(s, a);
    var r := Record(op.runId, op.path, false, false);
    assert KeepsHolders(s.files, s'.files);
    if !ClaimSucceeds(s.files, r, a.claim) {
      MoveKeepsInv(s, s', a.id, true, op);
    } else {
      forall i | i in s'.ops ensures OpOk(s', s'.ops[i]) {
        if i != a.id {
          assert OpOk(s, s.ops[i]);
        }
      }
      forall i | i in s.ops && s.ops[i].Adding? ensures s.ops[i].record.path != op.path {
        assert OpOk(s, s.ops[i]);
      }
    }
  }

  lemma AddKeepsInv(s: State, a: Action)
    requires Inv(s) && a.Add? && a.id in s.ops && s.ops[a.id].Adding?
    ensures Inv(Apply(s, a)) && Apply(s, a).files == s.files
  {
    var op, s' := s.ops[a.id], Apply(s, a);
    assert OpOk(s, op);
    forall i | i in s'.ops ensures OpOk(s', s'.ops[i]) {
      if i != a.id {
        assert OpOk(s, s.ops[i]);
      }
    }
  }

  lemma ActKeepsInv(s: State, a: Action)
    requires Inv(s) && !a.Crash? && !a.BeginProvision? && !a.BeginRelease? && a.id in s.ops
    ensures Inv(Apply(s, a)) && KeepsHolders(s.files, Apply(s, a).files)
  {
    hide Inv, Claimed, Holds, KeepsHolders, OpOk;
    var op, s' := s.ops[a.id], Apply(s, a);
    SameFiles(s);
    InFlightOk(s, a.id);
    match a
    case Claim(_, _) =>
      if op.Claiming? {
        ClaimKeepsInv(s, a);
      }
    case Add(_, _, _) =>
      if op.Adding? {
        AddKeepsInv(s, a);
      }
    case RecordCreation(_, statusOk, o) =>
      if op.Recording? {
        UpdateKeepsInv(s, s', a.id, op.record.(created := true), if statusOk then o else Lost);
      }
    case Read(_, _) =>
      if op.Reading? {
        ReadKeepsInv(s, a);
      }
    case Close(_, o) =>
      if op.Closing? {
        UpdateKeepsInv(s, s', a.id, op.record.(released := true), o);
      }
    case List(_, _) =>
      if op.Listing? {
        ProofKeepsInv(s, a);
      }
    case Remove(_, _) =>
      if op.Removing? {
        ProofKeepsInv(s, a);
      }
    case Prune(_, _) =>
      if op.Pruning? {
        ProofKeepsInv(s, a);
      }
    case Sweep(_, _) =>
      if op.Sweeping? {
        ProofKeepsInv(s, a);
      }
    case Finish(_, o) =>
      if op.Finishing? {
        UpdateKeepsInv(s, s', a.id, op.record.(released := true), o);
      }
  }

  lemma SameFiles(s: State)
    requires Inv(s)
    ensures KeepsHolders(s.files, s.files)
  {
  }

  lemma InFlightOk(s: State, id: OpId)
    requires Inv(s) && id in s.ops
    ensures OpOk(s, s.ops[id])
  {
  }

  /** The last step of an operation: it writes its record, or fails to, and is gone. */
  lemma UpdateKeepsInv(s: State, s': State, id: OpId, r: Record, o: Io)
    requires Inv(s) && id in s.ops && !s.ops[id].Claiming? && !s.ops[id].Reading?
    requires r.path == s.ops[id].record.path && r.runId == s.ops[id].record.runId
    requires s' == s.(files := Updated(s.files, r, o), ops := Without(s.ops, id), granted := s'.granted)
    requires s'.granted == s.granted || (o.Landed? && s'.granted == s.granted + {(r.runId, r.path)})
    ensures Inv(s') && KeepsHolders(s.files, s'.files)
  {
    hide Inv;
    InFlightOk(s, id);
    UpdateKeepsHoldersIn(s, r, o);
    MoveKeepsInv(s, s', id, true, s.ops[id]);
  }

  lemma UpdateKeepsHoldersIn(s: State, r: Record, o: Io)
    requires Inv(s) && Holds(s.files, r.path, r.runId)
    ensures KeepsHolders(s.files, Updated(s.files, r, o))
    ensures forall p :: p in Updated(s.files, r, o) && Updated(s.files, r, o)[p].Written? ==>
                          Updated(s.files, r, o)[p].record.path == p
  {
    UpdateKeepsHolders(s.files, r, o);
  }

  lemma ReadKeepsInv(s: State, a: Action)
    requires Inv(s) && a.Read? && a.id in s.ops && s.ops[a.id].Reading?
    ensures Inv(Apply(s, a)) && Apply(s, a).files == s.files
  {
    var s' := Apply(s, a);
    SameFiles(s);
    if a.id in s'.ops {
      assert OpOk(s', s'.ops[a.id]);
      hide Inv, OpOk, Holds, KeepsHolders;
      MoveKeepsInv(s, s', a.id, false, s'.ops[a.id]);
    } else {
      hide Inv, OpOk, Holds, KeepsHolders;
      MoveKeepsInv(s, s', a.id, true, s.ops[a.id]);
    }
  }

  lemma ProofKeepsInv(s: State, a: Action)
    requires Inv(s) && (a.List? || a.Remove? || a.Prune? || a.Sweep?) && a.id in s.ops
    requires a.List? ==> s.ops[a.id].Listing?
    requires a.Remove? ==> s.ops[a.id].Removing?
    requires a.Prune? ==> s.ops[a.id].Pruning?
    requires a.Sweep? ==> s.ops[a.id].Sweeping?
    ensures Inv(Apply(s, a)) && Apply(s, a).files == s.files
  {
    var s' := Apply(s, a);
    SameFiles(s);
    InFlightOk(s, a.id);
    if a.id in s'.ops {
      assert OpOk(s', s'.ops[a.id]);
      MoveKeepsInv(s, s', a.id, false, s'.ops[a.id]);
    } else {
      MoveKeepsInv(s, s', a.id, true, s.ops[a.id]);
    }
  }

  lemma StepKeepsInv(s: State, a: Action)
    requires Inv(s)
    ensures Inv(Apply(s, a)) && KeepsHolders(s.files, Apply(s, a).files)
  {
    if a.BeginProvision? || a.BeginRelease? {
      forall i | i in Apply(s, a).ops ensures OpOk(Apply(s, a), Apply(s, a).ops[i]) {
        if i in s.ops {
          assert OpOk(s, s.ops[i]);
        }
      }
    } else if !a.Crash? && a.id in s.ops {
      ActKeepsInv(s, a);
    }
  }

  lemma {:induction false} AlwaysInv(trace: seq<Action>)
    ensures Inv(After(trace))
  {
    if trace != [] {
      hide Inv, Apply, KeepsHolders;
      AlwaysInv(trace[..|trace| - 1]);
      StepKeepsInv(After(trace[..|trace| - 1]), trace[|trace| - 1]);
    } else {
      assert After(trace) == Init();
    }
  }

  // ---- what holds over every history -----------------------------------------------------------

  /** A claimed path stays with its run for ever, and a torn claim stays a torn claim. */
  lemma {:induction false} ClaimIsForEver(trace: seq<Action>, more: seq<Action>, p: Path)
    requires p in After(trace).files
    ensures p in After(trace + more).files
    ensures After(trace).files[p].Torn? ==> After(trace + more).files[p].Torn?
    ensures After(trace).files[p].Written? ==> Holds(After(trace + more).files, p, After(trace).files[p].record.runId)
  {
    if more == [] {
      assert trace + more == trace;
      AlwaysInv(trace);
    } else {
      hide Inv, Apply, Holds, After;
      var init, a := more[..|more| - 1], more[|more| - 1];
      ClaimIsForEver(trace, init, p);
      AfterMore(trace, more);
      var s := After(trace + init);
      AlwaysInv(trace + init);
      StepKeepsInv(s, a);
      if After(trace).files[p].Written? {
        HoldersStay(s.files, Apply(s, a).files, p, After(trace).files[p].record.runId);
      }
    }
  }

  /** Two runs are never handed the same directory. */
  lemma OneRunPerPath(trace: seq<Action>, one: RunId, other: RunId, p: Path)
    requires (one, p) in After(trace).granted && (other, p) in After(trace).granted
    ensures one == other
  {
    AlwaysInv(trace);
    hide After;
    assert Holds(After(trace).files, p, one) && Holds(After(trace).files, p, other) by {
      var g, h := (one, p), (other, p);
      assert g in After(trace).granted && h in After(trace).granted;
      assert Holds(After(trace).files, g.1, g.0) && Holds(After(trace).files, h.1, h.0);
    }
  }

  /**
   * Whatever crashed or failed, every directory git was told to create has a durable record naming the run
   * it is for.
   */
  lemma EveryDirectoryIsRecorded(trace: seq<Action>, d: Path)
    requires d in After(trace).dirs || d in After(trace).registered
    ensures d in After(trace).creator && Holds(After(trace).files, d, After(trace).creator[d])
  {
    AlwaysInv(trace);
  }

  /** git is told to create a path at most once in all histories. */
  lemma CreatedAtMostOnce(trace: seq<Action>, a: Action)
    requires a.Add? && a.id in After(trace).ops && After(trace).ops[a.id].Adding?
    ensures var p := After(trace).ops[a.id].record.path;
            p !in After(trace).creator && p !in After(trace).dirs && p !in After(trace).registered
  {
    AlwaysInv(trace);
    InFlightOk(After(trace), a.id);
  }

  /**
   * A directory disappears only when a release removes the path of a record that names its run, was read
   * as created and not released, and was listed by git; and it is that very path or lies below it.
   */
  lemma OnlyAProvenReleaseRemoves(trace: seq<Action>, a: Action, d: Path)
    requires d in After(trace).dirs && d !in Apply(After(trace), a).dirs
    ensures var s := After(trace);
            && (a.Remove? || a.Sweep?) && a.id in s.ops
            && (s.ops[a.id].Removing? || s.ops[a.id].Sweeping?)
            && var r := s.ops[a.id].record;
               && r.created && !r.released && Holds(s.files, r.path, r.runId)
               && (a.Remove? ==> r.path in s.registered)
               && r.path <= d && d in s.creator
               && (s.creator[d] == r.runId || (r.path != d && d in s.files && Holds(s.files, d, s.creator[d])))
  {
    var s := After(trace);
    AlwaysInv(trace);
    if !a.Crash? && !a.BeginProvision? && !a.BeginRelease? && a.id in s.ops {
      InFlightOk(s, a.id);
    }
  }

  /** git clears a path, or its empty remains are removed: what goes is what is at or below it. */
  predicate Takes(s: State, a: Action) {
    && (a.Remove? || a.Sweep?) && a.id in s.ops
    && (a.Remove? ==> s.ops[a.id].Removing? && a.removal.Cleared? && s.ops[a.id].record.path in s.registered)
    && (a.Sweep? ==> s.ops[a.id].Sweeping? && a.rmOk)
  }

  /**
   * A completed removal takes exactly what is at or below its path; so a run loses a directory to another
   * run's release if and only if the directory lies strictly below that one's path, although it is on
   * record as its own.
   */
  lemma RemovalTakesExactlyWhatIsBelow(trace: seq<Action>, a: Action, d: Path)
    requires Takes(After(trace), a) && d in After(trace).dirs
    ensures var s, r := After(trace), After(trace).ops[a.id].record;
            && d in s.creator && Holds(s.files, d, s.creator[d])
            && (d !in Apply(s, a).dirs <==> r.path <= d)
            && (r.path == d ==> s.creator[d] == r.runId)
            && (s.creator[d] != r.runId ==> (d !in Apply(s, a).dirs <==> r.path <= d && r.path != d))
  {
    AlwaysInv(trace);
    InFlightOk(After(trace), a.id);
  }

  /** A removal that fails half way takes nothing from outside its path either. */
  lemma IncompleteRemovalStaysBelow(trace: seq<Action>, a: Action, d: Path)
    requires a.Remove? && a.id in After(trace).ops && After(trace).ops[a.id].Removing? && a.removal.Incomplete?
    requires d in After(trace).dirs && !(After(trace).ops[a.id].record.path <= d)
    ensures d in Apply(After(trace), a).dirs && Apply(After(trace), a).files == After(trace).files
  {
  }

  // ---- removals that cannot be retried --------------------------------------------------------------

  /**
   * Created and not released, but git does not list it any more; and nothing that has got past the list is
   * in flight for this path.
   */
  ghost predicate Stuck(s: State, p: Path, r: Record) {
    && p in s.creator && p !in s.registered
    && p in s.files && s.files[p] == Written(r) && r.created && !r.released
    && forall id :: id in s.ops && s.ops[id].Target() == p ==> StillAsking(s.ops[id])
  }

  predicate StillAsking(op: Op) {
    op.Claiming? || op.Reading? || op.Listing?
  }

  lemma StuckIsQuiet(s: State, a: Action, p: Path, r: Record)
    requires Stuck(s, p, r) && Concerns(s, a, p) && r.path == p
    ensures Stuck(Apply(s, a), p, r)
    ensures Apply(s, a).files == s.files && Apply(s, a).dirs == s.dirs && Apply(s, a).registered == s.registered
  {
    if a.BeginProvision? || a.BeginRelease? {
      BeginningAsks(s, a, p);
    } else {
      assert StillAsking(s.ops[a.id]);
      ActIsLocal(s, a);
      RegistersOnlyItsPath(s, a);
      AskingStaysAsking(s, a, p, r);
    }
  }

  lemma BeginningAsks(s: State, a: Action, p: Path)
    requires a.BeginProvision? || a.BeginRelease?
    ensures var s' := Apply(s, a);
            && s' == s.(ops := s'.ops)
            && forall id :: id in s'.ops ==> StillAsking(s'.ops[id]) || (id in s.ops && s'.ops[id] == s.ops[id])
  {
  }

  lemma AskingStaysAsking(s: State, a: Action, p: Path, r: Record)
    requires !a.Crash? && !a.BeginProvision? && !a.BeginRelease? && a.id in s.ops && StillAsking(s.ops[a.id])
    requires s.ops[a.id].Target() == p && p !in s.registered && r.path == p
    requires p in s.files && s.files[p] == Written(r) && r.created
    ensures Apply(s, a) == s.(ops := Apply(s, a).ops)
    ensures a.id in Apply(s, a).ops ==> StillAsking(Apply(s, a).ops[a.id])
  {
  }

  lemma StuckStays(s: State, a: Action, p: Path, r: Record)
    requires Inv(s) && Stuck(s, p, r) && r.path == p
    ensures Stuck(Apply(s, a), p, r)
  {
    if Concerns(s, a, p) {
      StuckIsQuiet(s, a, p, r);
    } else if a.BeginProvision? || a.BeginRelease? {
    } else if !a.Crash? && a.id in s.ops {
      ActIsLocal(s, a);
      RegistersOnlyItsPath(s, a);
      hide Apply, Inv;
    }
  }

  /**
   * The record of a failed removal is left open for a retry. Once the registration is gone, though, no
   * later call of any run, in this process or another, removes the directory or closes the record.
   */
  lemma {:induction false} UnregisteredStaysOpen(trace: seq<Action>, more: seq<Action>, a: Action, p: Path, r: Record)
    requires Stuck(After(trace), p, r) && r.path == p
    ensures Stuck(After(trace + more), p, r)
    ensures var s := After(trace + more);
            Concerns(s, a, p) ==>
              Apply(s, a).files == s.files && Apply(s, a).dirs == s.dirs && Apply(s, a).registered == s.registered
  {
    hide Inv, Apply, Stuck, Concerns, After;
    if more == [] {
      assert trace + more == trace;
    } else {
      var init, last := more[..|more| - 1], more[|more| - 1];
      UnregisteredStaysOpen(trace, init, last, p, r);
      AfterMore(trace, more);
      AlwaysInv(trace + init);
      StuckStays(After(trace + init), last, p, r);
    }
    if Concerns(After(trace + more), a, p) {
      StuckIsQuiet(After(trace + more), a, p, r);
    }
  }

  /** A removal that fails after unregistering its path gets there, if nothing else is in flight for it. */
  lemma IncompleteRemovalIsStuck(trace: seq<Action>, id: OpId, lost: set<Path>)
    requires var s := After(trace);
             && id in s.ops && s.ops[id].Removing? && s.ops[id].record.path in s.registered
             && s.ops[id].record.path in s.files && s.files[s.ops[id].record.path] == Written(s.ops[id].record)
             && forall i :: i in s.ops && i != id ==> s.ops[i].Target() != s.ops[id].record.path
    ensures var r := After(trace).ops[id].record;
            Stuck(Apply(After(trace), Remove(id, Incomplete(lost, true))), r.path, r)
  {
    AlwaysInv(trace);
    InFlightOk(After(trace), id);
  }

  // ---- releasing again ------------------------------------------------------------------------------

  /** Released, and nothing in flight for this path that could write to it or remove it. */
  ghost predicate Settled(s: State, p: Path) {
    && p in s.files && s.files[p].Written? && s.files[p].record.released
    && forall id :: id in s.ops && s.ops[id].Target() == p ==> s.ops[id].Claiming? || s.ops[id].Reading?
  }

  /** The path an action concerns. */
  predicate Concerns(s: State, a: Action, p: Path) {
    match a
    case Crash => false
    case BeginProvision(_, _, path) => path == p
    case BeginRelease(_, _, path, _) => path == p
    case _ => a.id in s.ops && s.ops[a.id].Target() == p
  }

  /** A step of an operation touches that operation and the record of its path only. */
  lemma ActIsLocal(s: State, a: Action)
    requires !a.Crash? && !a.BeginProvision? && !a.BeginRelease? && a.id in s.ops
    ensures var s', op := Apply(s, a), s.ops[a.id];
            && (forall id :: id != a.id ==>
                  (id in s'.ops <==> id in s.ops) && (id in s.ops ==> s'.ops[id] == s.ops[id]))
            && (a.id in s'.ops ==> s'.ops[a.id].Target() == op.Target())
            && (forall p :: p != op.Target() ==>
                  (p in s'.files <==> p in s.files) && (p in s.files ==> s'.files[p] == s.files[p]))
  {
    hide Outside, Losing, Pruned;
  }

  lemma RegistersOnlyItsPath(s: State, a: Action)
    requires !a.Crash? && !a.BeginProvision? && !a.BeginRelease? && a.id in s.ops
    ensures var s', op := Apply(s, a), s.ops[a.id];
            && (forall p :: p in s.creator ==> p in s'.creator)
            && (forall p :: p in s'.registered ==> p in s.registered || p == op.Target())
  {
    hide Outside, Losing, Claimed, Updated;
  }

  lemma SettledIsQuiet(s: State, a: Action, p: Path)
    requires Settled(s, p) && Concerns(s, a, p)
    ensures var s' := Apply(s, a); s'.files == s.files && s'.dirs == s.dirs && s'.registered == s.registered
    ensures forall id :: id in Apply(s, a).ops ==>
              Apply(s, a).ops[id].Claiming? || Apply(s, a).ops[id].Reading?
              || (id in s.ops && Apply(s, a).ops[id] == s.ops[id])
  {
  }

  lemma SettledStays(s: State, a: Action, p: Path)
    requires Settled(s, p)
    ensures Settled(Apply(s, a), p)
  {
    if Concerns(s, a, p) {
      SettledIsQuiet(s, a, p);
      hide Apply;
    } else if !a.Crash? && !a.BeginProvision? && !a.BeginRelease? && a.id in s.ops {
      ActIsLocal(s, a);
      hide Apply;
    }
  }

  /**
   * Once a release is on record and nothing else is in flight for the path, it stays so through every
   * further history, and no release or provision of the path changes anything on disk: releasing again
   * is harmless, and the path cannot be claimed again.
   */
  lemma {:induction false} ReleasingAgainIsHarmless(trace: seq<Action>, more: seq<Action>, a: Action, p: Path)
    requires Settled(After(trace), p)
    ensures Settled(After(trace + more), p)
    ensures var s := After(trace + more);
            Concerns(s, a, p) ==>
              Apply(s, a).files == s.files && Apply(s, a).dirs == s.dirs && Apply(s, a).registered == s.registered
  {
    hide Inv, Apply, Settled, Concerns, After;
    if more == [] {
      assert trace + more == trace;
    } else {
      var init, last := more[..|more| - 1], more[|more| - 1];
      ReleasingAgainIsHarmless(trace, init, last, p);
      AfterMore(trace, more);
      SettledStays(After(trace + init), last, p);
    }
    if Concerns(After(trace + more), a, p) {
      SettledIsQuiet(After(trace + more), a, p);
    }
  }

  // ---- undisturbed operations ---------------------------------------------------------------------------

  lemma {:induction false} FromOn(s: State, a: seq<Action>, b: seq<Action>)
    ensures From(s, a + b) == From(From(s, a), b)
  {
    if b == [] {
      assert a + b == a;
    } else {
      FromOn(s, a, b[..|b| - 1]);
      assert (a + b)[..|a + b| - 1] == a + b[..|b| - 1];
    }
  }

  function Provisioning(id: OpId, runId: RunId, p: Path): seq<Action> {
    [BeginProvision(id, runId, p), Claim(id, Whole)] + [Add(id, true, Added), RecordCreation(id, true, Landed)]
  }

  function Releasing(id: OpId, runId: RunId, p: Path, pruned: set<Path>): seq<Action> {
    [BeginRelease(id, runId, p, true), Read(id, true)] + [List(id, true), Remove(id, Cleared)]
    + [Prune(id, pruned)] + [Sweep(id, true), Finish(id, Landed)]
  }

  lemma TwoSteps(s: State, a: Action, b: Action)
    ensures From(s, [a, b]) == Apply(Apply(s, a), b)
  {
    hide Apply;
    assert [a, b][..1] == [a] && [a][..0] == [];
    assert From(s, [a]) == Apply(s, a);
  }

  /** Without failures an unclaimed path is handed over, recorded, created and registered. */
  lemma ProvisionHandsOver(s: State, id: OpId, runId: RunId, p: Path)
    requires id !in s.ops && p !in s.files
    ensures From(s, Provisioning(id, runId, p))
         == s.(files := s.files[p := Written(Record(runId, p, true, false))], dirs := s.dirs + {p},
               registered := s.registered + {p}, creator := s.creator[p := runId], granted := s.granted + {(runId, p)})
  {
    hide From;
    var r := Record(runId, p, false, false);
    FromOn(s, [BeginProvision(id, runId, p), Claim(id, Whole)],
           [Add(id, true, Added), RecordCreation(id, true, Landed)]);
    TwoSteps(s, BeginProvision(id, runId, p), Claim(id, Whole));
    var claimed := s.(files := s.files[p := Written(r)], ops := s.ops[id := Adding(r)]);
    assert Apply(s.(ops := s.ops[id := Claiming(runId, p)]), Claim(id, Whole)) == claimed by {
      assert s.ops[id := Claiming(runId, p)][id := Adding(r)] == s.ops[id := Adding(r)];
    }
    TwoSteps(claimed, Add(id, true, Added), RecordCreation(id, true, Landed));
    ClaimedIsCreated(s, id, r);
  }

  lemma ClaimedIsCreated(s: State, id: OpId, r: Record)
    requires id !in s.ops && r.path !in s.files && !r.created && !r.released
    ensures Apply(Apply(s.(files := s.files[r.path := Written(r)], ops := s.ops[id := Adding(r)]),
                        Add(id, true, Added)), RecordCreation(id, true, Landed))
         == s.(files := s.files[r.path := Written(r.(created := true))], dirs := s.dirs + {r.path},
               registered := s.registered + {r.path}, creator := s.creator[r.path := r.runId],
               granted := s.granted + {(r.runId, r.path)})
  {
    var files := s.files[r.path := Written(r)];
    assert files[r.path := Written(r.(created := true))] == s.files[r.path := Written(r.(created := true))];
    assert Without(s.ops[id := Adding(r)][id := Recording(r)], id) == s.ops;
  }

  lemma OneStep(s: State, a: Action)
    ensures From(s, [a]) == Apply(s, a)
  {
    assert [a][..0] == [];
  }

  /**
   * Without failures its owner's release removes the directory and everything below it, drops the
   * registrations that lost their directory as far as git prunes them, and closes the record.
   */
  lemma ReleaseRemoves(s: State, id: OpId, r: Record, pruned: set<Path>)
    requires id !in s.ops && r.created && !r.released && r.path in s.registered
    requires r.path in s.files && s.files[r.path] == Written(r)
    ensures var dirs := Outside(s.dirs, r.path);
            From(s, Releasing(id, r.runId, r.path, pruned))
            == s.(files := s.files[r.path := Written(r.(released := true))], dirs := dirs,
                  registered := Pruned(s.registered - {r.path}, dirs, pruned))
  {
    hide From, Outside, Pruned, Without;
    var begin, prove, end := [BeginRelease(id, r.runId, r.path, true), Read(id, true)],
                             [List(id, true), Remove(id, Cleared)], [Sweep(id, true), Finish(id, Landed)];
    FromOn(s, begin + prove + [Prune(id, pruned)], end);
    FromOn(s, begin + prove, [Prune(id, pruned)]);
    FromOn(s, begin, prove);
    TwoSteps(s, begin[0], begin[1]);
    var s2 := s.(ops := s.ops[id := Listing(r, true)]);
    assert From(s, begin) == s2 by {
      assert s.ops[id := Reading(r.runId, r.path, true)][id := Listing(r, true)] == s.ops[id := Listing(r, true)];
    }
    TwoSteps(s2, prove[0], prove[1]);
    ProvenIsRemoved(s, id, r);
    var dirs := Outside(s.dirs, r.path);
    var s4 := s.(dirs := dirs, registered := s.registered - {r.path}, ops := s.ops[id := Pruning(r)]);
    OneStep(s4, Prune(id, pruned));
    var s5 := s4.(registered := Pruned(s4.registered, dirs, pruned), ops := s.ops[id := Sweeping(r)]);
    assert Apply(s4, Prune(id, pruned)) == s5 by {
      assert s.ops[id := Pruning(r)][id := Sweeping(r)] == s.ops[id := Sweeping(r)];
    }
    TwoSteps(s5, end[0], end[1]);
    RemovedIsReleased(s, id, r, s5.registered);
  }

  lemma ProvenIsRemoved(s: State, id: OpId, r: Record)
    requires r.path in s.registered
    ensures Apply(Apply(s.(ops := s.ops[id := Listing(r, true)]), List(id, true)), Remove(id, Cleared))
         == s.(dirs := Outside(s.dirs, r.path), registered := s.registered - {r.path}, ops := s.ops[id := Pruning(r)])
  {
    hide Outside;
    assert s.ops[id := Listing(r, true)][id := Removing(r)] == s.ops[id := Removing(r)];
    assert s.ops[id := Removing(r)][id := Pruning(r)] == s.ops[id := Pruning(r)];
  }

  lemma RemovedIsReleased(s: State, id: OpId, r: Record, registered: set<Path>)
    requires id !in s.ops
    ensures Apply(Apply(s.(dirs := Outside(s.dirs, r.path), registered := registered, ops := s.ops[id := Sweeping(r)]),
                        Sweep(id, true)), Finish(id, Landed))
         == s.(files := s.files[r.path := Written(r.(released := true))], dirs := Outside(s.dirs, r.path),
               registered := registered)
  {
    assert Outside(Outside(s.dirs, r.path), r.path) == Outside(s.dirs, r.path);
    assert s.ops[id := Sweeping(r)][id := Finishing(r)] == s.ops[id := Finishing(r)];
    assert Without(s.ops[id := Finishing(r)], id) == s.ops;
  }

  function BothProvisioned(one: RunId, other: RunId): seq<Action> {
    Provisioning(0, one, ["w"]) + Provisioning(1, other, ["w", "x"])
  }

  /**
   * Claims are per exact path: one run can hold a directory below another's, and lose it to that one's
   * release. If git prunes the lost one's registration too, its record can never be closed again.
   */
  lemma NestedWorktreeGoesToo(one: RunId, other: RunId, pruned: set<Path>)
    ensures var before := After(BothProvisioned(one, other));
            var after := From(before, Releasing(2, one, ["w"], pruned));
            && (other, ["w", "x"]) in before.granted && ["w", "x"] in before.dirs
            && ["w", "x"] !in after.dirs && Holds(after.files, ["w", "x"], other)
            && (["w", "x"] in pruned ==> Stuck(after, ["w", "x"], Record(other, ["w", "x"], true, false)))
  {
    var p, q: Path := ["w"], ["w", "x"];
    assert p != q && p <= q;
    ProvisionHandsOver(Init(), 0, one, p);
    var s := From(Init(), Provisioning(0, one, p));
    ProvisionHandsOver(s, 1, other, q);
    FromOn(Init(), Provisioning(0, one, p), Provisioning(1, other, q));
    hide From, Provisioning, Releasing;
    var before := From(s, Provisioning(1, other, q));
    ReleaseRemoves(before, 2, Record(one, p, true, false), pruned);
  }
}
