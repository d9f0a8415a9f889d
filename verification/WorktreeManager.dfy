/** The manager's own code for one provision or release, over the record directory, the filesystem and git. */
module WorktreeManager {
  import opened Options
  import opened Runs
  import opened PathContainment
  import opened Worktrees

  /**
   * What the repository is found to be before anything is claimed: its work tree root, if git finds one,
   * whether its configuration passes the audit, the base commit is there, and a branch can be named.
   */
  datatype RepositoryAnswers = RepositoryAnswers(topLevel: Option<string>, audited: bool,
                                               commitFound: bool, branchOk: bool)

  /** How the record directory and git answer one provision, and one release. */
  datatype ProvisionAnswers = ProvisionAnswers(
    claim: ClaimOutcome, readable: bool, parentOk: bool, add: AddOutcome, statusOk: bool, write: Io)

  datatype ReleaseAnswers = ReleaseAnswers(
    readable: bool, listed: bool, removal: RemovalOutcome, pruned: set<Path>, rmOk: bool, close: Io)

  /** The steps of the protocol a call may take; those that do not apply change nothing. */
  function ProvisionSteps(runId: RunId, path: Path, w: ProvisionAnswers): seq<Action> {
    [BeginProvision(0, runId, path), Claim(0, w.claim), Add(0, w.parentOk, w.add),
     RecordCreation(0, w.statusOk, w.write)]
  }

  function ReleaseSteps(runId: RunId, path: Path, remove: bool, w: ReleaseAnswers): seq<Action> {
    [BeginRelease(0, runId, path, remove), Action.Read(0, w.readable), Close(0, w.close)]
    + [List(0, w.listed), Remove(0, w.removal)] + [Prune(0, w.pruned), Sweep(0, w.rmOk), Finish(0, w.close)]
  }

  lemma FourSteps(s: State, a: Action, b: Action, c: Action, d: Action)
    ensures From(s, [a, b, c, d]) == Apply(Apply(Apply(Apply(s, a), b), c), d)
  {
    hide Apply;
    TwoSteps(s, a, b);
    TwoSteps(From(s, [a, b]), c, d);
    FromOn(s, [a, b], [c, d]);
    assert [a, b] + [c, d] == [a, b, c, d];
  }

  lemma ThreeSteps(s: State, a: Action, b: Action, c: Action)
    ensures From(s, [a, b, c]) == Apply(Apply(Apply(s, a), b), c)
  {
    hide Apply;
    TwoSteps(s, a, b);
    OneStep(From(s, [a, b]), c);
    FromOn(s, [a, b], [c]);
    assert [a, b] + [c] == [a, b, c];
  }

  /** Without an operation in flight there is nothing to act on. */
  lemma Idle(s: State, a: Action)
    requires s.ops == map[] && !a.BeginProvision? && !a.BeginRelease?
    ensures Apply(s, a) == s
  {
  }

  // ---- the steps of a call that is alone ----------------------------------------------------

  lemma BeginStep(s: State, runId: RunId, p: Path, remove: bool)
    requires s.ops == map[]
    ensures Apply(s, BeginProvision(0, runId, p)) == s.(ops := map[0 := Claiming(runId, p)])
    ensures Apply(s, BeginRelease(0, runId, p, remove)) == s.(ops := map[0 := Reading(runId, p, remove)])
  {
  }

  lemma ClaimStep(s: State, runId: RunId, p: Path, o: ClaimOutcome)
    requires s.ops == map[0 := Claiming(runId, p)]
    ensures var r := Record(runId, p, false, false);
            Apply(s, Claim(0, o)) == s.(files := Claimed(s.files, r, o),
                                        ops := if ClaimSucceeds(s.files, r, o) then map[0 := Adding(r)] else map[])
  {
  }

  lemma AddStep(s: State, r: Record, parentOk: bool, o: AddOutcome)
    requires s.ops == map[0 := Adding(r)]
    ensures var s' := Apply(s, Add(0, parentOk, o));
            && s'.files == s.files && s'.granted == s.granted
            && s'.dirs == (if parentOk && (o.Added? || o.dirLeft) then s.dirs + {r.path} else s.dirs)
            && s'.registered == (if parentOk && (o.Added? || o.registeredLeft)
                                   then s.registered + {r.path} else s.registered)
            && s'.ops == if parentOk && o.Added? then map[0 := Recording(r)] else map[]
  {
  }

  lemma CreatedStep(s: State, r: Record, statusOk: bool, w: Io)
    requires s.ops == map[0 := Recording(r)]
    ensures Apply(s, RecordCreation(0, statusOk, w))
         == s.(files := if statusOk then Updated(s.files, r.(created := true), w) else s.files, ops := map[],
               granted := if statusOk && w.Landed? then s.granted + {(r.runId, r.path)} else s.granted)
  {
  }

  lemma ReadStep(s: State, runId: RunId, p: Path, remove: bool, readable: bool)
    requires s.ops == map[0 := Reading(runId, p, remove)]
    ensures Apply(s, Action.Read(0, readable)) == s.(ops :=
              if !readable || p !in s.files || s.files[p].Torn? then map[]
              else var r := s.files[p].record;
                if r.runId != runId || r.path != p || r.released then map[]
                else map[0 := if r.created then Listing(r, remove) else Closing(r)])
  {
  }

  lemma CloseStep(s: State, r: Record, w: Io)
    ensures s.ops == map[0 := Closing(r)] ==>
              Apply(s, Close(0, w)) == s.(files := Updated(s.files, r.(released := true), w), ops := map[])
    ensures s.ops == map[0 := Finishing(r)] ==>
              Apply(s, Finish(0, w)) == s.(files := Updated(s.files, r.(released := true), w), ops := map[])
  {
  }

  lemma ListStep(s: State, r: Record, remove: bool, gitOk: bool)
    requires s.ops == map[0 := Listing(r, remove)]
    ensures forall w :: Apply(s, Close(0, w)) == s
    ensures Apply(s, List(0, gitOk)) == s.(ops :=
              if !gitOk || r.path !in s.registered then map[]
              else map[0 := if remove then Removing(r) else Finishing(r)])
  {
  }

  lemma RemoveStep(s: State, r: Record, o: RemovalOutcome)
    requires r.path in s.registered
    ensures s.ops == map[0 := Removing(r)] && o.Cleared? ==>
              Apply(s, Remove(0, o)) == s.(dirs := Outside(s.dirs, r.path), registered := s.registered - {r.path},
                                           ops := map[0 := Pruning(r)])
    ensures s.ops == map[0 := Removing(r)] && o.Incomplete? ==>
              Apply(s, Remove(0, o)) == s.(dirs := Losing(s.dirs, r.path, o.lost), ops := map[],
                                           registered := if o.unregistered then s.registered - {r.path}
                                                           else s.registered)
    ensures s.ops == map[0 := Finishing(r)] ==> Apply(s, Remove(0, o)) == s
  {
    hide Outside, Losing;
  }

  lemma PruneStep(s: State, r: Record, pruned: set<Path>)
    ensures s.ops == map[0 := Pruning(r)] ==>
              Apply(s, Prune(0, pruned))
              == s.(registered := Pruned(s.registered, s.dirs, pruned), ops := map[0 := Sweeping(r)])
    ensures s.ops == map[0 := Finishing(r)] ==> Apply(s, Prune(0, pruned)) == s
  {
    hide Pruned;
  }

  lemma SweepStep(s: State, r: Record, rmOk: bool)
    ensures s.ops == map[0 := Sweeping(r)] ==>
              Apply(s, Sweep(0, rmOk)) == s.(dirs := if rmOk then Outside(s.dirs, r.path) else s.dirs,
                                             ops := map[0 := Finishing(r)])
    ensures s.ops == map[0 := Finishing(r)] ==> Apply(s, Sweep(0, rmOk)) == s
  {
    hide Outside;
  }

  // ---- the manager --------------------------------------------------------------------------

  datatype Released = Released(record: Record, removed: bool)

  /** What a requested path stands for: it is inside the root, through every link, and not the root itself. */
  predicate Grants(realpath: Path -> Option<Path>, root: Path, target: string, rootMade: bool) {
    && rootMade && Inside(realpath, target, Render(root))
    && ExistingAncestor(realpath, Resolve("", target)) != ExistingAncestor(realpath, root)
  }

  /** A claim is made only for such a path, apart from the primary checkout of a repository that passes. */
  predicate Admits(realpath: Path -> Option<Path>, root: Path, target: string, rootMade: bool,
                   repo: RepositoryAnswers) {
    && Grants(realpath, root, target, rootMade)
    && repo.topLevel.Some? && repo.audited && repo.commitFound && repo.branchOk
    && var path := ExistingAncestor(realpath, Resolve("", target));
    && var checkout := ExistingAncestor(realpath, Resolve("", repo.topLevel.value));
    && !Inside(realpath, Render(path), Render(checkout)) && !Inside(realpath, Render(checkout), Render(path))
  }

  class Manager {
    const records: RecordStore
    /** Resolved when the manager is made. */
    const root: Path
    /** What git and the filesystem hold. */
    var dirs: set<Path>
    var registered: set<Path>
    ghost var s: State

    ghost predicate Mirrors()
      reads this, records
    {
      s.files == records.files && s.dirs == dirs && s.registered == registered
    }

    /** The protocol's invariant holds of what is on disk, and no call is in flight. */
    ghost predicate Valid()
      reads this, records
    {
      Mirrors() && Inv(s) && s.ops == map[] && PathContainment.Valid(root)
    }

    /** A new process, over whatever a history of calls and crashes has left. */
    constructor (records: RecordStore, cwd: string, root: string, dirs: set<Path>, registered: set<Path>,
                 ghost trace: seq<Action>)
      requires var found := Apply(After(trace), Crash);
               found.files == records.files && found.dirs == dirs && found.registered == registered
      ensures Valid() && this.records == records && this.root == Resolve(cwd, root) && s == Apply(After(trace), Crash)
    {
      this.records, this.dirs, this.registered := records, dirs, registered;
      this.root := Resolve(cwd, root);
      s := Apply(After(trace), Crash);
      new;
      AlwaysInv(trace);
      StepKeepsInv(After(trace), Crash);
      ResolveIsValid(cwd, root);
    }

    /** The canonical form of a path, proved to be inside the root. */
    method Canonicalise(realpath: Path -> Option<Path>, target: string, rootMade: bool) returns (r: Option<Path>)
      requires AnswersValid(realpath) && PathContainment.Valid(root)
      ensures r.Some? <==> Grants(realpath, root, target, rootMade)
      ensures r.Some? <==> && rootMade && Inside(realpath, target, Render(root))
                           && ExistingAncestor(realpath, Resolve("", target)) != ExistingAncestor(realpath, root)
      ensures r.Some? ==> r.value == ExistingAncestor(realpath, Resolve("", target))
    {
      hide Inside, ExistingAncestor, Resolve, AnswersValid;
      if !IsAbsolute(target) {
        InsideIsAbsolute(realpath, target, Render(root));
        return None;
      }
      if !rootMade {
        return None;
      }
      var contained := AssertContained(realpath, target, Render(root), false);
      if contained.None? {
        return None;
      }
      var canonicalRoot := ResolveExistingAncestor(realpath, root);
      if contained.value == canonicalRoot {
        return None;
      }
      r := contained;
    }

    /** git worktree add: it succeeds, or fails and may leave something behind. */
    method GitWorktreeAdd(path: Path, o: AddOutcome) returns (ok: bool)
      modifies `dirs, `registered
      ensures ok == o.Added?
      ensures dirs == if o.Added? || o.dirLeft then old(dirs) + {path} else old(dirs)
      ensures registered == if o.Added? || o.registeredLeft then old(registered) + {path} else old(registered)
    {
      ok := o.Added?;
      if ok || o.dirLeft {
        dirs := dirs + {path};
      }
      if ok || o.registeredLeft {
        registered := registered + {path};
      }
    }

    /** git worktree remove: it clears the path, or fails and may have taken something. */
    method GitWorktreeRemove(path: Path, o: RemovalOutcome) returns (ok: bool)
      modifies `dirs, `registered
      ensures ok == o.Cleared?
      ensures dirs == if o.Cleared? then Outside(old(dirs), path) else Losing(old(dirs), path, o.lost)
      ensures registered == if o.Cleared? || o.unregistered then old(registered) - {path} else old(registered)
    {
      ok := o.Cleared?;
      dirs := if ok then Outside(dirs, path) else Losing(dirs, path, o.lost);
      if ok || o.unregistered {
        registered := registered - {path};
      }
    }

    /**
     * Prove the path and the repository, then claim, create, record, in this order. Without the proofs
     * nothing happens; with them these are the protocol's steps. A path on record is refused and nothing
     * changes; a path handed over was nobody's, exists, is registered, and is on record as created.
     */
    method Provision(runId: RunId, target: string, realpath: Path -> Option<Path>, rootMade: bool,
                     repo: RepositoryAnswers, w: ProvisionAnswers) returns (r: Option<Record>)
      requires Valid() && AnswersValid(realpath)
      modifies this, records
      ensures Valid()
      ensures r.Some? ==>
                && Inside(realpath, target, Render(root)) && repo.topLevel.Some?
                && repo.audited && repo.commitFound && repo.branchOk
                && var checkout := ExistingAncestor(realpath, Resolve("", repo.topLevel.value));
                   && !Inside(realpath, Render(r.value.path), Render(checkout))
                   && !Inside(realpath, Render(checkout), Render(r.value.path))
      ensures !Admits(realpath, root, target, rootMade, repo) ==>
                r.None? && s == old(s) && records.files == old(records.files)
                && dirs == old(dirs) && registered == old(registered)
      ensures var path := ExistingAncestor(realpath, Resolve("", target));
              && (Admits(realpath, root, target, rootMade, repo) ==>
                    s == From(old(s), ProvisionSteps(runId, path, w)))
              && (r.Some? <==> Admits(realpath, root, target, rootMade, repo) && path !in old(records.files)
                               && w.claim.Whole? && w.parentOk && w.add.Added? && w.statusOk && w.write.Landed?)
              && (path in old(records.files) ==>
                    records.files == old(records.files) && dirs == old(dirs) && registered == old(registered))
              && (r.Some? ==>
                    && r.value == Record(runId, path, true, false)
                    && path in records.files && records.files[path] == Written(r.value)
                    && path in dirs && path in registered && (runId, path) in s.granted)
    {
      hide Inside, ExistingAncestor, Resolve, AnswersValid, Render, Inv, From;
      var canonical := Canonicalise(realpath, target, rootMade);
      if canonical.None? || repo.topLevel.None? {
        return None;
      }
      var path := canonical.value;
      CanonicalIsValid(realpath, target);
      CanonicalIsValid(realpath, repo.topLevel.value);
      var checkout := ResolveExistingAncestor(realpath, Resolve("", repo.topLevel.value));
      var within := AssertContained(realpath, Render(path), Render(checkout), false);
      var around := AssertContained(realpath, Render(checkout), Render(path), false);
      if within.Some? || around.Some? {
        return None;
      }
      if !repo.audited || !repo.commitFound || !repo.branchOk {
        return None;
      }
      r := ClaimAndCreate(runId, path, w);
    }

    /** The second half of a provision, once the path is proved. */
    method ClaimAndCreate(runId: RunId, path: Path, w: ProvisionAnswers) returns (r: Option<Record>)
      requires Valid()
      modifies this, records
      ensures Valid() && s == From(old(s), ProvisionSteps(runId, path, w))
      ensures r.Some? <==> path !in old(records.files) && w.claim.Whole? && w.parentOk && w.add.Added? && w.statusOk
                           && w.write.Landed?
      ensures path in old(records.files) ==>
                records.files == old(records.files) && dirs == old(dirs) && registered == old(registered)
      ensures r.Some? ==>
                && r.value == Record(runId, path, true, false)
                && path in records.files && records.files[path] == Written(r.value)
                && path in dirs && path in registered && (runId, path) in s.granted
    {
      hide Inv, Claimed, Apply, From;
      var record := Record(runId, path, false, false);
      ghost var s1 := Apply(s, BeginProvision(0, runId, path));
      ghost var s2 := Apply(s1, Claim(0, w.claim));
      ghost var s3 := Apply(s2, Add(0, w.parentOk, w.add));
      FourSteps(s, BeginProvision(0, runId, path), Claim(0, w.claim), Add(0, w.parentOk, w.add),
                RecordCreation(0, w.statusOk, w.write));
      BeginStep(s, runId, path, false);
      ClaimStep(s1, runId, path, w.claim);
      ClaimLeaves(s.files, record, w.claim);
      FourKeepInv(s, BeginProvision(0, runId, path), Claim(0, w.claim), Add(0, w.parentOk, w.add),
                  RecordCreation(0, w.statusOk, w.write));
      s := Apply(s3, RecordCreation(0, w.statusOk, w.write));

      var claimed := records.Claim(record, w.claim, w.readable);
      if !claimed.Ok? {
        Idle(s2, Add(0, w.parentOk, w.add));
        Idle(s3, RecordCreation(0, w.statusOk, w.write));
        return None;
      }
      AddStep(s2, record, w.parentOk, w.add);
      if !w.parentOk {
        Idle(s3, RecordCreation(0, w.statusOk, w.write));
        return None;
      }
      var added := GitWorktreeAdd(path, w.add);
      if !added {
        Idle(s3, RecordCreation(0, w.statusOk, w.write));
        return None;
      }
      CreatedStep(s3, record, w.statusOk, w.write);
      if !w.statusOk {
        return None;
      }
      var recorded := records.Update(record.(created := true), w.write);
      r := if recorded then Some(record.(created := true)) else None;
    }

    /**
     * The protocol's steps again, for the canonical path. Nothing is removed unless the record names this
     * run and was created and not released, and git lists the path; a second release changes nothing.
     */
    method Release(runId: RunId, target: string, remove: bool, realpath: Path -> Option<Path>, rootMade: bool,
                   w: ReleaseAnswers) returns (r: Option<Released>)
      requires Valid() && AnswersValid(realpath)
      modifies this, records
      ensures Valid()
      ensures !Grants(realpath, root, target, rootMade) ==>
                r.None? && s == old(s) && records.files == old(records.files)
                && dirs == old(dirs) && registered == old(registered)
      ensures var path := ExistingAncestor(realpath, Resolve("", target));
              Grants(realpath, root, target, rootMade) ==>
                && s == From(old(s), ReleaseSteps(runId, path, remove, w))
                && r == ReleaseAnswer(old(records.files), old(registered), runId, path, remove, w)
                && dirs == DirsAfter(old(records.files), old(dirs), old(registered), runId, path, remove, w)
    {
      hide Inside, ExistingAncestor, Resolve, AnswersValid, Render, Inv, From, ReleaseAnswer, DirsAfter;
      var canonical := Canonicalise(realpath, target, rootMade);
      if canonical.None? {
        return None;
      }
      r := ReleaseProven(runId, canonical.value, remove, w);
    }

    method ReleaseProven(runId: RunId, path: Path, remove: bool, w: ReleaseAnswers) returns (r: Option<Released>)
      requires Valid()
      modifies this, records
      ensures Valid() && s == From(old(s), ReleaseSteps(runId, path, remove, w))
      ensures r == ReleaseAnswer(old(records.files), old(registered), runId, path, remove, w)
      ensures dirs == DirsAfter(old(records.files), old(dirs), old(registered), runId, path, remove, w)
    {
      hide Inv, Apply, From, Outside, Losing, Pruned;
      ghost var s0 := s;
      ghost var s1 := Apply(s0, BeginRelease(0, runId, path, remove));
      ghost var s2 := Apply(s1, Action.Read(0, w.readable));
      ghost var s3 := Apply(s2, Close(0, w.close));
      ghost var s4 := Apply(s3, List(0, w.listed));
      ReleaseUnrolled(s0, runId, path, remove, w);
      BeginStep(s0, runId, path, remove);
      ReadStep(s1, runId, path, remove, w.readable);
      RecordsSayTheirPath(s0);

      var read := records.Read(path, w.readable);
      if read.None? || read.value.runId != runId || read.value.path != path {
        IdleToTheEnd(s2, w);
        s := s2;
        return None;
      }
      var record := read.value;
      if record.released {
        IdleToTheEnd(s2, w);
        s := s2;
        return Some(Released(record, false));
      }
      CloseStep(s2, record, w.close);
      if !record.created {
        IdleFromList(s3, w);
        s := s3;
        var closed := records.Update(record.(released := true), w.close);
        return if closed then Some(Released(record.(released := true), false)) else None;
      }
      ListStep(s2, record, remove, w.listed);
      if !w.listed || path !in registered {
        IdleFromRemove(s4, w);
        s := s4;
        return None;
      }
      s := s4;
      r := RemoveAndClose(record, remove, w);
    }

    /** The last part of a release, once git has listed the path of the record. */
    method RemoveAndClose(record: Record, remove: bool, w: ReleaseAnswers) returns (r: Option<Released>)
      requires Mirrors() && record.path in registered
      requires s.ops == map[0 := if remove then Removing(record) else Finishing(record)]
      modifies this, records
      ensures Mirrors() && s.ops == map[] && s == ToTheEnd(old(s), w)
      ensures r.Some? <==> (remove ==> w.removal.Cleared?) && w.close.Landed?
      ensures r.Some? ==> r.value == Released(record.(released := true), remove)
      ensures dirs == if !remove then old(dirs)
                      else if w.removal.Cleared? then Outside(old(dirs), record.path)
                      else Losing(old(dirs), record.path, w.removal.lost)
    {
      hide Apply, Outside, Losing, Pruned, Updated;
      ghost var s4 := s;
      ghost var s5 := Apply(s4, Remove(0, w.removal));
      ghost var s6 := Apply(s5, Prune(0, w.pruned));
      ghost var s7 := Apply(s6, Sweep(0, w.rmOk));
      RemoveStep(s4, record, w.removal);
      PruneStep(s5, record, w.pruned);
      SweepStep(s6, record, w.rmOk);
      CloseStep(s7, record, w.close);
      if remove {
        var removed := GitWorktreeRemove(record.path, w.removal);
        if !removed {
          IdleFromPrune(s5, w);
          s := s5;
          return None;
        }
        registered := Pruned(registered, dirs, w.pruned);
        SweptTwice(old(dirs), record.path);
        if w.rmOk {
          dirs := Outside(dirs, record.path);
        }
      }
      s := Apply(s7, Finish(0, w.close));
      var closed := records.Update(record.(released := true), w.close);
      r := if closed then Some(Released(record.(released := true), remove)) else None;
    }
  }

  /** The steps of a release once git has been asked. */
  function ToTheEnd(s: State, w: ReleaseAnswers): State {
    Apply(Apply(Apply(Apply(s, Remove(0, w.removal)), Prune(0, w.pruned)), Sweep(0, w.rmOk)), Finish(0, w.close))
  }

  /** The record names the run, and was created and not released. */
  predicate Removable(files: Files, runId: RunId, path: Path) {
    Holds(files, path, runId) && files[path].record.created && !files[path].record.released
  }

  function ReleaseAnswer(files: Files, registered: set<Path>, runId: RunId, path: Path, remove: bool, w: ReleaseAnswers)
    : Option<Released>
  {
    if !w.readable || !Holds(files, path, runId) then None
    else
      var record := files[path].record;
      if record.released then Some(Released(record, false))
      else if !record.created then if w.close.Landed? then Some(Released(record.(released := true), false)) else None
      else if w.listed && path in registered && (remove ==> w.removal.Cleared?) && w.close.Landed?
      then Some(Released(record.(released := true), remove)) else None
  }

  function DirsAfter(files: Files, dirs: set<Path>, registered: set<Path>, runId: RunId, path: Path, remove: bool,
                     w: ReleaseAnswers): set<Path>
  {
    if remove && w.readable && w.listed && path in registered && Removable(files, runId, path) then
      if w.removal.Cleared? then Outside(dirs, path) else Losing(dirs, path, w.removal.lost)
    else
      dirs
  }

  /** The dates on a record are closed, unless the write is lost. */
  function ClosedIn(files: Files, r: Record, w: Io): Files {
    if w.Lost? then files else files[r.path := Written(r.(released := true))]
  }

  /**
   * What a release that is alone leaves, and answers. Whose record cannot be read or names another run gets
   * nothing done; a released one is answered again; a claim that came to nothing is closed, and removes
   * nothing. A created one is left alone unless git lists it. Else it is removed with what is below it if
   * that is asked for, and closed if git could remove it; if git failed, what it took is gone.
   */
  lemma ReleaseSays(s: State, runId: RunId, path: Path, remove: bool, w: ReleaseAnswers)
    requires Inv(s) && s.ops == map[]
    ensures var s' := From(s, ReleaseSteps(runId, path, remove, w));
            var r := ReleaseAnswer(s.files, s.registered, runId, path, remove, w);
            && s'.dirs == DirsAfter(s.files, s.dirs, s.registered, runId, path, remove, w)
            && if !w.readable || path !in s.files || s.files[path].Torn? || s.files[path].record.runId != runId then
                 s' == s && r == None
               else
                 var record := s.files[path].record;
                 var closed := record.(released := true);
                 if record.released then s' == s && r == Some(Released(record, false))
                 else if !record.created then
                   && s' == s.(files := ClosedIn(s.files, record, w.close))
                   && r == if w.close.Landed? then Some(Released(closed, false)) else None
                 else if !w.listed || path !in s.registered then s' == s && r == None
                 else if !remove then
                   && s' == s.(files := ClosedIn(s.files, record, w.close))
                   && r == if w.close.Landed? then Some(Released(closed, false)) else None
                 else if w.removal.Cleared? then
                   && s'.files == ClosedIn(s.files, record, w.close)
                   && (forall d :: d in s'.dirs <==> d in s.dirs && !(path <= d))
                   && (forall p :: p in s'.registered
                                   <==> p in s.registered && p != path && (p in s'.dirs || p !in w.pruned))
                   && r == if w.close.Landed? then Some(Released(closed, true)) else None
                 else
                   && s'.files == s.files && r == None
                   && (forall d :: d in s'.dirs <==> d in s.dirs && !(path <= d && d in w.removal.lost))
                   && s'.registered == if w.removal.unregistered then s.registered - {path} else s.registered
  {
    hide Inv, Apply, From, ToTheEnd, Outside, Losing, Pruned;
    var s1 := Apply(s, BeginRelease(0, runId, path, remove));
    var s2 := Apply(s1, Action.Read(0, w.readable));
    ReleaseUnrolled(s, runId, path, remove, w);
    BeginStep(s, runId, path, remove);
    ReadStep(s1, runId, path, remove, w.readable);
    RecordsSayTheirPath(s);
    if !w.readable || !Holds(s.files, path, runId) || s.files[path].record.released {
      IdleToTheEnd(s2, w);
    } else {
      var record := s.files[path].record;
      if !record.created {
        CloseStep(s2, record, w.close);
        IdleFromList(Apply(s2, Close(0, w.close)), w);
      } else {
        ListStep(s2, record, remove, w.listed);
        var s4 := Apply(s2, List(0, w.listed));
        if !w.listed || path !in s.registered {
          IdleFromRemove(s4, w);
        } else {
          EndSays(s4, record, remove, w);
          WhatGoes(s.dirs, s.registered, path, w);
        }
      }
    }
  }

  lemma WhatGoes(dirs: set<Path>, registered: set<Path>, path: Path, w: ReleaseAnswers)
    ensures forall d :: d in Outside(dirs, path) <==> d in dirs && !(path <= d)
    ensures w.removal.Incomplete? ==>
              forall d :: d in Losing(dirs, path, w.removal.lost)
                          <==> d in dirs && !(path <= d && d in w.removal.lost)
    ensures forall p :: p in Pruned(registered - {path}, Outside(dirs, path), w.pruned)
                        <==> p in registered && p != path && (p in Outside(dirs, path) || p !in w.pruned)
  {
    hide Outside;
    assert forall d :: d in Outside(dirs, path) <==> d in dirs && !(path <= d) by { WhatStays(dirs, path); }
  }

  lemma WhatStays(dirs: set<Path>, path: Path)
    ensures forall d :: d in Outside(dirs, path) <==> d in dirs && !(path <= d)
  {
  }

  lemma EndSays(s: State, record: Record, remove: bool, w: ReleaseAnswers)
    requires record.path in s.registered && s.ops == map[0 := if remove then Removing(record) else Finishing(record)]
    ensures var s' := ToTheEnd(s, w);
            && s'.ops == map[]
            && s'.creator == s.creator && s'.granted == s.granted
            && s'.files == (if remove && w.removal.Incomplete? then s.files else ClosedIn(s.files, record, w.close))
            && s'.dirs == (if !remove then s.dirs else if w.removal.Cleared? then Outside(s.dirs, record.path)
                           else Losing(s.dirs, record.path, w.removal.lost))
            && s'.registered == (if !remove then s.registered
                                 else if w.removal.Cleared? then
                                   Pruned(s.registered - {record.path}, Outside(s.dirs, record.path), w.pruned)
                                 else if w.removal.unregistered then s.registered - {record.path} else s.registered)
  {
    hide Apply, Outside, Losing, Pruned;
    var s5 := Apply(s, Remove(0, w.removal));
    var s6 := Apply(s5, Prune(0, w.pruned));
    var s7 := Apply(s6, Sweep(0, w.rmOk));
    RemoveStep(s, record, w.removal);
    PruneStep(s5, record, w.pruned);
    SweepStep(s6, record, w.rmOk);
    CloseStep(s7, record, w.close);
    SweptTwice(s.dirs, record.path);
    if s5.ops == map[] {
      IdleFromPrune(s5, w);
    }
  }

  lemma InsideIsAbsolute(realpath: Path -> Option<Path>, candidate: string, container: string)
    ensures Inside(realpath, candidate, container) ==> IsAbsolute(candidate)
  {
  }

  lemma CanonicalIsValid(realpath: Path -> Option<Path>, target: string)
    requires AnswersValid(realpath)
    ensures PathContainment.Valid(ExistingAncestor(realpath, Resolve("", target)))
  {
    ResolvedIsValid(realpath, target);
  }

  lemma RecordsSayTheirPath(s: State)
    requires Inv(s)
    ensures forall p :: p in s.files && s.files[p].Written? ==> s.files[p].record.path == p
  {
  }

  lemma FourKeepInv(s: State, a: Action, b: Action, c: Action, d: Action)
    requires Inv(s)
    ensures Inv(Apply(Apply(Apply(Apply(s, a), b), c), d))
  {
    hide Inv, Apply;
    StepKeepsInv(s, a);
    StepKeepsInv(Apply(s, a), b);
    StepKeepsInv(Apply(Apply(s, a), b), c);
    StepKeepsInv(Apply(Apply(Apply(s, a), b), c), d);
  }

  lemma ReleaseUnrolled(s: State, runId: RunId, path: Path, remove: bool, w: ReleaseAnswers)
    requires Inv(s)
    ensures var s2 := Apply(Apply(s, BeginRelease(0, runId, path, remove)), Action.Read(0, w.readable));
            var end := ToTheEnd(Apply(Apply(s2, Close(0, w.close)), List(0, w.listed)), w);
            end == From(s, ReleaseSteps(runId, path, remove, w)) && Inv(end)
  {
    hide Inv, Apply, From;
    var a, b, c := BeginRelease(0, runId, path, remove), Action.Read(0, w.readable), Close(0, w.close);
    var d, e := List(0, w.listed), Remove(0, w.removal);
    var f, g, h := Prune(0, w.pruned), Sweep(0, w.rmOk), Finish(0, w.close);
    ThreeSteps(s, a, b, c);
    var s3 := From(s, [a, b, c]);
    TwoSteps(s3, d, e);
    var s5 := From(s3, [d, e]);
    ThreeSteps(s5, f, g, h);
    FromOn(s, [a, b, c], [d, e]);
    FromOn(s, [a, b, c] + [d, e], [f, g, h]);
    FourKeepInv(s, a, b, c, d);
    FourKeepInv(Apply(s3, d), e, f, g, h);
  }

  lemma IdleFromPrune(s: State, w: ReleaseAnswers)
    requires s.ops == map[]
    ensures Apply(Apply(Apply(s, Prune(0, w.pruned)), Sweep(0, w.rmOk)), Finish(0, w.close)) == s
  {
    hide Apply;
    Idle(s, Prune(0, w.pruned));
    Idle(s, Sweep(0, w.rmOk));
    Idle(s, Finish(0, w.close));
  }

  lemma IdleFromRemove(s: State, w: ReleaseAnswers)
    requires s.ops == map[]
    ensures ToTheEnd(s, w) == s
  {
    hide Apply;
    Idle(s, Remove(0, w.removal));
    IdleFromPrune(s, w);
  }

  lemma IdleFromList(s: State, w: ReleaseAnswers)
    requires s.ops == map[]
    ensures ToTheEnd(Apply(s, List(0, w.listed)), w) == s
  {
    hide Apply, ToTheEnd;
    Idle(s, List(0, w.listed));
    IdleFromRemove(s, w);
  }

  lemma IdleToTheEnd(s: State, w: ReleaseAnswers)
    requires s.ops == map[]
    ensures Apply(s, Close(0, w.close)) == s && ToTheEnd(Apply(s, List(0, w.listed)), w) == s
  {
    hide Apply, ToTheEnd;
    Idle(s, Close(0, w.close));
    IdleFromList(s, w);
  }

  lemma SweptTwice(dirs: set<Path>, path: Path)
    ensures Outside(Outside(dirs, path), path) == Outside(dirs, path)
  {
  }

  lemma ClaimLeaves(files: Files, r: Record, o: ClaimOutcome)
    ensures r.path in files ==> Claimed(files, r, o) == files
    ensures ClaimSucceeds(files, r, o) ==> Claimed(files, r, o) == files[r.path := Written(r)]
  {
  }
}
