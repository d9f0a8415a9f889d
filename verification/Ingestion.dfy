/** How the daemon numbers a worker's events into the log of a run, and what a cursor reader then sees. */
module Ingestion {
  import opened Options
  import opened Runs
  import opened Text
  import opened EventLog
  import LogLaws

  /** Record `i` of the log carries sequence `i`. */
  predicate Numbered(log: seq<Event>) {
    forall i :: 0 <= i < |log| ==> log[i].sequence == i
  }

  predicate OwnedBy(runId: RunId, log: seq<Event>) {
    forall i :: 0 <= i < |log| ==> log[i].runId == runId
  }

  // ---- stamping -------------------------------------------------------------------------

  /** What a worker says; the daemon supplies the record around it. */
  datatype Report = Report(timestamp: string, kind: string, payload: string)

  function Stamp(runId: RunId, taskId: string, sequence: nat, r: Report): Event {
    Event(taskId, runId, sequence, r.timestamp, r.kind, r.payload)
  }

  function Stamped(runId: RunId, taskId: string, first: nat, reports: seq<Report>): (events: seq<Event>)
    ensures |events| == |reports|
    ensures forall i :: 0 <= i < |events| ==> events[i] == Stamp(runId, taskId, first + i, reports[i])
  {
    if reports == [] then [] else
      var init, last := reports[..|reports| - 1], reports[|reports| - 1];
      Stamped(runId, taskId, first, init) + [Stamp(runId, taskId, first + |init|, last)]
  }

  lemma {:induction false} NumberedIndex(log: seq<Event>, s: nat)
    requires Numbered(log)
    ensures s in IndexOf(log) <==> s < |log|
    ensures s < |log| ==> IndexOf(log)[s] == PrintOf(log[s])
  {
    hide PrintOf;
    if log != [] {
      NumberedIndex(log[..|log| - 1], s);
    }
  }

  lemma NumberedIsDistinct(log: seq<Event>)
    requires Numbered(log)
    ensures LogLaws.Distinct(log)
  {
  }

  predicate Contiguous(batch: seq<Event>, first: nat) {
    forall i :: 0 <= i < |batch| ==> batch[i].sequence == first + i
  }

  lemma NextNumber(log: seq<Event>, written: seq<Event>, e: Event)
    requires Numbered(log + written) && e.sequence == |log + written|
    ensures Numbered(log + (written + [e]))
  {
    assert log + (written + [e]) == log + written + [e];
  }

  /**
   * A contiguous batch that starts no later than the end of a numbered log leaves it numbered,
   * whatever of it is skipped, written or refused; one that starts at the end is written whole.
   */
  lemma {:induction false} ContiguousBatchKeepsNumbers(log: seq<Event>, batch: seq<Event>, first: nat)
    requires Numbered(log) && first <= |log| && Contiguous(batch, first)
    ensures var intake := TakeIn(IndexOf(log), batch);
            && Numbered(log + intake.written)
            && (intake.conflict.None? ==> first + |batch| <= |log + intake.written|)
            && (first == |log| ==> intake.conflict.None? && intake.written == batch)
  {
    hide PrintOf, IndexOf, LogLaws.Distinct, Numbered;
    if batch != [] {
      var init, e := batch[..|batch| - 1], batch[|batch| - 1];
      ContiguousBatchKeepsNumbers(log, init, first);
      hide Contiguous;
      var before := TakeIn(IndexOf(log), init);
      NumberedIsDistinct(log);
      LogLaws.AppendsStayDistinct(log, init);
      NumberedIndex(log + before.written, e.sequence);
      if e.sequence !in before.index && before.conflict.None? {
        NextNumber(log, before.written, e);
      }
      assert init + [e] == batch;
    } else {
      assert log + [] == log;
    }
  }

  lemma {:induction false} WrittenIsOwned(runId: RunId, log: seq<Event>, index: map<nat, Print>, batch: seq<Event>)
    requires OwnedBy(runId, log) && OwnedBy(runId, batch)
    ensures OwnedBy(runId, log + TakeIn(index, batch).written)
  {
    if batch != [] {
      var init := batch[..|batch| - 1];
      WrittenIsOwned(runId, log, index, init);
      var before, after := TakeIn(index, init).written, TakeIn(index, batch).written;
      assert after == before || log + after == (log + before) + [batch[|init|]];
    }
  }

  lemma PrefixIsOwned(runId: RunId, part: seq<Event>, log: seq<Event>)
    requires part <= log && OwnedBy(runId, log)
    ensures OwnedBy(runId, part)
  {
  }

  /** Every shorter part of what an append wrote leaves the log numbered too. */
  lemma PartStaysNumbered(log: seq<Event>, written: seq<Event>, k: nat)
    requires Numbered(log + written) && k <= |written|
    ensures Numbered(log + written[..k])
  {
    assert forall i :: 0 <= i < |log + written[..k]| ==> (log + written[..k])[i] == (log + written)[i];
  }

  /** What the log says after an append that may have failed part way. */
  lemma FiledStaysNumbered(codec: Codec, file: string, batch: seq<Event>, first: nat, answers: nat -> Io)
    requires Lawful(codec) && Terminated(file) && Numbered(FileEvents(codec, file))
    requires first <= |FileEvents(codec, file)| && Contiguous(batch, first)
    ensures var log := FileEvents(codec, file);
            var filing := Filed(codec, file, IndexOf(log), batch, answers);
            var log' := FileEvents(codec, filing.file);
            && Terminated(filing.file)
            && log <= log' && Numbered(log') && log' <= log + TakeIn(IndexOf(log), batch).written
            && (first == |log| ==> log' <= log + batch && !filing.answer.Conflict?)
            && (filing.answer.Written? ==> first + |batch| <= |log'|)
            && (filing.answer.Written? && first == |log| ==> log' == log + batch)
  {
    hide Lawful, FileEvents, Rest, Numbered, EncodeAll, IndexOf, TakeIn, Contiguous, Landing, Indexed;
    var log := FileEvents(codec, file);
    var written, part := TakeIn(IndexOf(log), batch).written, LogLaws.OnDisk(codec, IndexOf(log), batch, answers);
    ContiguousBatchKeepsNumbers(log, batch, first);
    LogLaws.FiledIsRead(codec, file, IndexOf(log), batch, answers);
    PartStaysNumbered(log, written, |part|);
    assert written[..|part|] == part;
  }

  /** The worker gives the facts and the daemon the record around them, in the order of arrival. */
  method StampReports(runId: RunId, taskId: string, last: int, reports: seq<Report>)
    returns (stamped: seq<Event>, sequence: int)
    requires last >= -1
    ensures sequence == last + |reports| && |stamped| == |reports|
    ensures forall i :: 0 <= i < |reports| ==>
              stamped[i] == Event(taskId, runId, last + 1 + i,
                                  reports[i].timestamp, reports[i].kind, reports[i].payload)
    ensures stamped == Stamped(runId, taskId, last + 1, reports)
  {
    stamped, sequence := [], last;
    for i := 0 to |reports|
      invariant sequence == last + i && stamped == Stamped(runId, taskId, last + 1, reports[..i])
    {
      StampedOneMore(runId, taskId, last + 1, reports, i);
      sequence := sequence + 1;
      stamped := stamped + [Stamp(runId, taskId, sequence, reports[i])];
    }
    assert reports[..|reports|] == reports;
  }

  // ---- the daemon's side ------------------------------------------------------------------

  class Ingestor {
    const store: RunStore
    /** metadata.json, the one field numbering depends on. */
    var lastSequence: map<RunId, int>

    /** The log is numbered and this run's, and the number on record is not ahead of it. */
    ghost predicate Valid(runId: RunId)
      reads this, store
    {
      && Lawful(store.codec) && Terminated(store.File(runId))
      && Numbered(Log(runId)) && OwnedBy(runId, Log(runId)) && Last(runId) < |Log(runId)|
    }

    function Last(runId: RunId): int
      reads this
    {
      if runId in lastSequence && lastSequence[runId] >= -1 then lastSequence[runId] else -1
    }

    function Log(runId: RunId): seq<Event>
      reads store
    {
      FileEvents(store.codec, store.File(runId))
    }

    constructor (store: RunStore)
      ensures this.store == store && lastSequence == map[]
    {
      this.store := store;
      lastSequence := map[];
    }

    /**
     * The reports are stamped from the number on record and filed; the answer is the error that is logged.
     * Whatever fails, a numbered log whose index is known stays numbered and only grows, by records of this
     * run in the order the worker reported them: if the number was the end of the log, all of them or a
     * prefix, each as it was reported. The number moves exactly when the append succeeded and that could be
     * recorded, and the index stays known exactly unless a write landed that was reported as failed.
     */
    method Ingest(runId: RunId, taskId: string, reports: seq<Report>,
                  metadataReadable: bool, readable: bool, answers: nat -> Io, recorded: bool)
      returns (logged: Option<Appended>)
      modifies this, store`files, store`sequenceIndex
      ensures reports == [] || !metadataReadable ==> unchanged(this) && unchanged(store) && logged.None?
      ensures reports != [] && metadataReadable && !old(store.Loads(runId, readable)) ==>
                unchanged(this) && unchanged(store) && logged == Some(IoFailed)
      ensures reports != [] && metadataReadable && old(store.Loads(runId, readable)) ==>
                var stamped := Stamped(runId, taskId, old(Last(runId)) + 1, reports);
                var filing := Filed(store.codec, old(store.File(runId)), old(store.Known(runId)), stamped, answers);
                && store.File(runId) == filing.file && store.Known(runId) == filing.index
                && logged == (if filing.answer.Written? then None else Some(filing.answer))
                && Last(runId) == old(Last(runId)) + (if logged.None? && recorded then |reports| else 0)
                && (old(Valid(runId) && store.Coherent(runId)) ==>
                      && Valid(runId) && old(Log(runId)) <= Log(runId)
                      && (store.Coherent(runId) <==>
                            !EndsUnsure(store.codec, old(store.Known(runId)), stamped, answers))
                      && (old(Last(runId) + 1 == |Log(runId)|) ==>
                            && Continues(runId, taskId, old(Log(runId)), Log(runId), reports)
                            && (logged.None? ==> |Log(runId)| == old(|Log(runId)|) + |reports|)))
    {
      hide FileEvents, Lawful, Rest, TakeIn, IndexOf, EncodeAll, Filed, Numbered, Stamp,
           OwnedBy, Contiguous, Terminated, Continues, Stamped, EndsUnsure;
      if reports == [] || !metadataReadable {
        return None;
      }
      var stamped, sequence := StampReports(runId, taskId, Last(runId), reports);
      if Valid(runId) && store.Coherent(runId) {
        FiledIsValid(store.codec, store.File(runId), runId, taskId, Last(runId) + 1, reports, answers);
      }
      var appended := store.AppendEvents(runId, stamped, readable, answers);
      if !appended.Written? {
        return Some(appended);
      }
      if recorded {
        lastSequence := lastSequence[runId := sequence];
      }
      logged := None;
    }
  }

  /** Behind `log` stands what the worker reported, from the first report on, under this run and the next numbers. */
  predicate Continues(runId: RunId, taskId: string, log: seq<Event>, grown: seq<Event>, reports: seq<Report>) {
    && log <= grown && |grown| <= |log| + |reports|
    && forall i :: |log| <= i < |grown| ==>
         var r := reports[i - |log|];
         grown[i] == Event(taskId, runId, i, r.timestamp, r.kind, r.payload)
  }

  lemma StampedOneMore(runId: RunId, taskId: string, first: nat, reports: seq<Report>, i: nat)
    requires i <= |reports|
    ensures i == 0 ==> Stamped(runId, taskId, first, reports[..i]) == []
    ensures i < |reports| ==> Stamped(runId, taskId, first, reports[..i + 1])
                              == Stamped(runId, taskId, first, reports[..i])
                                 + [Stamp(runId, taskId, first + i, reports[i])]
  {
    assert i < |reports| ==> reports[..i + 1][..i] == reports[..i];
  }

  /** What an ingested batch leaves of a valid log. */
  lemma FiledIsValid(codec: Codec, file: string, runId: RunId, taskId: string, first: nat, reports: seq<Report>,
                     answers: nat -> Io)
    requires Lawful(codec) && Terminated(file) && Numbered(FileEvents(codec, file))
    requires OwnedBy(runId, FileEvents(codec, file)) && first <= |FileEvents(codec, file)|
    ensures var log, batch := FileEvents(codec, file), Stamped(runId, taskId, first, reports);
            var filing := Filed(codec, file, IndexOf(log), batch, answers);
            var log' := FileEvents(codec, filing.file);
            && Terminated(filing.file) && Numbered(log') && OwnedBy(runId, log') && log <= log'
            && (filing.index == IndexOf(log') <==> !EndsUnsure(codec, IndexOf(log), batch, answers))
            && (filing.answer.Written? ==> first + |reports| <= |log'|)
            && (first == |log| ==> Continues(runId, taskId, log, log', reports)
                                   && (filing.answer.Written? ==> |log'| == |log| + |reports|))
  {
    hide FileEvents, Lawful, Rest, TakeIn, IndexOf, Filed, Numbered, OwnedBy, Contiguous, EndsUnsure, Continues;
    var log, batch := FileEvents(codec, file), Stamped(runId, taskId, first, reports);
    var log' := FileEvents(codec, Filed(codec, file, IndexOf(log), batch, answers).file);
    StampedNumbers(runId, taskId, first, reports);
    FiledStaysNumbered(codec, file, batch, first, answers);
    LogLaws.IndexAgreesIff(codec, file, batch, answers);
    WrittenIsOwned(runId, log, IndexOf(log), batch);
    PrefixIsOwned(runId, log', log + TakeIn(IndexOf(log), batch).written);
    if first == |log| {
      StampedContinues(runId, taskId, log, log', reports);
    }
  }

  lemma StampedContinues(runId: RunId, taskId: string, log: seq<Event>, grown: seq<Event>, reports: seq<Report>)
    requires log <= grown && grown <= log + Stamped(runId, taskId, |log|, reports)
    ensures Continues(runId, taskId, log, grown, reports)
  {
    forall i | |log| <= i < |grown|
      ensures var r := reports[i - |log|]; grown[i] == Event(taskId, runId, i, r.timestamp, r.kind, r.payload)
    {
      assert grown[i] == Stamped(runId, taskId, |log|, reports)[i - |log|];
    }
  }

  lemma StampedNumbers(runId: RunId, taskId: string, first: nat, reports: seq<Report>)
    ensures Contiguous(Stamped(runId, taskId, first, reports), first)
    ensures OwnedBy(runId, Stamped(runId, taskId, first, reports))
  {
  }

  // ---- the reader's side ------------------------------------------------------------------

  /** On a numbered log, a page from a cursor is the next `limit` records, in order. */
  lemma PageIsNextRecords(log: seq<Event>, cursor: int, limit: nat)
    requires Numbered(log) && -1 <= cursor < |log|
    ensures PageOf(log, cursor, Some(limit))
         == log[cursor + 1..if cursor + 1 + limit < |log| then cursor + 1 + limit else |log|]
  {
    hide Since, Sort, Numbered;
    SinceNumbered(log, cursor);
    TailAscends(log, cursor + 1);
    SortedStays(log[cursor + 1..]);
  }

  lemma TailAscends(log: seq<Event>, k: nat)
    requires Numbered(log) && k <= |log|
    ensures forall i, j :: 0 <= i < j < |log[k..]| ==> log[k..][i].sequence <= log[k..][j].sequence
  {
  }

  lemma {:induction false} SinceNumbered(log: seq<Event>, cursor: int)
    requires Numbered(log) && -1 <= cursor
    ensures Since(log, cursor) == if cursor < |log| then log[cursor + 1..] else []
  {
    if log != [] {
      var init := log[..|log| - 1];
      assert Numbered(init) && log[|init|].sequence == |init|;
      hide Numbered;
      SinceNumbered(init, cursor);
      if cursor < |init| {
        assert log[cursor + 1..] == init[cursor + 1..] + [log[|init|]];
      } else {
        assert cursor == |init| ==> log[cursor + 1..] == [];
      }
    }
  }

  lemma {:induction false} SortedStays(events: seq<Event>)
    requires forall i, j :: 0 <= i < j < |events| ==> events[i].sequence <= events[j].sequence
    ensures Sort(events) == events
  {
    if events != [] {
      SortedStays(events[..|events| - 1]);
    }
  }

  /** The bridge accepts a page when it is of this run and strictly ascends from the cursor. */
  predicate Ascends(runId: RunId, since: int, page: seq<Event>) {
    forall i :: 0 <= i < |page| ==> ComesNext(runId, since, page, i)
  }

  predicate ComesNext(runId: RunId, since: int, page: seq<Event>, i: nat)
    requires i < |page|
  {
    page[i].runId == runId && (if i == 0 then since else page[i - 1].sequence) < page[i].sequence
  }

  lemma AscendsIff(runId: RunId, since: int, page: seq<Event>)
    ensures Ascends(runId, since, page) <==>
              forall i :: 0 <= i < |page| ==>
                page[i].runId == runId && (if i == 0 then since else page[i - 1].sequence) < page[i].sequence
  {
    if Ascends(runId, since, page) {
      forall i | 0 <= i < |page|
        ensures page[i].runId == runId && (if i == 0 then since else page[i - 1].sequence) < page[i].sequence
      {
        assert ComesNext(runId, since, page, i);
      }
    }
  }

  method CheckPage(runId: RunId, since: int, page: seq<Event>) returns (r: Option<seq<Event>>)
    ensures r == if Ascends(runId, since, page) then Some(page) else None
  {
    var events: seq<Event> := [];
    var previous := since;
    for i := 0 to |page|
      invariant events == page[..i]
      invariant previous == if i == 0 then since else page[i - 1].sequence
      invariant forall j :: 0 <= j < i ==> ComesNext(runId, since, page, j)
    {
      assert ComesNext(runId, since, page, i) <==> page[i].runId == runId && previous < page[i].sequence;
      if page[i].runId != runId || page[i].sequence <= previous {
        return None;
      }
      previous := page[i].sequence;
      events := events + [page[i]];
      assert page[..i + 1] == page[..i] + [page[i]];
    }
    assert page[..|page|] == page;
    r := Some(events);
  }

  /** One follower of one run. */
  class Follower {
    const runId: RunId
    var cursor: int
    var seen: seq<Event>

    constructor (runId: RunId)
      ensures this.runId == runId && cursor == -1 && seen == []
    {
      this.runId := runId;
      cursor := -1;
      seen := [];
    }

    /** It has seen the log up to its cursor: in order, no gap, no repeat. */
    ghost predicate Follows(log: seq<Event>)
      reads this
    {
      -1 <= cursor < |log| && seen == log[..cursor + 1]
    }

    method Poll(store: RunStore, limit: nat, readable: bool) returns (ok: bool)
      requires Numbered(FileEvents(store.codec, store.File(runId)))
      requires OwnedBy(runId, FileEvents(store.codec, store.File(runId)))
      requires Follows(FileEvents(store.codec, store.File(runId)))
      modifies this
      ensures Follows(FileEvents(store.codec, store.File(runId)))
      ensures ok == (readable || runId !in store.files)
      ensures var end := |FileEvents(store.codec, store.File(runId))|;
              cursor == if !ok then old(cursor) else if old(cursor) + limit < end then old(cursor) + limit else end - 1
    {
      hide FileEvents, PageOf, Sort, Since, Ascends, Numbered, OwnedBy, IsPage;
      ghost var log := FileEvents(store.codec, store.File(runId));
      var page := store.ReadEvents(runId, cursor, Some(limit), readable);
      if page.None? {
        return false;
      }
      PageIsNextRecords(log, cursor, limit);
      PageAscends(runId, log, cursor, page.value);
      var events := CheckPage(runId, cursor, page.value);
      LastOfPage(log, cursor, page.value);
      seen := seen + events.value;
      if events.value != [] {
        cursor := events.value[|events.value| - 1].sequence;
      }
      ok := true;
    }
  }

  lemma PageAscends(runId: RunId, log: seq<Event>, cursor: int, page: seq<Event>)
    requires Numbered(log) && OwnedBy(runId, log) && -1 <= cursor && cursor + 1 + |page| <= |log|
    requires page == log[cursor + 1..cursor + 1 + |page|]
    ensures Ascends(runId, cursor, page)
  {
  }

  lemma LastOfPage(log: seq<Event>, cursor: int, page: seq<Event>)
    requires Numbered(log) && -1 <= cursor && cursor + 1 + |page| <= |log|
    requires page == log[cursor + 1..cursor + 1 + |page|]
    ensures page != [] ==> page[|page| - 1].sequence == cursor + |page|
    ensures log[..cursor + 1] + page == log[..cursor + 1 + |page|]
  {
  }

  // ---- over whole histories -----------------------------------------------------------------

  datatype Happening = Ingested(batch: seq<Event>) | Polled(limit: nat) | PollFailed

  datatype View = View(log: seq<Event>, cursor: int, seen: seq<Event>)

  function After(v: View, h: Happening): View {
    match h
    case Ingested(batch) => v.(log := v.log + TakeIn(IndexOf(v.log), batch).written)
    case PollFailed => v
    case Polled(limit) =>
      var page := PageOf(v.log, v.cursor, Some(limit));
      if page == [] then v else v.(seen := v.seen + page, cursor := page[|page| - 1].sequence)
  }

  function History(v: View, happenings: seq<Happening>): View {
    if happenings == [] then v
    else After(History(v, happenings[..|happenings| - 1]), happenings[|happenings| - 1])
  }

  /** Each batch is stamped contiguously from a number at most one past the end of the log it meets. */
  ghost predicate Fits(log: seq<Event>, batch: seq<Event>) {
    exists first: nat :: first <= |log| && Contiguous(batch, first)
  }

  ghost predicate AllFit(v: View, happenings: seq<Happening>) {
    forall i :: 0 <= i < |happenings| && happenings[i].Ingested? ==>
      Fits(History(v, happenings[..i]).log, happenings[i].batch)
  }

  ghost predicate Faithful(v: View) {
    Numbered(v.log) && -1 <= v.cursor < |v.log| && v.seen == v.log[..v.cursor + 1]
  }

  lemma StepStaysFaithful(v: View, h: Happening)
    requires Faithful(v) && (h.Ingested? ==> Fits(v.log, h.batch))
    ensures Faithful(After(v, h)) && v.log <= After(v, h).log
    ensures h.Polled? && h.limit > 0 ==> After(v, h).cursor >= if v.cursor + 1 < |v.log| then v.cursor + 1 else v.cursor
  {
    hide PageOf, TakeIn, IndexOf, Contiguous;
    match h
    case Ingested(batch) =>
      var first: nat :| first <= |v.log| && Contiguous(batch, first);
      ContiguousBatchKeepsNumbers(v.log, batch, first);
    case PollFailed =>
    case Polled(limit) => PollStaysFaithful(v, limit);
  }

  lemma PollStaysFaithful(v: View, limit: nat)
    requires Faithful(v)
    ensures Faithful(After(v, Polled(limit))) && After(v, Polled(limit)).log == v.log
    ensures After(v, Polled(limit)).cursor
         == if v.cursor + limit < |v.log| then v.cursor + limit else |v.log| - 1
  {
    hide PageOf;
    PageIsNextRecords(v.log, v.cursor, limit);
    var page := PageOf(v.log, v.cursor, Some(limit));
    if page != [] {
      var end := v.cursor + 1 + |page|;
      assert page[|page| - 1] == v.log[end - 1];
      assert v.log[..v.cursor + 1] + page == v.log[..end];
    }
  }

  /** At every moment of every history the reader has seen exactly the log up to its cursor. */
  lemma {:induction false} ReaderSeesThePrefix(v: View, happenings: seq<Happening>)
    requires Faithful(v) && AllFit(v, happenings)
    ensures Faithful(History(v, happenings)) && v.log <= History(v, happenings).log
  {
    hide Faithful, After, Fits;
    if happenings != [] {
      var init := happenings[..|happenings| - 1];
      assert AllFit(v, init) by {
        forall i | 0 <= i < |init| && init[i].Ingested? ensures Fits(History(v, init[..i]).log, init[i].batch) {
          assert init[..i] == happenings[..i] && init[i] == happenings[i];
        }
      }
      ReaderSeesThePrefix(v, init);
      StepStaysFaithful(History(v, init), happenings[|init|]);
    }
  }

  /** Once appends stop, polling with any positive limits reaches the end of the log. */
  lemma {:induction false} ReaderCatchesUp(v: View, polls: seq<Happening>)
    requires Faithful(v)
    requires forall i :: 0 <= i < |polls| ==> polls[i].Polled? && polls[i].limit > 0
    ensures Faithful(History(v, polls)) && History(v, polls).log == v.log
    ensures History(v, polls).cursor >= if v.cursor + |polls| < |v.log| then v.cursor + |polls| else |v.log| - 1
    ensures v.cursor + |polls| >= |v.log| - 1 ==> History(v, polls).seen == v.log
  {
    hide PageOf;
    if polls != [] {
      var init := polls[..|polls| - 1];
      ReaderCatchesUp(v, init);
      StepStaysFaithful(History(v, init), polls[|init|]);
    }
  }
}
