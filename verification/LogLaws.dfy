/** What the append-only log keeps over any history of appends, restarts and torn writes. */
module LogLaws {
  import opened Options
  import opened Runs
  import opened Text
  import opened EventLog

  // ---- each sequence once -------------------------------------------------------------

  predicate Distinct(events: seq<Event>) {
    forall i, j :: 0 <= i < j < |events| ==> events[i].sequence != events[j].sequence
  }

  lemma {:induction false} IndexedIffPresent(events: seq<Event>, sequence: nat)
    ensures sequence in IndexOf(events) <==> exists i :: 0 <= i < |events| && events[i].sequence == sequence
  {
    if events != [] {
      var init := events[..|events| - 1];
      IndexedIffPresent(init, sequence);
      if i :| 0 <= i < |init| && init[i].sequence == sequence {
        assert events[i].sequence == sequence;
      }
    }
  }

  /** The index handed on is the index of the grown log, and the log never holds a sequence twice. */
  lemma {:induction false} AppendsStayDistinct(log: seq<Event>, batch: seq<Event>)
    requires Distinct(log)
    ensures var intake := TakeIn(IndexOf(log), batch);
            intake.index == IndexOf(log + intake.written) && Distinct(log + intake.written)
  {
    hide IndexOf, Distinct, PrintOf;
    if batch == [] {
      assert log + [] == log;
    } else {
      var before, e := TakeIn(IndexOf(log), batch[..|batch| - 1]), batch[|batch| - 1];
      AppendsStayDistinct(log, batch[..|batch| - 1]);
      OneMoreDistinct(log + before.written, e);
      assert log + (before.written + [e]) == log + before.written + [e];
    }
  }

  lemma OneMoreDistinct(log: seq<Event>, e: Event)
    requires Distinct(log)
    ensures e.sequence !in IndexOf(log) ==> Distinct(log + [e])
    ensures IndexOf(log + [e]) == IndexOf(log)[e.sequence := PrintOf(e)]
  {
    IndexedIffPresent(log, e.sequence);
    OneMoreIndexed(log, e);
  }

  /** A history of batches, each applied to the log the previous ones left. */
  function Replay(log: seq<Event>, batches: seq<seq<Event>>): seq<Event> {
    if batches == [] then log else
      var grown := Replay(log, batches[..|batches| - 1]);
      grown + TakeIn(IndexOf(grown), batches[|batches| - 1]).written
  }

  lemma {:induction false} EverySequenceOnce(batches: seq<seq<Event>>)
    ensures Distinct(Replay([], batches))
  {
    if batches != [] {
      EverySequenceOnce(batches[..|batches| - 1]);
      AppendsStayDistinct(Replay([], batches[..|batches| - 1]), batches[|batches| - 1]);
    }
  }

  // ---- appending again ----------------------------------------------------------------

  /** `index` holds every one of the events, as itself. */
  predicate Holds(index: map<nat, Print>, events: seq<Event>) {
    forall i :: 0 <= i < |events| ==>
      events[i].sequence in index && index[events[i].sequence] == PrintOf(events[i])
  }

  predicate Extends(later: map<nat, Print>, earlier: map<nat, Print>) {
    forall s :: s in earlier ==> s in later && later[s] == earlier[s]
  }

  lemma {:induction false} IntakeExtends(index: map<nat, Print>, batch: seq<Event>)
    ensures Extends(TakeIn(index, batch).index, index)
  {
    if batch != [] {
      IntakeExtends(index, batch[..|batch| - 1]);
    }
  }

  /** An accepted batch is in the index as it was given. */
  lemma {:induction false} AcceptedIsHeld(index: map<nat, Print>, batch: seq<Event>)
    ensures TakeIn(index, batch).conflict.None? ==> Holds(TakeIn(index, batch).index, batch)
  {
    if batch != [] {
      var init, e := batch[..|batch| - 1], batch[|batch| - 1];
      AcceptedIsHeld(index, init);
      if TakeIn(index, batch).conflict.None? {
        forall i | 0 <= i < |batch|
          ensures batch[i].sequence in TakeIn(index, batch).index
          ensures TakeIn(index, batch).index[batch[i].sequence] == PrintOf(batch[i])
        {
          if i < |init| {
            assert init[i] == batch[i];
          }
        }
      }
    }
  }

  lemma HeldStays(index: map<nat, Print>, later: map<nat, Print>, events: seq<Event>)
    requires Holds(index, events) && Extends(later, index)
    ensures Holds(later, events)
  {
  }

  lemma {:induction false} HeldWritesNothing(index: map<nat, Print>, batch: seq<Event>)
    requires Holds(index, batch)
    ensures TakeIn(index, batch) == Intake([], index, None)
  {
    if batch != [] {
      var init := batch[..|batch| - 1];
      assert Holds(index, init) by {
        forall i | 0 <= i < |init|
          ensures init[i].sequence in index && index[init[i].sequence] == PrintOf(init[i])
        {
          assert init[i] == batch[i];
        }
      }
      HeldWritesNothing(index, init);
    }
  }

  /**
   * A batch that was accepted once writes nothing ever again: neither at once, nor after other
   * batches, nor in a later process, whose index is the one of the file.
   */
  lemma {:induction false} AppendingAgainWritesNothing(log: seq<Event>, batches: seq<seq<Event>>, k: nat)
    requires Distinct(log) && k < |batches|
    requires TakeIn(IndexOf(Replay(log, batches[..k])), batches[k]).conflict.None?
    ensures Distinct(Replay(log, batches)) && Holds(IndexOf(Replay(log, batches)), batches[k])
    ensures TakeIn(IndexOf(Replay(log, batches)), batches[k]) == Intake([], IndexOf(Replay(log, batches)), None)
    decreases |batches|
  {
    hide IndexOf, TakeIn, Distinct, Holds, Extends, PrintOf;
    var init, last := batches[..|batches| - 1], batches[|batches| - 1];
    var before := Replay(log, init);
    ReplayStaysDistinct(log, init);
    AppendsStayDistinct(before, last);
    if k == |init| {
      AcceptedIsHeld(IndexOf(before), last);
    } else {
      assert init[..k] == batches[..k] && init[k] == batches[k];
      AppendingAgainWritesNothing(log, init, k);
      IntakeExtends(IndexOf(before), last);
      HeldStays(IndexOf(before), TakeIn(IndexOf(before), last).index, batches[k]);
    }
    HeldWritesNothing(IndexOf(Replay(log, batches)), batches[k]);
  }

  lemma {:induction false} ReplayStaysDistinct(log: seq<Event>, batches: seq<seq<Event>>)
    requires Distinct(log)
    ensures Distinct(Replay(log, batches))
  {
    if batches != [] {
      ReplayStaysDistinct(log, batches[..|batches| - 1]);
      AppendsStayDistinct(Replay(log, batches[..|batches| - 1]), batches[|batches| - 1]);
    }
  }

  // ---- what a conflict leaves ---------------------------------------------------------

  /** Two records claim one sequence: one in the index or earlier in the batch, and `batch[i]`. */
  predicate Clashes(index: map<nat, Print>, batch: seq<Event>, i: nat)
    requires i < |batch|
  {
    var e := batch[i];
    || (e.sequence in index && index[e.sequence] != PrintOf(e))
    || exists j :: 0 <= j < i && batch[j].sequence == e.sequence && PrintOf(batch[j]) != PrintOf(e)
  }

  /** The events that are the first to claim a sequence, independent of any index under construction. */
  function FirstClaims(index: map<nat, Print>, batch: seq<Event>): seq<Event> {
    if batch == [] then [] else
      var init, e := batch[..|batch| - 1], batch[|batch| - 1];
      FirstClaims(index, init)
      + if e.sequence in index || exists j :: 0 <= j < |init| && init[j].sequence == e.sequence then [] else [e]
  }

  /** Without a clash every first claim is written, and the index holds the old entries and the batch. */
  lemma {:induction false} NoClashWritesFirstClaims(index: map<nat, Print>, batch: seq<Event>)
    requires forall i :: 0 <= i < |batch| ==> !Clashes(index, batch, i)
    ensures var intake := TakeIn(index, batch);
            && intake.conflict.None? && intake.written == FirstClaims(index, batch)
            && forall s :: s in intake.index <==> s in index || exists j :: 0 <= j < |batch| && batch[j].sequence == s
  {
    hide PrintOf, Holds, Extends;
    if batch != [] {
      var init, e := batch[..|batch| - 1], batch[|batch| - 1];
      forall i | 0 <= i < |init| ensures !Clashes(index, init, i) {
        assert !Clashes(index, batch, i);
        assert forall j :: 0 <= j <= i ==> init[j] == batch[j];
      }
      NoClashWritesFirstClaims(index, init);
      assert !Clashes(index, batch, |init|);
      AcceptedIsHeld(index, init);
      IntakeExtends(index, init);
      assert forall j :: 0 <= j < |init| ==> init[j] == batch[j];
      if e.sequence in TakeIn(index, init).index && e.sequence !in index {
        var j :| 0 <= j < |init| && init[j].sequence == e.sequence;
        assert batch[j].sequence == e.sequence;
      }
    }
  }

  /** The first clash stops the batch there; exactly what came before it is taken in. */
  lemma {:induction false} FirstClashStops(index: map<nat, Print>, batch: seq<Event>, i: nat)
    requires i < |batch| && Clashes(index, batch, i)
    requires forall j :: 0 <= j < i ==> !Clashes(index, batch, j)
    ensures var intake := TakeIn(index, batch);
            && intake.conflict == Some(batch[i].sequence)
            && intake.written == FirstClaims(index, batch[..i])
            && Holds(intake.index, batch[..i])
    decreases |batch|
  {
    hide PrintOf;
    var prefix := batch[..i];
    forall j | 0 <= j < i ensures !Clashes(index, prefix, j) {
      assert !Clashes(index, batch, j);
      assert forall k :: 0 <= k <= j ==> prefix[k] == batch[k];
    }
    NoClashWritesFirstClaims(index, prefix);
    AcceptedIsHeld(index, prefix);
    IntakeExtends(index, prefix);
    var before := TakeIn(index, prefix);
    var e := batch[i];
    assert e.sequence in before.index && before.index[e.sequence] != PrintOf(e) by {
      if !(e.sequence in index && index[e.sequence] != PrintOf(e)) {
        var j :| 0 <= j < i && batch[j].sequence == e.sequence && PrintOf(batch[j]) != PrintOf(e);
        assert prefix[j] == batch[j];
      }
    }
    TakeInStep(index, batch, i);
    TakeInPrefix(index, batch, i + 1);
  }

  // ---- what is on disk, and what the index knows of it ---------------------------------

  /** What is written behind a terminated log is what a later read finds. */
  lemma {:induction false} AppendedRecordsAreRead(codec: Codec, file: string, written: seq<Event>)
    requires Lawful(codec) && AllEncodable(codec, written) && Terminated(file)
    ensures Terminated(file + EncodeAll(codec, written))
    ensures FileEvents(codec, file + EncodeAll(codec, written)) == FileEvents(codec, file) + written
  {
    hide Lawful, FileEvents, Rest;
    if written == [] {
      assert file + EncodeAll(codec, written) == file;
      assert FileEvents(codec, file) + written == FileEvents(codec, file);
    } else {
      var init, e := written[..|written| - 1], written[|written| - 1];
      AppendedRecordsAreRead(codec, file, init);
      AppendedLineIsRead(codec, file + EncodeAll(codec, init), e);
      assert file + EncodeAll(codec, init) + (codec.encode(e) + "\n") == file + EncodeAll(codec, written);
      assert FileEvents(codec, file) + init + [e] == FileEvents(codec, file) + written;
    }
  }

  lemma {:induction false} IndexOfMore(log: seq<Event>, more: seq<Event>)
    ensures IndexOf(log + more) == Indexed(IndexOf(log), more)
  {
    if more == [] {
      assert log + more == log;
    } else {
      IndexOfMore(log, more[..|more| - 1]);
      assert log + more == log + more[..|more| - 1] + [more[|more| - 1]];
      OneMoreIndexed(log + more[..|more| - 1], more[|more| - 1]);
    }
  }

  /** A record is written only under a sequence that nothing before it claims. */
  lemma {:induction false} WrittenIsNew(index: map<nat, Print>, batch: seq<Event>, k: nat)
    requires k < |TakeIn(index, batch).written|
    ensures var written := TakeIn(index, batch).written; written[k].sequence !in Indexed(index, written[..k])
  {
    var init, e := batch[..|batch| - 1], batch[|batch| - 1];
    var before, after := TakeIn(index, init), TakeIn(index, batch);
    IntakeIndex(index, init);
    if k < |before.written| {
      WrittenIsNew(index, init, k);
      assert after.written[..k] == before.written[..k];
    } else {
      assert after.written[..k] == before.written;
    }
  }

  /** The records an append leaves on disk. */
  function OnDisk(codec: Codec, index: map<nat, Print>, events: seq<Event>, answers: nat -> Io): (r: seq<Event>)
    ensures r <= TakeIn(index, events).written
  {
    var written := TakeIn(index, events).written;
    var k := Landing(codec, answers, written);
    written[..if EndsUnsure(codec, index, events, answers) then k + 1 else k]
  }

  lemma OnDiskIsEncodable(codec: Codec, index: map<nat, Print>, events: seq<Event>, answers: nat -> Io)
    ensures AllEncodable(codec, OnDisk(codec, index, events, answers))
  {
    hide TakeIn, Landing;
    LandingIsEncodable(codec, answers, TakeIn(index, events).written);
  }

  /** The log grows by the records that reached the disk. */
  lemma FiledIsRead(codec: Codec, file: string, index: map<nat, Print>, events: seq<Event>, answers: nat -> Io)
    requires Lawful(codec) && Terminated(file)
    ensures var filing := Filed(codec, file, index, events, answers);
            && Terminated(filing.file)
            && FileEvents(codec, filing.file) == FileEvents(codec, file) + OnDisk(codec, index, events, answers)
  {
    hide Lawful, FileEvents, Rest, EncodeAll, TakeIn, Landing, EndsUnsure, AllEncodable;
    OnDiskIsEncodable(codec, index, events, answers);
    AppendedRecordsAreRead(codec, file, OnDisk(codec, index, events, answers));
  }

  /**
   * Where the index was the one of the file it is so afterwards, if and only if the append did not end
   * with a write that landed and was reported as failed.
   */
  lemma IndexAgreesIff(codec: Codec, file: string, events: seq<Event>, answers: nat -> Io)
    requires Lawful(codec) && Terminated(file)
    ensures var index := IndexOf(FileEvents(codec, file));
            var filing := Filed(codec, file, index, events, answers);
            filing.index == IndexOf(FileEvents(codec, filing.file)) <==> !EndsUnsure(codec, index, events, answers)
  {
    hide Lawful, FileEvents, Rest, EncodeAll, TakeIn, Landing, IndexOf;
    var log := FileEvents(codec, file);
    var index := IndexOf(log);
    var written := TakeIn(index, events).written;
    var k := Landing(codec, answers, written);
    FiledIsRead(codec, file, index, events, answers);
    IndexOfMore(log, OnDisk(codec, index, events, answers));
    if EndsUnsure(codec, index, events, answers) {
      WrittenIsNew(index, events, k);
      assert written[..k + 1][..k] == written[..k];
    }
  }

  /**
   * After such a write another record of that sequence, equal or not, goes on disk too as long as the
   * process lives; a new process, which indexes the file, would skip or refuse it.
   */
  lemma SecondRecordAfterUnsure(codec: Codec, file: string, events: seq<Event>, answers: nat -> Io, e: Event,
                                later: nat -> Io)
    requires Lawful(codec) && Terminated(file) && EndsUnsure(codec, IndexOf(FileEvents(codec, file)), events, answers)
    requires codec.encodable(e) && later(0).Landed?
    requires var written := TakeIn(IndexOf(FileEvents(codec, file)), events).written;
             e.sequence == written[Landing(codec, answers, written)].sequence
    ensures var filing := Filed(codec, file, IndexOf(FileEvents(codec, file)), events, answers);
            var log := FileEvents(codec, filing.file);
            && log != [] && log[|log| - 1].sequence == e.sequence
            && FileEvents(codec, Filed(codec, filing.file, filing.index, [e], later).file) == log + [e]
            && TakeIn(IndexOf(log), [e]).written == []
  {
    hide Lawful, FileEvents, Rest, EncodeAll;
    var index := IndexOf(FileEvents(codec, file));
    var written := TakeIn(index, events).written;
    var k := Landing(codec, answers, written);
    var filing := Filed(codec, file, index, events, answers);
    FiledIsRead(codec, file, index, events, answers);
    WrittenIsNew(index, events, k);
    var log := FileEvents(codec, filing.file);
    assert log[|log| - 1] == written[k];
    hide IndexOf, Landing, EndsUnsure, OnDisk;
    OnlyRecord(codec, filing.file, filing.index, e, later);
    assert log == log[..|log| - 1] + [log[|log| - 1]];
    OneMoreIndexed(log[..|log| - 1], log[|log| - 1]);
    OneRecord(IndexOf(log), e);
  }

  lemma OneRecord(index: map<nat, Print>, e: Event)
    ensures TakeIn(index, [e]).written == if e.sequence in index then [] else [e]
  {
    assert TakeIn(index, []) == Intake([], index, None);
    assert [e][..0] == [];
  }

  lemma OnlyRecord(codec: Codec, file: string, index: map<nat, Print>, e: Event, later: nat -> Io)
    requires Lawful(codec) && Terminated(file) && e.sequence !in index && codec.encodable(e) && later(0).Landed?
    ensures FileEvents(codec, Filed(codec, file, index, [e], later).file) == FileEvents(codec, file) + [e]
  {
    hide Lawful, FileEvents, Rest, EncodeAll, Filed, TakeIn;
    OneRecord(index, e);
    FiledIsRead(codec, file, index, [e], later);
    assert [e][..0] == [] && [e][..1] == [e];
    assert Landing(codec, later, []) == 0;
    assert Landing(codec, later, [e]) == 1;
  }

  /**
   * An index that knows part of a log without repetitions adds a repetition exactly by writing a record
   * whose sequence is in the log and not in the index.
   */
  lemma DistinctIffNothingForgotten(log: seq<Event>, index: map<nat, Print>, batch: seq<Event>)
    requires Distinct(log) && forall s :: s in index ==> s in IndexOf(log)
    ensures var written := TakeIn(index, batch).written;
            Distinct(log + written) <==> forall i :: 0 <= i < |written| ==> written[i].sequence !in IndexOf(log)
  {
    hide IndexOf, TakeIn;
    var written := TakeIn(index, batch).written;
    forall i, j | 0 <= i < j < |written| ensures written[i].sequence != written[j].sequence {
      WrittenIsNew(index, batch, j);
      IndexedHolds(index, written[..j], i);
    }
    forall i | 0 <= i < |written|
      ensures written[i].sequence in IndexOf(log)
              <==> exists j :: 0 <= j < |log| && log[j].sequence == written[i].sequence
    {
      IndexedIffPresent(log, written[i].sequence);
    }
    forall i, j | 0 <= i < |written| && 0 <= j < |log|
      ensures Distinct(log + written) ==> log[j].sequence != written[i].sequence
    {
      assert (log + written)[j] == log[j] && (log + written)[|log| + i] == written[i];
    }
  }

  lemma {:induction false} IndexedHolds(index: map<nat, Print>, events: seq<Event>, i: nat)
    requires i < |events|
    ensures events[i].sequence in Indexed(index, events)
  {
    if i < |events| - 1 {
      IndexedHolds(index, events[..|events| - 1], i);
    }
  }

  /** One run's log and the index its process goes by. */
  datatype Shelf = Shelf(log: seq<Event>, index: map<nat, Print>)

  datatype Doing = Appends(batch: seq<Event>, answers: nat -> Io) | Restarts

  function Does(codec: Codec, s: Shelf, d: Doing): Shelf {
    match d
    case Restarts => s.(index := IndexOf(s.log))
    case Appends(batch, answers) =>
      var written := TakeIn(s.index, batch).written;
      Shelf(s.log + OnDisk(codec, s.index, batch, answers),
            Indexed(s.index, written[..Landing(codec, answers, written)]))
  }

  function Shelved(codec: Codec, doings: seq<Doing>): Shelf {
    if doings == [] then Shelf([], map[]) else Does(codec, Shelved(codec, doings[..|doings| - 1]), doings[|doings| - 1])
  }

  predicate UnsureAt(codec: Codec, doings: seq<Doing>, i: nat)
    requires i < |doings|
  {
    doings[i].Appends? && EndsUnsure(codec, Shelved(codec, doings[..i]).index, doings[i].batch, doings[i].answers)
  }

  /** Between an append that ended unsure and the next append there is a restart. */
  predicate RestartsWhenUnsure(codec: Codec, doings: seq<Doing>) {
    forall i :: 0 <= i < |doings| - 1 && UnsureAt(codec, doings, i) ==> doings[i + 1].Restarts?
  }

  lemma AppendKeepsShelf(codec: Codec, s: Shelf, d: Doing)
    requires Distinct(s.log) && (d.Appends? ==> s.index == IndexOf(s.log))
    ensures var s' := Does(codec, s, d);
            && Distinct(s'.log)
            && (d.Restarts? || !EndsUnsure(codec, s.index, d.batch, d.answers) ==> s'.index == IndexOf(s'.log))
  {
    hide IndexOf, TakeIn, Landing, Indexed;
    if d.Appends? {
      var written := TakeIn(s.index, d.batch).written;
      var part := OnDisk(codec, s.index, d.batch, d.answers);
      AppendsStayDistinct(s.log, d.batch);
      assert s.log + part == (s.log + written)[..|s.log| + |part|];
      IndexOfMore(s.log, part);
    }
  }

  /** Whatever fails, no sequence is on disk twice if a process ends when a write of it was unsure. */
  lemma {:induction false} RestartedLogsStayDistinct(codec: Codec, doings: seq<Doing>)
    requires RestartsWhenUnsure(codec, doings)
    ensures var s := Shelved(codec, doings);
            && Distinct(s.log)
            && (doings == [] || !UnsureAt(codec, doings, |doings| - 1) ==> s.index == IndexOf(s.log))
  {
    hide IndexOf, Does, EndsUnsure;
    if doings == [] {
      assert IndexOf([]) == map[] by { IndexedNothing(); }
    } else {
      var init := doings[..|doings| - 1];
      forall i | 0 <= i < |init| - 1 && UnsureAt(codec, init, i) ensures init[i + 1].Restarts? {
        assert init[..i] == doings[..i] && UnsureAt(codec, doings, i);
      }
      RestartedLogsStayDistinct(codec, init);
      if |init| > 0 {
        assert init[..|init| - 1] == doings[..|init| - 1];
        assert UnsureAt(codec, init, |init| - 1) == UnsureAt(codec, doings, |init| - 1);
      }
      AppendKeepsShelf(codec, Shelved(codec, init), doings[|init|]);
    }
  }

  lemma IndexedNothing()
    ensures IndexOf([]) == map[]
  {
  }

  // ---- a torn tail --------------------------------------------------------------------

  /** What a crash inside an append can leave behind the last newline: part of one record, or nothing. */
  ghost predicate TornTail(codec: Codec, tail: string) {
    '\n' !in tail && (tail == "" || exists e: Event :: codec.encodable(e) && tail <= codec.encode(e))
  }

  /** JSON: text that starts with part of an object does not parse once a second object follows. */
  ghost predicate GlueIsUnreadable(codec: Codec) {
    forall tail: string, e: Event ::
      tail != "" && TornTail(codec, tail) && codec.encodable(e) ==> LineEvents(codec, tail + codec.encode(e)) == []
  }

  /** What an append adds to a log is read back if and only if the log was terminated. */
  lemma AppendIsReadIffTerminated(codec: Codec, file: string, e: Event)
    requires Lawful(codec) && GlueIsUnreadable(codec) && codec.encodable(e) && TornTail(codec, Rest(file))
    ensures var file' := file + (codec.encode(e) + "\n");
            && Terminated(file')
            && FileEvents(codec, file') == LinesEvents(codec, Lines(file)) + if Terminated(file) then [e] else []
  {
    hide Lawful, GlueIsUnreadable, TornTail, Rest, Lines, LineEvents, LinesEvents, Bytes;
    var l, tail := codec.encode(e), Rest(file);
    LinesPartition(file);
    RecordBehindTail(codec, tail, e);
    LinesAppend(file, l + "\n");
    assert tail + (l + "\n") == (tail + l) + "\n";
    EndedLine(tail + l);
    LinesEventsAppend(codec, Lines(file), tail + l);
    assert LineEvents(codec, "") == [] by {
      BlankSaysNothing(codec);
    }
  }

  lemma RecordBehindTail(codec: Codec, tail: string, e: Event)
    requires Lawful(codec) && GlueIsUnreadable(codec) && codec.encodable(e) && TornTail(codec, tail)
    ensures '\n' !in codec.encode(e)
    ensures LineEvents(codec, tail + codec.encode(e)) == if tail == "" then [e] else []
  {
    hide TornTail;
    var l := codec.encode(e);
    assert codec.decode(l) == Some(e) && !IsBlank(l);
    assert tail == "" ==> tail + l == l;
  }

  /** So after writing a new record the cached index is the one of the file if and only if the log was terminated. */
  lemma CacheAgreesIffTerminated(codec: Codec, file: string, e: Event)
    requires Lawful(codec) && GlueIsUnreadable(codec) && codec.encodable(e) && TornTail(codec, Rest(file))
    requires e.sequence !in IndexOf(FileEvents(codec, file))
    ensures var file' := file + (codec.encode(e) + "\n");
            IndexOf(FileEvents(codec, file))[e.sequence := PrintOf(e)] == IndexOf(FileEvents(codec, file'))
            <==> Terminated(file)
  {
    hide Lawful, GlueIsUnreadable, Rest, Lines, LinesEvents, LineEvents, IndexOf, PrintOf;
    AppendIsReadIffTerminated(codec, file, e);
    var file' := file + (codec.encode(e) + "\n");
    var lines := LinesEvents(codec, Lines(file));
    if Terminated(file) {
      BlankSaysNothing(codec);
      assert FileEvents(codec, file) == lines;
      OneMoreIndexed(lines, e);
    } else {
      assert FileEvents(codec, file') == lines;
      IndexedIffPresent(FileEvents(codec, file), e.sequence);
      IndexedIffPresent(lines, e.sequence);
      assert forall i :: 0 <= i < |lines| ==> FileEvents(codec, file)[i] == lines[i];
    }
  }

  lemma OneMoreIndexed(log: seq<Event>, e: Event)
    ensures IndexOf(log + [e]) == IndexOf(log)[e.sequence := PrintOf(e)]
  {
    assert (log + [e])[..|log|] == log;
  }
}
